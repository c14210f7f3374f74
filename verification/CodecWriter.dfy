/** The bounded writer and the two printers built on it (src/codec.c, src/route.c, src/intent.c). */
module CodecWriter {
  import opened Amounts
  import opened Digests
  import opened Routes
  import opened LedgerTypes
  import opened Codec

  /** Appends text to a caller's buffer. The first append that does not fit fixes the status for good. */
  class Writer {
    const buf: array<char>
    var len: nat
    var status: Status
    /** Everything the callers asked for so far, whether or not it fitted. */
    ghost var asked: string

    /** The buffer holds what was asked, cut to its capacity and terminated; the status says whether it was cut. */
    ghost predicate Valid()
      reads this, buf
    {
      if buf.Length == 0 then status == ErrArgument
      else if |asked| < buf.Length then
        status == Ok && len == |asked| && buf[..len] == asked && buf[len] == '\0'
      else
        status == ErrCapacity && buf[..buf.Length - 1] == asked[..buf.Length - 1] && buf[buf.Length - 1] == '\0'
    }

    constructor (out: array<char>)
      modifies out
      ensures Valid() && buf == out && asked == ""
    {
      buf := out;
      len := 0;
      status := if out.Length == 0 then ErrArgument else Ok;
      asked := "";
      new;
      if out.Length > 0 {
        out[0] := '\0';
      }
    }

    /** The library's bounded print: at most `room - 1` characters, then a terminator. It returns the full length. */
    method Print(text: string, at: nat, room: nat) returns (written: nat)
      requires 0 < room && at + room == buf.Length
      modifies buf
      ensures written == |text|
      ensures buf[..at] == old(buf[..at])
      ensures written < room ==> buf[at..at + written] == text && buf[at + written] == '\0'
      ensures written >= room ==> buf[at..buf.Length - 1] == text[..room - 1] && buf[buf.Length - 1] == '\0'
    {
      var n := if |text| < room then |text| else room - 1;
      for i := 0 to n
        invariant buf[..at] == old(buf[..at])
        invariant buf[at..at + i] == text[..i]
      {
        buf[at + i] := text[i];
        assert buf[at..at + i + 1] == buf[at..at + i] + [text[i]];
      }
      buf[at + n] := '\0';
      assert buf[at..at + n] == text[..n];
      assert |text| < room ==> text[..n] == text;
      written := |text|;
    }

    /** `rest` stands for whatever text is still to follow. */
    method Put(text: string, ghost rest: string)
      requires Valid()
      modifies this, buf
      ensures Valid() && asked == old(asked) + text
      ensures old(asked) + (text + rest) == asked + rest
    {
      asked := asked + text;
      assert old(asked) + (text + rest) == asked + rest;
      if status != Ok {
        assert buf.Length > 0 ==> asked[..buf.Length - 1] == old(asked)[..buf.Length - 1];
        return;
      }
      var room := buf.Length - len;
      var written := Print(text, len, room);
      if written >= room {
        assert buf[..buf.Length - 1] == buf[..len] + buf[len..buf.Length - 1];
        status := ErrCapacity;
        buf[buf.Length - 1] := '\0';
        assert buf[..buf.Length - 1] == asked[..buf.Length - 1];
        return;
      }
      assert buf[..len + written] == buf[..len] + buf[len..len + written];
      len := len + written;
    }

    method PutField(name: string, value: string, ghost rest: string)
      requires Valid()
      modifies this, buf
      ensures Valid()
      ensures asked == old(asked) + Field(name, value, "")
      ensures old(asked) + Field(name, value, rest) == asked + rest
    {
      Put(name + "=" + value + ";", rest);
      assert Field(name, value, rest) == (name + "=" + value + ";") + rest;
      assert Field(name, value, "") == name + "=" + value + ";";
    }

    method PutNumber(name: string, n: Amount, ghost rest: string)
      requires Valid()
      modifies this, buf
      ensures Valid()
      ensures asked == old(asked) + NumberField(name, n, "")
      ensures old(asked) + NumberField(name, n, rest) == asked + rest
    {
      PutField(name, Decimal(n), rest);
    }

    method PutDigest(name: string, d: Digest, ghost rest: string)
      requires Valid()
      modifies this, buf
      ensures Valid()
      ensures asked == old(asked) + DigestField(name, d, "")
      ensures old(asked) + DigestField(name, d, rest) == asked + rest
    {
      PutField(name, Hex(d), rest);
    }
  }

  /** What a printer leaves in a buffer of the caller's: the whole text terminated, or its longest fitting prefix. */
  ghost predicate Printed(status: Status, out: seq<char>, text: string) {
    if |out| == 0 then status == ErrArgument
    else if |text| < |out| then status == Ok && out[..|text|] == text && out[|text|] == '\0'
    else status == ErrCapacity && out[..|out| - 1] == text[..|out| - 1] && out[|out| - 1] == '\0'
  }

  method PutHop(w: Writer, hopDigest: Hop -> Digest, i: Amount, hop: Hop, ghost rest: string)
    requires w.Valid()
    modifies w, w.buf
    ensures w.Valid()
    ensures old(w.asked) + HopText(hopDigest, i, hop, rest) == w.asked + rest
  {
    hide w.Valid, NumberField, DigestField;
    ghost var goal := old(w.asked) + HopText(hopDigest, i, hop, rest);
    ghost var priority := NumberField("priority", hop.priority, "}" + rest);
    ghost var weight := NumberField("weight_bps", hop.weightBps, priority);
    ghost var amount := NumberField("amount_hint", hop.amountHint, weight);
    ghost var bridge := DigestField("bridge", hop.bridge, amount);
    ghost var to := DigestField("to", hop.toVault, bridge);
    ghost var from := DigestField("from", hop.fromVault, to);
    ghost var lane := DigestField("lane", hop.lane, from);
    ghost var digest := DigestField("digest", hopDigest(hop), lane);
    ghost var index := NumberField("idx", i, digest);
    w.Put("hop{", index);
    assert goal == w.asked + index;
    hide *;
    w.PutNumber("idx", i, digest);
    w.PutDigest("digest", hopDigest(hop), lane);
    w.PutDigest("lane", hop.lane, from);
    w.PutDigest("from", hop.fromVault, to);
    w.PutDigest("to", hop.toVault, bridge);
    w.PutDigest("bridge", hop.bridge, amount);
    w.PutNumber("amount_hint", hop.amountHint, weight);
    w.PutNumber("weight_bps", hop.weightBps, priority);
    w.PutNumber("priority", hop.priority, "}" + rest);
    w.Put("}", rest);
  }

  method PutPlan(w: Writer, hopDigest: Hop -> Digest, plan: Plan)
    requires w.Valid() && w.asked == "" && |plan.hops| <= MAX_ROUTE_HOPS
    modifies w, w.buf
    ensures w.Valid() && w.asked == PlanText(hopDigest, plan)
  {
    hide w.Valid, NumberField, DigestField, HopsText, HopText;
    ghost var goal := PlanText(hopDigest, plan);
    ghost var hops := HopsText(hopDigest, plan.hops, 0, "}");
    ghost var count := NumberField("hop_count", |plan.hops|, hops);
    ghost var settle := NumberField("settle_after", plan.settleAfter, count);
    ghost var quote := NumberField("quote_epoch", plan.quoteEpoch, settle);
    ghost var fee := NumberField("max_fee_bps", plan.maxFeeBps, quote);
    ghost var net := NumberField("min_net", plan.minNet, fee);
    ghost var memo := DigestField("memo", plan.memo, net);
    ghost var operator := DigestField("operator", plan.operatorAccount, memo);
    ghost var beneficiary := DigestField("beneficiary", plan.beneficiary, operator);
    ghost var lane := DigestField("lane", plan.settlementLane, beneficiary);
    w.Put("plan{", lane);
    assert goal == w.asked + lane;
    hide PlanText, PlanNumbers;
    w.PutDigest("lane", plan.settlementLane, beneficiary);
    w.PutDigest("beneficiary", plan.beneficiary, operator);
    w.PutDigest("operator", plan.operatorAccount, memo);
    w.PutDigest("memo", plan.memo, net);
    w.PutNumber("min_net", plan.minNet, fee);
    w.PutNumber("max_fee_bps", plan.maxFeeBps, quote);
    w.PutNumber("quote_epoch", plan.quoteEpoch, settle);
    w.PutNumber("settle_after", plan.settleAfter, count);
    w.PutNumber("hop_count", |plan.hops|, hops);
    PutHops(w, hopDigest, plan.hops);
    w.Put("}", "");
    assert w.asked + "" == w.asked;
  }

  method PutHops(w: Writer, hopDigest: Hop -> Digest, hops: seq<Hop>)
    requires w.Valid() && |hops| <= MAX_ROUTE_HOPS
    modifies w, w.buf
    ensures w.Valid()
    ensures old(w.asked) + HopsText(hopDigest, hops, 0, "}") == w.asked + "}"
  {
    hide w.Valid, HopText;
    for i := 0 to |hops|
      invariant w.Valid()
      invariant old(w.asked) + HopsText(hopDigest, hops, 0, "}") == w.asked + HopsText(hopDigest, hops, i, "}")
    {
      PutHop(w, hopDigest, i, hops[i], HopsText(hopDigest, hops, i + 1, "}"));
    }
  }

  /** Prints a plan into the caller's buffer. */
  method PlanCanonical(hopDigest: Hop -> Digest, plan: Plan, out: array<char>) returns (status: Status)
    modifies out
    ensures out.Length == 0 || |plan.hops| > MAX_ROUTE_HOPS ==> status == ErrArgument && out[..] == old(out[..])
    ensures |plan.hops| <= MAX_ROUTE_HOPS ==> Printed(status, out[..], PlanText(hopDigest, plan))
  {
    if out.Length == 0 || |plan.hops| > MAX_ROUTE_HOPS {
      return ErrArgument;
    }
    var w := new Writer(out);
    PutPlan(w, hopDigest, plan);
    hide PlanText;
    PrintedBy(w, PlanText(hopDigest, plan));
    return w.status;
  }

  /** The characters before the first terminator. */
  function CString(buf: seq<char>): string {
    if |buf| == 0 || buf[0] == '\0' then "" else [buf[0]] + CString(buf[1..])
  }

  lemma {:induction false} CStringIs(buf: seq<char>, text: string)
    requires |text| < |buf| && buf[..|text|] == text && buf[|text|] == '\0' && '\0' !in text
    ensures CString(buf) == text
  {
    if |text| > 0 {
      assert buf[0] == text[0] && buf[1..][..|text| - 1] == text[1..];
      CStringIs(buf[1..], text[1..]);
    }
  }

  /** No canonical text contains a terminator. */
  lemma {:induction false} HopsTextPlain(hopDigest: Hop -> Digest, hops: seq<Hop>, i: nat, rest: string)
    requires i <= |hops| && '\0' !in rest
    ensures '\0' !in HopsText(hopDigest, hops, i, rest)
    decreases |hops| - i
  {
    hide HopText;
    if i < |hops| {
      var others := HopsText(hopDigest, hops, i + 1, rest);
      HopsTextPlain(hopDigest, hops, i + 1, rest);
      HopTextPlain(hopDigest, i, hops[i], others);
    }
  }

  lemma NumberPlain(name: string, n: nat, rest: string)
    requires '\0' !in name && '\0' !in rest
    ensures '\0' !in NumberField(name, n, rest)
  {
    assert '\0' !in Decimal(n);
  }

  lemma DigestPlain(name: string, d: Digest, rest: string)
    requires '\0' !in name && '\0' !in rest
    ensures '\0' !in DigestField(name, d, rest)
  {
    HexIsPlain(d);
    assert '\0' !in Hex(d);
  }

  lemma {:induction false} HopTextPlain(hopDigest: Hop -> Digest, i: nat, hop: Hop, rest: string)
    requires '\0' !in rest
    ensures '\0' !in HopText(hopDigest, i, hop, rest)
  {
    hide NumberField, DigestField;
    var priority := NumberField("priority", hop.priority, "}" + rest);
    var weight := NumberField("weight_bps", hop.weightBps, priority);
    var amount := NumberField("amount_hint", hop.amountHint, weight);
    var bridge := DigestField("bridge", hop.bridge, amount);
    var to := DigestField("to", hop.toVault, bridge);
    var from := DigestField("from", hop.fromVault, to);
    var lane := DigestField("lane", hop.lane, from);
    var digest := DigestField("digest", hopDigest(hop), lane);
    NumberPlain("priority", hop.priority, "}" + rest);
    NumberPlain("weight_bps", hop.weightBps, priority);
    NumberPlain("amount_hint", hop.amountHint, weight);
    DigestPlain("bridge", hop.bridge, amount);
    DigestPlain("to", hop.toVault, bridge);
    DigestPlain("from", hop.fromVault, to);
    DigestPlain("lane", hop.lane, from);
    DigestPlain("digest", hopDigest(hop), lane);
    NumberPlain("idx", i, digest);
  }

  lemma {:induction false} PlanTextPlain(hopDigest: Hop -> Digest, plan: Plan)
    ensures '\0' !in PlanText(hopDigest, plan)
  {
    hide NumberField, DigestField, HopsText;
    var hops := HopsText(hopDigest, plan.hops, 0, "}");
    var count := NumberField("hop_count", |plan.hops|, hops);
    var settle := NumberField("settle_after", plan.settleAfter, count);
    var quote := NumberField("quote_epoch", plan.quoteEpoch, settle);
    var fee := NumberField("max_fee_bps", plan.maxFeeBps, quote);
    var net := NumberField("min_net", plan.minNet, fee);
    var memo := DigestField("memo", plan.memo, net);
    var operator := DigestField("operator", plan.operatorAccount, memo);
    var beneficiary := DigestField("beneficiary", plan.beneficiary, operator);
    HopsTextPlain(hopDigest, plan.hops, 0, "}");
    NumberPlain("hop_count", |plan.hops|, hops);
    NumberPlain("settle_after", plan.settleAfter, count);
    NumberPlain("quote_epoch", plan.quoteEpoch, settle);
    NumberPlain("max_fee_bps", plan.maxFeeBps, quote);
    NumberPlain("min_net", plan.minNet, fee);
    DigestPlain("memo", plan.memo, net);
    DigestPlain("operator", plan.operatorAccount, memo);
    DigestPlain("beneficiary", plan.beneficiary, operator);
    DigestPlain("lane", plan.settlementLane, beneficiary);
  }

  /** Digests a plan's canonical text. For a plan of at most eight hops the fallback is never taken. */
  method PlanDigest(hopDigest: Hop -> Digest, canonical: string -> Digest, invalid: Digest, plan: Plan)
    returns (d: Digest)
    ensures d == if |plan.hops| <= MAX_ROUTE_HOPS then canonical(PlanText(hopDigest, plan)) else invalid
  {
    var payload := new char[PLAN_BUFFER];
    var status := PlanCanonical(hopDigest, plan, payload);
    hide *;
    if |plan.hops| <= MAX_ROUTE_HOPS {
      PlanPrintedWhole(hopDigest, plan, status, payload[..]);
    }
    if status != Ok {
      return invalid;
    }
    return canonical(CString(payload[..]));
  }

  lemma {:induction false} PlanPrintedWhole(hopDigest: Hop -> Digest, plan: Plan, status: Status, out: seq<char>)
    requires |plan.hops| <= MAX_ROUTE_HOPS && |out| == PLAN_BUFFER
    requires Printed(status, out, PlanText(hopDigest, plan))
    ensures status == Ok && CString(out) == PlanText(hopDigest, plan)
  {
    hide PlanText, Printed, CString;
    PlanLength(hopDigest, plan);
    PlanTextPlain(hopDigest, plan);
    PrintedWhole(status, out, PlanText(hopDigest, plan));
  }

  lemma {:induction false} PrintedWhole(status: Status, out: seq<char>, text: string)
    requires Printed(status, out, text) && |text| < |out| && '\0' !in text
    ensures status == Ok && CString(out) == text
  {
    CStringIs(out, text);
  }

  /** Prints what an intent's signature covers into the caller's buffer. */
  method AuthorizationPayload(terms: Terms, planDigest: Digest, out: array<char>) returns (status: Status)
    modifies out
    ensures Printed(status, out[..], IntentText(terms, planDigest))
    ensures out.Length >= INTENT_BUFFER ==> status == Ok
  {
    IntentLength(terms, planDigest);
    if out.Length == 0 {
      return ErrArgument;
    }
    var w := new Writer(out);
    hide w.Valid, NumberField, DigestField, Field;
    ghost var goal := IntentText(terms, planDigest);
    ghost var plan := DigestField("plan", planDigest, "}");
    ghost var memo := Field("memo", terms.memo, plan);
    ghost var deadline := NumberField("deadline", terms.deadline, memo);
    ghost var nonce := NumberField("nonce", terms.payerNonce, deadline);
    ghost var gross := NumberField("gross", terms.gross, nonce);
    ghost var asset := DigestField("asset", terms.assetId, gross);
    ghost var payer := DigestField("payer", terms.payer, asset);
    ghost var intent := DigestField("intent", terms.intentId, payer);
    ghost var network := NumberField("network", terms.networkId, intent);
    w.Put("intent{", network);
    assert goal == w.asked + network;
    hide IntentText, IntentNumbers;
    w.PutNumber("network", terms.networkId, intent);
    w.PutDigest("intent", terms.intentId, payer);
    w.PutDigest("payer", terms.payer, asset);
    w.PutDigest("asset", terms.assetId, gross);
    w.PutNumber("gross", terms.gross, nonce);
    w.PutNumber("nonce", terms.payerNonce, deadline);
    w.PutNumber("deadline", terms.deadline, memo);
    w.PutField("memo", terms.memo, plan);
    w.PutDigest("plan", planDigest, "}");
    w.Put("}", "");
    assert w.asked + "" == w.asked;
    PrintedBy(w, goal);
    return w.status;
  }

  lemma PrintedBy(w: Writer, text: string)
    requires w.Valid() && w.asked == text
    ensures Printed(w.status, w.buf[..], text)
  {
    assert forall k | 0 <= k <= w.buf.Length :: w.buf[..][..k] == w.buf[..k];
  }
}
