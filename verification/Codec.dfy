/** The canonical text forms of plans and intents, and the parsers that undo them (src/codec.c, src/route.c,
    src/intent.c). Every text function takes what is printed after it as its last argument. */
module Codec {
  import opened Amounts
  import opened Digests
  import opened Routes
  import opened LedgerTypes

  // ---------- Numbers ----------

  function Digit(d: nat): char
    requires d < 10
  {
    ('0' as int + d) as char
  }

  predicate IsDigit(c: char) {
    '0' <= c <= '9'
  }

  /** Decimal form without leading zeros. */
  function Decimal(n: nat): (text: string)
    ensures |text| > 0 && forall c | c in text :: IsDigit(c)
  {
    if n < 10 then [Digit(n)] else Decimal(n / 10) + [Digit(n % 10)]
  }

  function Undecimal(text: string): nat
    requires forall c | c in text :: IsDigit(c)
  {
    if |text| == 0 then 0
    else
      var last := text[|text| - 1];
      assert IsDigit(last);
      Undecimal(text[..|text| - 1]) * 10 + (last as int - '0' as int)
  }

  lemma {:induction false} DecimalRoundTrip(n: nat)
    ensures Undecimal(Decimal(n)) == n
  {
    if n < 10 {
      assert Decimal(n)[..0] == "";
    } else {
      DecimalRoundTrip(n / 10);
      assert Decimal(n)[..|Decimal(n)| - 1] == Decimal(n / 10);
    }
  }

  function Pow10(k: nat): nat {
    if k == 0 then 1 else 10 * Pow10(k - 1)
  }

  lemma {:induction false} DecimalLength(n: nat, k: nat)
    requires 0 < k && n < Pow10(k)
    ensures |Decimal(n)| <= k
  {
    if n >= 10 {
      DecimalLength(n / 10, k - 1);
    }
  }

  lemma {:induction false} NumberLengths(a: Amount, b: U32)
    ensures |Decimal(a)| <= 20 && |Decimal(b)| <= 10
  {
    assert Pow10(5) == 100000;
    assert Pow10(10) == 10_000_000_000 by {
      assert Pow10(10) == 10 * 10 * 10 * 10 * 10 * Pow10(5);
    }
    assert Pow10(15) == 1_000_000_000_000_000 by {
      assert Pow10(15) == 10 * 10 * 10 * 10 * 10 * Pow10(10);
    }
    assert Pow10(20) == 100_000_000_000_000_000_000 by {
      assert Pow10(20) == 10 * 10 * 10 * 10 * 10 * Pow10(15);
    }
    DecimalLength(a, 20);
    DecimalLength(b, 10);
  }

  // ---------- Fields ----------

  function Field(name: string, value: string, rest: string): string {
    name + "=" + value + ";" + rest
  }

  function NumberField(name: string, n: nat, rest: string): string {
    Field(name, Decimal(n), rest)
  }

  function DigestField(name: string, d: Digest, rest: string): string {
    Field(name, Hex(d), rest)
  }

  /** The text up to the first separator, and what follows it. */
  function Split(text: string): Option<(string, string)> {
    if |text| == 0 then None
    else if text[0] == ';' then Some(("", text[1..]))
    else
      var r :- Split(text[1..]);
      Some(([text[0]] + r.0, r.1))
  }

  lemma {:induction false} SplitBack(value: string, rest: string)
    requires ';' !in value
    ensures Split(value + ";" + rest) == Some((value, rest))
  {
    var text := value + ";" + rest;
    if |value| == 0 {
      assert text[1..] == rest;
    } else {
      assert text[1..] == value[1..] + ";" + rest;
      SplitBack(value[1..], rest);
      assert [value[0]] + value[1..] == value;
    }
  }

  function TakeLiteral(literal: string, text: string): Option<string> {
    if literal <= text then Some(text[|literal|..]) else None
  }

  lemma TakeLiteralBack(literal: string, rest: string)
    ensures TakeLiteral(literal, literal + rest) == Some(rest)
  {
    assert (literal + rest)[|literal|..] == rest;
  }

  function TakeField(name: string, text: string): Option<(string, string)> {
    var value :- TakeLiteral(name + "=", text);
    Split(value)
  }

  lemma {:induction false} TakeFieldBack(name: string, value: string, rest: string)
    requires ';' !in value
    ensures TakeField(name, Field(name, value, rest)) == Some((value, rest))
  {
    assert Field(name, value, rest) == (name + "=") + (value + ";" + rest);
    TakeLiteralBack(name + "=", value + ";" + rest);
    SplitBack(value, rest);
  }

  function TakeNumber(name: string, limit: nat, text: string): (r: Option<(nat, string)>)
    ensures r.Some? ==> r.value.0 <= limit
  {
    var field :- TakeField(name, text);
    if |field.0| == 0 || exists c | c in field.0 :: !IsDigit(c) then None
    else if Undecimal(field.0) > limit then None
    else Some((Undecimal(field.0), field.1))
  }

  lemma {:induction false} TakeNumberBack(name: string, n: nat, limit: nat, rest: string)
    requires n <= limit
    ensures TakeNumber(name, limit, NumberField(name, n, rest)) == Some((n, rest))
  {
    assert ';' !in Decimal(n);
    TakeFieldBack(name, Decimal(n), rest);
    DecimalRoundTrip(n);
  }

  function TakeDigest(name: string, text: string): Option<(Digest, string)> {
    var field :- TakeField(name, text);
    if |field.0| != HEX_LENGTH || exists c | c in field.0 :: !IsHexDigit(c) then None
    else if |Unhex(field.0)| != DIGEST_BYTES then None
    else Some((Unhex(field.0), field.1))
  }

  lemma {:induction false} TakeDigestBack(name: string, d: Digest, rest: string)
    ensures TakeDigest(name, DigestField(name, d, rest)) == Some((d, rest))
  {
    HexRoundTrip(d);
    assert ';' !in Hex(d);
    TakeFieldBack(name, Hex(d), rest);
  }

  // ---------- Plans ----------

  function HopText(hopDigest: Hop -> Digest, i: nat, hop: Hop, rest: string): string {
    "hop{" + NumberField("idx", i,
                         DigestField("digest", hopDigest(hop),
                                     DigestField("lane", hop.lane,
                                                 DigestField("from", hop.fromVault,
                                                             DigestField("to", hop.toVault,
                                                                         DigestField("bridge", hop.bridge,
                                                                                     HopNumbers(hop, rest)))))))
  }

  function HopNumbers(hop: Hop, rest: string): string {
    NumberField("amount_hint", hop.amountHint,
                NumberField("weight_bps", hop.weightBps,
                            NumberField("priority", hop.priority, "}" + rest)))
  }

  function HopsText(hopDigest: Hop -> Digest, hops: seq<Hop>, i: nat, rest: string): string
    requires i <= |hops|
    decreases |hops| - i
  {
    if i == |hops| then rest else HopText(hopDigest, i, hops[i], HopsText(hopDigest, hops, i + 1, rest))
  }

  function PlanText(hopDigest: Hop -> Digest, plan: Plan): string {
    "plan{" + DigestField("lane", plan.settlementLane,
                          DigestField("beneficiary", plan.beneficiary,
                                      DigestField("operator", plan.operatorAccount,
                                                  DigestField("memo", plan.memo, PlanNumbers(hopDigest, plan)))))
  }

  function PlanNumbers(hopDigest: Hop -> Digest, plan: Plan): string {
    NumberField("min_net", plan.minNet,
                NumberField("max_fee_bps", plan.maxFeeBps,
                            NumberField("quote_epoch", plan.quoteEpoch,
                                        NumberField("settle_after", plan.settleAfter,
                                                    NumberField("hop_count", |plan.hops|,
                                                                HopsText(hopDigest, plan.hops, 0, "}"))))))
  }

  // ---------- Parsing plans ----------

  function ParseHopNumbers(text: string): Option<((Amount, U32, U32), string)> {
    var amount :- TakeNumber("amount_hint", U64_MAX, text);
    var weight :- TakeNumber("weight_bps", U32_SIZE - 1, amount.1);
    var priority :- TakeNumber("priority", U32_SIZE - 1, weight.1);
    var rest :- TakeLiteral("}", priority.1);
    Some(((amount.0, weight.0, priority.0), rest))
  }

  /** A hop must carry its own position; what is printed as its digest is handed on with it. */
  function ParseHop(i: nat, text: string): Option<((Hop, Digest), string)> {
    var body :- TakeLiteral("hop{", text);
    var index :- TakeNumber("idx", i, body);
    var digest :- TakeDigest("digest", index.1);
    var lane :- TakeDigest("lane", digest.1);
    var from :- TakeDigest("from", lane.1);
    var to :- TakeDigest("to", from.1);
    var bridge :- TakeDigest("bridge", to.1);
    var numbers :- ParseHopNumbers(bridge.1);
    if index.0 != i then None
    else
      Some(((Hop(lane.0, from.0, to.0, bridge.0, numbers.0.0, numbers.0.1, numbers.0.2), digest.0), numbers.1))
  }

  function ParseHops(i: nat, n: nat, text: string): Option<((seq<Hop>, seq<Digest>), string)>
    requires i <= n
    decreases n - i
  {
    if i == n then Some((([], []), text))
    else
      var first :- ParseHop(i, text);
      var others :- ParseHops(i + 1, n, first.1);
      Some((([first.0.0] + others.0.0, [first.0.1] + others.0.1), others.1))
  }

  datatype PlanHead = PlanHead(lane: Digest, beneficiary: Digest, operator: Digest, memo: Digest)

  function ParsePlanHead(text: string): Option<(PlanHead, string)> {
    var body :- TakeLiteral("plan{", text);
    var lane :- TakeDigest("lane", body);
    var beneficiary :- TakeDigest("beneficiary", lane.1);
    var operator :- TakeDigest("operator", beneficiary.1);
    var memo :- TakeDigest("memo", operator.1);
    Some((PlanHead(lane.0, beneficiary.0, operator.0, memo.0), memo.1))
  }

  datatype PlanTerms = PlanTerms(minNet: Amount, maxFeeBps: U32, quoteEpoch: Amount, settleAfter: Amount, hopCount: nat)

  function ParsePlanTerms(text: string): Option<(PlanTerms, string)> {
    var minNet :- TakeNumber("min_net", U64_MAX, text);
    var maxFee :- TakeNumber("max_fee_bps", U32_SIZE - 1, minNet.1);
    var quoteEpoch :- TakeNumber("quote_epoch", U64_MAX, maxFee.1);
    var settleAfter :- TakeNumber("settle_after", U64_MAX, quoteEpoch.1);
    var hopCount :- TakeNumber("hop_count", MAX_ROUTE_HOPS, settleAfter.1);
    Some((PlanTerms(minNet.0, maxFee.0, quoteEpoch.0, settleAfter.0, hopCount.0), hopCount.1))
  }

  /** The plan, and the digests printed with its hops. */
  function ParsePlan(text: string): Option<(Plan, seq<Digest>)> {
    var head :- ParsePlanHead(text);
    var terms :- ParsePlanTerms(head.1);
    var hops :- ParseHops(0, terms.0.hopCount, terms.1);
    if hops.1 != "}" then None
    else
      Some((Plan(head.0.lane, head.0.beneficiary, head.0.operator, head.0.memo, hops.0.0,
            terms.0.minNet, terms.0.maxFeeBps, terms.0.quoteEpoch, terms.0.settleAfter), hops.0.1))
  }

  lemma {:induction false} ParseHopNumbersBack(hop: Hop, rest: string)
    ensures ParseHopNumbers(HopNumbers(hop, rest)) == Some(((hop.amountHint, hop.weightBps, hop.priority), rest))
  {
    hide TakeNumber, NumberField, TakeLiteral;
    var c := "}" + rest;
    var b := NumberField("priority", hop.priority, c);
    var a := NumberField("weight_bps", hop.weightBps, b);
    TakeNumberBack("amount_hint", hop.amountHint, U64_MAX, a);
    TakeNumberBack("weight_bps", hop.weightBps, U32_SIZE - 1, b);
    TakeNumberBack("priority", hop.priority, U32_SIZE - 1, c);
    TakeLiteralBack("}", rest);
  }

  lemma {:induction false} ParseHopBack(hopDigest: Hop -> Digest, i: nat, hop: Hop, rest: string)
    ensures ParseHop(i, HopText(hopDigest, i, hop, rest)) == Some(((hop, hopDigest(hop)), rest))
  {
    hide TakeNumber, NumberField, TakeLiteral, TakeDigest, DigestField, ParseHopNumbers, HopNumbers;
    var numbers := HopNumbers(hop, rest);
    var bridge := DigestField("bridge", hop.bridge, numbers);
    var to := DigestField("to", hop.toVault, bridge);
    var from := DigestField("from", hop.fromVault, to);
    var lane := DigestField("lane", hop.lane, from);
    var digest := DigestField("digest", hopDigest(hop), lane);
    var index := NumberField("idx", i, digest);
    TakeLiteralBack("hop{", index);
    TakeNumberBack("idx", i, i, digest);
    TakeDigestBack("digest", hopDigest(hop), lane);
    TakeDigestBack("lane", hop.lane, from);
    TakeDigestBack("from", hop.fromVault, to);
    TakeDigestBack("to", hop.toVault, bridge);
    TakeDigestBack("bridge", hop.bridge, numbers);
    ParseHopNumbersBack(hop, rest);
  }

  function HopDigests(hopDigest: Hop -> Digest, hops: seq<Hop>): (digests: seq<Digest>)
    ensures |digests| == |hops|
  {
    seq(|hops|, i requires 0 <= i < |hops| => hopDigest(hops[i]))
  }

  lemma {:induction false} ParseHopsBack(hopDigest: Hop -> Digest, hops: seq<Hop>, i: nat, rest: string)
    requires i <= |hops|
    ensures ParseHops(i, |hops|, HopsText(hopDigest, hops, i, rest))
         == Some(((hops[i..], HopDigests(hopDigest, hops[i..])), rest))
    decreases |hops| - i
  {
    hide ParseHop, HopText;
    if i == |hops| {
      assert hops[i..] == [];
    } else {
      ParseHopBack(hopDigest, i, hops[i], HopsText(hopDigest, hops, i + 1, rest));
      ParseHopsBack(hopDigest, hops, i + 1, rest);
      assert [hops[i]] + hops[i + 1..] == hops[i..];
      assert [hopDigest(hops[i])] + HopDigests(hopDigest, hops[i + 1..]) == HopDigests(hopDigest, hops[i..]);
    }
  }

  lemma {:induction false} ParsePlanHeadBack(hopDigest: Hop -> Digest, plan: Plan)
    ensures ParsePlanHead(PlanText(hopDigest, plan))
         == Some((PlanHead(plan.settlementLane, plan.beneficiary, plan.operatorAccount, plan.memo),
                  PlanNumbers(hopDigest, plan)))
  {
    hide TakeLiteral, TakeDigest, DigestField, PlanNumbers;
    var numbers := PlanNumbers(hopDigest, plan);
    var memo := DigestField("memo", plan.memo, numbers);
    var operator := DigestField("operator", plan.operatorAccount, memo);
    var beneficiary := DigestField("beneficiary", plan.beneficiary, operator);
    var lane := DigestField("lane", plan.settlementLane, beneficiary);
    TakeLiteralBack("plan{", lane);
    TakeDigestBack("lane", plan.settlementLane, beneficiary);
    TakeDigestBack("beneficiary", plan.beneficiary, operator);
    TakeDigestBack("operator", plan.operatorAccount, memo);
    TakeDigestBack("memo", plan.memo, numbers);
  }

  lemma {:induction false} ParsePlanTermsBack(hopDigest: Hop -> Digest, plan: Plan)
    requires |plan.hops| <= MAX_ROUTE_HOPS
    ensures ParsePlanTerms(PlanNumbers(hopDigest, plan))
         == Some((PlanTerms(plan.minNet, plan.maxFeeBps, plan.quoteEpoch, plan.settleAfter, |plan.hops|),
                  HopsText(hopDigest, plan.hops, 0, "}")))
  {
    hide TakeNumber, NumberField, HopsText;
    var hops := HopsText(hopDigest, plan.hops, 0, "}");
    var count := NumberField("hop_count", |plan.hops|, hops);
    var settle := NumberField("settle_after", plan.settleAfter, count);
    var quote := NumberField("quote_epoch", plan.quoteEpoch, settle);
    var fee := NumberField("max_fee_bps", plan.maxFeeBps, quote);
    TakeNumberBack("min_net", plan.minNet, U64_MAX, fee);
    TakeNumberBack("max_fee_bps", plan.maxFeeBps, U32_SIZE - 1, quote);
    TakeNumberBack("quote_epoch", plan.quoteEpoch, U64_MAX, settle);
    TakeNumberBack("settle_after", plan.settleAfter, U64_MAX, count);
    TakeNumberBack("hop_count", |plan.hops|, MAX_ROUTE_HOPS, hops);
  }

  /** Parsing the canonical text of a plan gives the plan back, and the digest of every hop. */
  lemma {:induction false} PlanRoundTrip(hopDigest: Hop -> Digest, plan: Plan)
    requires |plan.hops| <= MAX_ROUTE_HOPS
    ensures ParsePlan(PlanText(hopDigest, plan)) == Some((plan, HopDigests(hopDigest, plan.hops)))
  {
    hide ParsePlanHead, ParsePlanTerms, ParseHops, PlanText, PlanNumbers, HopsText;
    ParsePlanHeadBack(hopDigest, plan);
    ParsePlanTermsBack(hopDigest, plan);
    ParseHopsBack(hopDigest, plan.hops, 0, "}");
    assert plan.hops[0..] == plan.hops;
  }

  /** Two plans with the same canonical text are the same plan, whatever the hop digests. */
  lemma {:induction false} PlanTextInjective(f: Hop -> Digest, g: Hop -> Digest, a: Plan, b: Plan)
    requires |a.hops| <= MAX_ROUTE_HOPS && |b.hops| <= MAX_ROUTE_HOPS
    requires PlanText(f, a) == PlanText(g, b)
    ensures a == b
  {
    hide PlanText, ParsePlan;
    PlanRoundTrip(f, a);
    PlanRoundTrip(g, b);
  }

  // ---------- Authorization payloads ----------

  function IntentText(terms: Terms, planDigest: Digest): string {
    "intent{" + NumberField("network", terms.networkId,
                            DigestField("intent", terms.intentId,
                                        DigestField("payer", terms.payer,
                                                    DigestField("asset", terms.assetId,
                                                                IntentNumbers(terms, planDigest)))))
  }

  function IntentNumbers(terms: Terms, planDigest: Digest): string {
    NumberField("gross", terms.gross,
                NumberField("nonce", terms.payerNonce,
                            NumberField("deadline", terms.deadline,
                                        Field("memo", terms.memo, DigestField("plan", planDigest, "}")))))
  }

  /** Everything an authorization payload commits to. */
  datatype Commitment = Commitment(
    networkId: U32, intentId: Digest, payer: Digest, assetId: Digest, gross: Amount, payerNonce: Amount,
    deadline: Amount, memo: string, planDigest: Digest)

  /** The memo may contain separators, so the end of the payload is found from its fixed-length tail. */
  const TAIL: int := 72

  function ParseTail(text: string): Option<(string, Digest)> {
    var memo :- TakeLiteral("memo=", text);
    if |memo| < TAIL then None
    else
      var split := |memo| - TAIL;
      var tail :- TakeLiteral(";", memo[split..]);
      var plan :- TakeDigest("plan", tail);
      if plan.1 != "}" then None else Some((memo[..split], plan.0))
  }

  function ParseIntentNumbers(text: string): Option<((Amount, Amount, Amount), string)> {
    var gross :- TakeNumber("gross", U64_MAX, text);
    var nonce :- TakeNumber("nonce", U64_MAX, gross.1);
    var deadline :- TakeNumber("deadline", U64_MAX, nonce.1);
    Some(((gross.0, nonce.0, deadline.0), deadline.1))
  }

  function ParseIntent(text: string): Option<Commitment> {
    var body :- TakeLiteral("intent{", text);
    var network :- TakeNumber("network", U32_SIZE - 1, body);
    var intent :- TakeDigest("intent", network.1);
    var payer :- TakeDigest("payer", intent.1);
    var asset :- TakeDigest("asset", payer.1);
    var numbers :- ParseIntentNumbers(asset.1);
    var tail :- ParseTail(numbers.1);
    Some(Commitment(network.0, intent.0, payer.0, asset.0, numbers.0.0, numbers.0.1, numbers.0.2, tail.0, tail.1))
  }

  lemma {:induction false} ParseTailBack(memo: string, planDigest: Digest)
    ensures ParseTail(Field("memo", memo, DigestField("plan", planDigest, "}"))) == Some((memo, planDigest))
  {
    var plan := DigestField("plan", planDigest, "}");
    var body := memo + (";" + plan);
    assert Field("memo", memo, plan) == "memo=" + body;
    TakeLiteralBack("memo=", body);
    assert |plan| == TAIL - 1;
    assert body[|memo|..] == ";" + plan && body[..|memo|] == memo;
    TakeLiteralBack(";", plan);
    TakeDigestBack("plan", planDigest, "}");
  }

  lemma {:induction false} ParseIntentNumbersBack(terms: Terms, planDigest: Digest)
    ensures ParseIntentNumbers(IntentNumbers(terms, planDigest))
         == Some(((terms.gross, terms.payerNonce, terms.deadline),
                  Field("memo", terms.memo, DigestField("plan", planDigest, "}"))))
  {
    hide TakeNumber, NumberField, Field, DigestField;
    var tail := Field("memo", terms.memo, DigestField("plan", planDigest, "}"));
    var deadline := NumberField("deadline", terms.deadline, tail);
    var nonce := NumberField("nonce", terms.payerNonce, deadline);
    TakeNumberBack("gross", terms.gross, U64_MAX, nonce);
    TakeNumberBack("nonce", terms.payerNonce, U64_MAX, deadline);
    TakeNumberBack("deadline", terms.deadline, U64_MAX, tail);
  }

  /** Parsing an authorization payload gives back everything it commits to, whatever characters the memo contains. */
  lemma {:induction false} IntentRoundTrip(terms: Terms, planDigest: Digest)
    ensures ParseIntent(IntentText(terms, planDigest))
         == Some(Commitment(terms.networkId, terms.intentId, terms.payer, terms.assetId, terms.gross,
                            terms.payerNonce, terms.deadline, terms.memo, planDigest))
  {
    hide TakeLiteral, TakeNumber, NumberField, TakeDigest, DigestField, Field, ParseTail, ParseIntentNumbers,
      IntentNumbers;
    var numbers := IntentNumbers(terms, planDigest);
    var asset := DigestField("asset", terms.assetId, numbers);
    var payer := DigestField("payer", terms.payer, asset);
    var intent := DigestField("intent", terms.intentId, payer);
    var network := NumberField("network", terms.networkId, intent);
    TakeLiteralBack("intent{", network);
    TakeNumberBack("network", terms.networkId, U32_SIZE - 1, intent);
    TakeDigestBack("intent", terms.intentId, payer);
    TakeDigestBack("payer", terms.payer, asset);
    TakeDigestBack("asset", terms.assetId, numbers);
    ParseIntentNumbersBack(terms, planDigest);
    ParseTailBack(terms.memo, planDigest);
  }

  /** Equal payloads commit to equal terms, up to the plan, and to the same plan digest. */
  lemma {:induction false} IntentTextInjective(a: Terms, b: Terms, p: Digest, q: Digest)
    requires IntentText(a, p) == IntentText(b, q)
    ensures a == b.(plan := a.plan) && p == q
  {
    hide IntentText, ParseIntent;
    IntentRoundTrip(a, p);
    IntentRoundTrip(b, q);
  }

  // ---------- Lengths ----------

  const PLAN_BUFFER: int := 4096
  const PLAN_MAX: int := 3932
  const HOP_MAX: int := 438
  const INTENT_BUFFER: int := 1024
  const INTENT_MAX: int := 464

  lemma {:induction false} HopLength(hopDigest: Hop -> Digest, i: nat, hop: Hop, rest: string)
    requires i < MAX_ROUTE_HOPS
    ensures |HopText(hopDigest, i, hop, rest)| <= HOP_MAX + |rest|
  {
    NumberLengths(hop.amountHint, hop.weightBps);
    NumberLengths(hop.amountHint, hop.priority);
    DecimalLength(i, 1);
  }

  lemma {:induction false} HopsLength(hopDigest: Hop -> Digest, hops: seq<Hop>, i: nat, rest: string)
    requires i <= |hops| <= MAX_ROUTE_HOPS
    ensures |HopsText(hopDigest, hops, i, rest)| <= HOP_MAX * (|hops| - i) + |rest|
    decreases |hops| - i
  {
    hide HopText;
    if i < |hops| {
      HopsLength(hopDigest, hops, i + 1, rest);
      HopLength(hopDigest, i, hops[i], HopsText(hopDigest, hops, i + 1, rest));
    }
  }

  /** The canonical text of a plan of at most eight hops always fits its 4096-character buffer. */
  lemma {:induction false} PlanLength(hopDigest: Hop -> Digest, plan: Plan)
    requires |plan.hops| <= MAX_ROUTE_HOPS
    ensures |PlanText(hopDigest, plan)| <= PLAN_MAX < PLAN_BUFFER
  {
    NumberLengths(plan.minNet, plan.maxFeeBps);
    NumberLengths(plan.quoteEpoch, plan.maxFeeBps);
    NumberLengths(plan.settleAfter, plan.maxFeeBps);
    DecimalLength(|plan.hops|, 1);
    hide HopsText;
    HopsLength(hopDigest, plan.hops, 0, "}");
  }

  /** An authorization payload always fits its 1024-character buffer. */
  lemma {:induction false} IntentLength(terms: Terms, planDigest: Digest)
    ensures |IntentText(terms, planDigest)| <= INTENT_MAX < INTENT_BUFFER
  {
    NumberLengths(terms.gross, terms.networkId);
    NumberLengths(terms.payerNonce, terms.networkId);
    NumberLengths(terms.deadline, terms.networkId);
  }
}
