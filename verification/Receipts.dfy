/** What receipts and reservations say about where they come from: every digest, fee and amount of a receipt as figures
    of the reservation it settles, and over every run the links from receipts to reservations to plans. */
module Receipts {
  import opened Amounts
  import opened Digests
  import opened Routes
  import opened LedgerTypes
  import opened LedgerSteps
  import opened LedgerInvariant
  import opened SettleProofs
  import opened Runs
  import opened SoundBooks
  import opened Accounting
  import opened Verdicts
  import opened Prices

  // ---------- One receipt ----------

  /** The plan as compaction leaves it, for a cut of its route into runs. */
  function CompactedBy(plan: Plan, runs: seq<Run>): Plan
    requires |plan.hops| > 0
  {
    plan.(hops := CollapseAll(runs), settlementLane := Last(plan.hops).lane)
  }

  /** The receipt's id is the hash of everything else in it. */
  predicate Sealed(h: Hashes, receipt: Receipt) {
    receipt.id == h.receipt(receipt.(id := ZERO_DIGEST))
  }

  /** Every field of the receipt for settling this reservation at this epoch. */
  ghost predicate Describes(h: Hashes, s: State, reservation: Reservation, epoch: Amount, receipt: Receipt) {
    var plan, gross := reservation.plan, reservation.gross;
    && LaneAt(s.lanes, plan.settlementLane).Some? && |plan.hops| > 0
    && Sealed(h, receipt)
    && receipt.reservationId == reservation.id
    && receipt.lane == plan.settlementLane && receipt.beneficiary == plan.beneficiary
    && (forall runs | MaximalRuns(runs, plan.hops) :: receipt.routeDigest == h.plan(CompactedBy(plan, runs)))
    && receipt.gross == gross
    && receipt.operatorFee == OperatorFee(LaneOf(s, plan), gross)
    && receipt.reserveFee == ReserveFee(s, LaneOf(s, plan), gross, Merged(plan.hops))
    && receipt.net + receipt.operatorFee + receipt.reserveFee == gross
    && receipt.epoch == epoch
  }

  lemma {:induction false} DigestAfter(h: Hashes, plan: Plan, runs: seq<Run>)
    requires 0 < |plan.hops| <= MAX_ROUTE_HOPS && MaximalRuns(runs, plan.hops)
    ensures Compact(h.plan, plan).Success?
    ensures Compact(h.plan, plan).value.digestAfter == h.plan(CompactedBy(plan, runs))
  {
    MaximalRunsUnique(runs, plan.hops);
    MergedCounts(plan.hops);
  }

  /** The receipt repeats its quote, with the digest of the compacted plan. */
  lemma ReceiptFields(h: Hashes, s: State, r: nat, epoch: Amount)
    requires r < |s.reservations| && ReservationAt(s.reservations, s.reservations[r].id) == Some(r)
    requires SettlementQuote(h, s, s.reservations[r].id, epoch).Success?
    ensures var reservation := s.reservations[r];
            var quote := SettlementQuote(h, s, reservation.id, epoch).value;
            var receipt := ReceiptFor(h, s, reservation.id, epoch);
            && Sealed(h, receipt)
            && receipt.reservationId == reservation.id && receipt.epoch == epoch
            && receipt.lane == quote.lane && receipt.beneficiary == quote.beneficiary && receipt.gross == quote.gross
            && receipt.net == quote.net && receipt.operatorFee == quote.operatorFee
            && receipt.reserveFee == quote.reserveFee
            && receipt.routeDigest == Compact(h.plan, reservation.plan).value.digestAfter
  {
    hide SettlementQuote, Compact, ReservationAt;
  }

  lemma {:induction false} DigestForEveryCut(h: Hashes, plan: Plan)
    requires 0 < |plan.hops| <= MAX_ROUTE_HOPS
    ensures Compact(h.plan, plan).Success?
    ensures forall runs | MaximalRuns(runs, plan.hops) ::
              Compact(h.plan, plan).value.digestAfter == h.plan(CompactedBy(plan, runs))
  {
    hide Compact, MaximalRuns;
    RunsAreMaximal(plan.hops);
    DigestAfter(h, plan, Routes.Runs(plan.hops));
    forall runs | MaximalRuns(runs, plan.hops)
      ensures Compact(h.plan, plan).value.digestAfter == h.plan(CompactedBy(plan, runs))
    {
      DigestAfter(h, plan, runs);
    }
  }

  /** A quote's figures and the digest of the compacted plan make a receipt that describes the settlement. */
  lemma MakeDescription(h: Hashes, s: State, reservation: Reservation, epoch: Amount, receipt: Receipt, quote: Quote)
    requires QuotedAs(s, reservation, quote) && |reservation.plan.hops| > 0
    requires && Sealed(h, receipt)
             && receipt.reservationId == reservation.id && receipt.epoch == epoch
             && receipt.lane == quote.lane && receipt.beneficiary == quote.beneficiary && receipt.gross == quote.gross
             && receipt.net == quote.net && receipt.operatorFee == quote.operatorFee
             && receipt.reserveFee == quote.reserveFee
    requires forall runs | MaximalRuns(runs, reservation.plan.hops) ::
               receipt.routeDigest == h.plan(CompactedBy(reservation.plan, runs))
    ensures Describes(h, s, reservation, epoch, receipt)
  {
    hide Sealed, MaximalRuns, OperatorFee, ReserveFee, Merged, LaneAt;
  }

  lemma {:induction false} ReceiptIs(h: Hashes, s: State, r: nat, epoch: Amount)
    requires ReservationsOk(s) && r < |s.reservations|
    requires SettlementQuote(h, s, s.reservations[r].id, epoch).Success?
    ensures Describes(h, s, s.reservations[r], epoch, ReceiptFor(h, s, s.reservations[r].id, epoch))
  {
    var reservation := s.reservations[r];
    ReservationIsOk(s, r);
    ReservationFound(s.reservations, r);
    HopsAreFew(s, reservation);
    hide *;
    QuoteAnswer(h, s, r, epoch);
    ReceiptFields(h, s, r, epoch);
    DigestForEveryCut(h, reservation.plan);
    MakeDescription(h, s, reservation, epoch, ReceiptFor(h, s, reservation.id, epoch),
                    SettlementQuote(h, s, reservation.id, epoch).value);
  }

  lemma HopsAreFew(s: State, reservation: Reservation)
    requires ReservationOk(s, reservation)
    ensures 0 < |reservation.plan.hops| <= MAX_ROUTE_HOPS
  {
  }

  lemma QuotedAppends(s: State, r: nat, quote: Quote, receipt: Receipt)
    requires r < |s.reservations|
    ensures var t := SettleQuoted(s, r, quote, receipt).after;
            || (t.receipts == s.receipts && t.reservations == s.reservations)
            || (&& t.receipts == s.receipts + [receipt]
                && t.reservations == s.reservations[r := s.reservations[r].(state := Settled)])
  {
    hide UpdateRoutePending, Credit, CreditVault, LaneAt, ConservationOk;
  }

  /** A settlement that leaves a receipt leaves exactly this one, and every check of the quote has passed. */
  lemma {:induction false} SettledReceipt(h: Hashes, s: State, r: nat, epoch: Amount)
    requires ReservationsOk(s) && r < |s.reservations|
    requires Settle(h, s, s.reservations[r].id, epoch).after.receipts != s.receipts
    ensures var t := Settle(h, s, s.reservations[r].id, epoch).after;
            && AllPass(QuoteChecks(s, r, epoch))
            && |t.receipts| == |s.receipts| + 1 && s.receipts <= t.receipts
            && Describes(h, s, s.reservations[r], epoch, Last(t.receipts))
            && t.reservations == s.reservations[r := s.reservations[r].(state := Settled)]
  {
    var id := s.reservations[r].id;
    ReservationIsOk(s, r);
    ReservationFound(s.reservations, r);
    QuoteAnswer(h, s, r, epoch);
    hide ReservationsOk, ReservationOk, SettlementQuote, Describes, QuoteChecks, ReservationAt, SettleQuoted;
    if SettlementQuote(h, s, id, epoch).Success? {
      ReceiptIs(h, s, r, epoch);
      SettleUnfolds(h, s, id, epoch);
      QuotedAppends(s, r, SettlementQuote(h, s, id, epoch).value, ReceiptFor(h, s, id, epoch));
    }
  }

  // ---------- Over runs ----------

  /** A reservation is filed under its intent and the digest of its plan. */
  predicate Registered(h: Hashes, reservation: Reservation) {
    && reservation.routeDigest == h.plan(reservation.plan)
    && reservation.id == h.reservation(reservation.intentId, reservation.routeDigest)
  }

  /** The receipt settles this reservation, over this reservation's own compacted route. */
  ghost predicate Certifies(h: Hashes, receipt: Receipt, reservation: Reservation) {
    && reservation.id == receipt.reservationId && reservation.state == Settled && |reservation.plan.hops| > 0
    && forall runs | MaximalRuns(runs, reservation.plan.hops) ::
         receipt.routeDigest == h.plan(CompactedBy(reservation.plan, runs))
  }

  ghost predicate Founded(h: Hashes, reservations: seq<Reservation>, receipt: Receipt) {
    && Sealed(h, receipt)
    && exists r | 0 <= r < |reservations| :: Certifies(h, receipt, reservations[r])
  }

  ghost predicate Provenance(h: Hashes, s: State) {
    && (forall r | 0 <= r < |s.reservations| :: Registered(h, s.reservations[r]))
    && (forall i | 0 <= i < |s.receipts| :: Founded(h, s.reservations, s.receipts[i]))
  }

  /** What a call can do to the two logs, seen from here. */
  predicate FilesNew(h: Hashes, s: State, t: State) {
    && ReservationsProgress(s.reservations, t.reservations)
    && forall r | |s.reservations| <= r < |t.reservations| :: Registered(h, t.reservations[r])
  }

  lemma {:induction false} FoundedStays(h: Hashes, a: seq<Reservation>, b: seq<Reservation>, receipt: Receipt)
    requires ReservationsProgress(a, b) && Founded(h, a, receipt)
    ensures Founded(h, b, receipt)
  {
    hide MaximalRuns;
    var r :| 0 <= r < |a| && Certifies(h, receipt, a[r]);
    assert Progresses(a[r], b[r]);
    assert Certifies(h, receipt, b[r]);
  }

  lemma {:induction false} FilingKeepsProvenance(h: Hashes, s: State, t: State)
    requires Provenance(h, s) && FilesNew(h, s, t)
    requires s.receipts <= t.receipts
    requires forall i | |s.receipts| <= i < |t.receipts| :: Founded(h, t.reservations, t.receipts[i])
    ensures Provenance(h, t)
  {
    hide Founded;
    forall r | 0 <= r < |t.reservations|
      ensures Registered(h, t.reservations[r])
    {
      assert r < |s.reservations| ==> Progresses(s.reservations[r], t.reservations[r]);
    }
    forall i | 0 <= i < |t.receipts|
      ensures Founded(h, t.reservations, t.receipts[i])
    {
      if i < |s.receipts| {
        FoundedStays(h, s.reservations, t.reservations, s.receipts[i]);
      }
    }
  }

  lemma {:induction false} ReserveFiles(h: Hashes, s: State, signed: SignedIntent)
    ensures var t := Reserve(h, s, signed).after; FilesNew(h, s, t) && t.receipts == s.receipts
  {
    hide AdmissionStatus, UpdateRoutePending, Debit, ConservationOk, AccountAt, ReservationAt;
  }

  lemma {:induction false} CancelFiles(h: Hashes, s: State, id: Digest, epoch: Amount)
    ensures var t := Cancel(s, id, epoch).after; FilesNew(h, s, t) && t.receipts == s.receipts
  {
    hide UpdateRoutePending, Credit, ConservationOk, ReservationAt;
  }

  lemma {:induction false} SettleFiles(h: Hashes, s: State, id: Digest, epoch: Amount)
    requires ReservationsOk(s)
    ensures var t := Settle(h, s, id, epoch).after;
            && FilesNew(h, s, t) && s.receipts <= t.receipts
            && forall i | |s.receipts| <= i < |t.receipts| :: Founded(h, t.reservations, t.receipts[i])
  {
    var q, t := SettlementQuote(h, s, id, epoch), Settle(h, s, id, epoch).after;
    hide ReservationsOk, SettlementQuote, SettleQuoted, QuoteChecks, Describes, ReservationAt;
    if q.Success? {
      var r := ReservationAt(s.reservations, id).value;
      SettleUnfolds(h, s, id, epoch);
      QuotedAppends(s, r, q.value, ReceiptFor(h, s, id, epoch));
      QuotedIsReserved(h, s, r, id, epoch);
      if t.receipts != s.receipts {
        SettledReceipt(h, s, r, epoch);
        DescribesCertifies(h, s, r, epoch, t);
      }
    }
  }

  lemma QuotedIsReserved(h: Hashes, s: State, r: nat, id: Digest, epoch: Amount)
    requires SettlementQuote(h, s, id, epoch).Success? && ReservationAt(s.reservations, id) == Some(r)
    ensures r < |s.reservations| && s.reservations[r].id == id && s.reservations[r].state == Reserved
  {
    hide QuoteFor;
  }

  lemma {:induction false} DescribesCertifies(h: Hashes, s: State, r: nat, epoch: Amount, t: State)
    requires r < |s.reservations|
    requires |t.receipts| > 0 && Describes(h, s, s.reservations[r], epoch, Last(t.receipts))
    requires t.reservations == s.reservations[r := s.reservations[r].(state := Settled)]
    ensures Founded(h, t.reservations, Last(t.receipts))
  {
    hide MaximalRuns;
    assert Certifies(h, Last(t.receipts), t.reservations[r]);
  }

  lemma {:induction false} OthersFile(h: Hashes, s: State, c: Command)
    requires !c.CReserve? && !c.CSettle? && !c.CCancel?
    ensures var t := Step(h, s, c).after; FilesNew(h, s, t) && t.receipts == s.receipts
  {
    hide AssetAt, AccountAt, VaultAt, LaneAt, Credit;
  }

  lemma {:induction false} StepProvenance(h: Hashes, s: State, c: Command)
    requires ReservationsOk(s) && Provenance(h, s)
    ensures Provenance(h, Step(h, s, c).after)
  {
    hide *;
    StepDispatch(h, s, c);
    if c.CReserve? {
      ReserveFiles(h, s, c.signed);
    } else if c.CSettle? {
      SettleFiles(h, s, c.settleId, c.settleEpoch);
    } else if c.CCancel? {
      CancelFiles(h, s, c.cancelId, c.cancelEpoch);
    } else {
      OthersFile(h, s, c);
    }
    FilingKeepsProvenance(h, s, Step(h, s, c).after);
  }

  /** Over every run whatsoever: each reservation is filed under its intent and plan; each receipt is sealed, settles a
      reservation of the ledger, and carries the digest of that reservation's compacted plan. */
  lemma {:induction false} RunProvenance(h: Hashes, networkId: U32, commands: seq<Command>)
    ensures Provenance(h, RunFrom(h, Init(networkId), commands))
  {
    hide Step, Provenance, Sound;
    if |commands| == 0 {
      NothingFiled(h, networkId);
    } else {
      var front := commands[..|commands| - 1];
      RunProvenance(h, networkId, front);
      RunSound(h, networkId, front);
      SoundParts(RunFrom(h, Init(networkId), front));
      StepProvenance(h, RunFrom(h, Init(networkId), front), Last(commands));
    }
  }

  lemma NothingFiled(h: Hashes, networkId: U32)
    ensures Provenance(h, Init(networkId))
  {
  }
}
