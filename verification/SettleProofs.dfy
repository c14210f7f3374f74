/** Settlement from a valid ledger: all or nothing, and exactly when. */
module SettleProofs {
  import opened Amounts
  import opened Digests
  import opened Sums
  import opened Routes
  import opened LedgerTypes
  import opened LedgerSteps
  import opened LedgerInvariant
  import opened ClosingProofs

  // ---------- From an accepted quote to a committed settlement ----------

  lemma {:induction false} PriceSplitsGross(lane: Lane, gross: Amount, maxFeeBps: U32, minNet: Amount,
                                            premium: Result<Amount>)
    requires PriceOn(lane, gross, maxFeeBps, minNet, premium).Success?
    ensures var q := PriceOn(lane, gross, maxFeeBps, minNet, premium).value;
            && q.lane == lane.id && q.beneficiary == lane.terminalAccount && q.gross == gross
            && q.net + q.operatorFee + q.reserveFee == gross && minNet <= q.net
  {
  }

  lemma {:induction false} QuoteIsSound(s: State, reservation: Reservation, compacted: CompactedPlan)
    requires QuoteSettlement(s, reservation, compacted).Success?
    ensures var q := QuoteSettlement(s, reservation, compacted).value;
            && LaneAt(s.lanes, q.lane).Some? && q.lane == reservation.plan.settlementLane
            && s.lanes[LaneAt(s.lanes, q.lane).value].assetId == reservation.assetId
            && AccountAt(s.accounts, q.beneficiary).Some? && q.beneficiary == reservation.plan.beneficiary
            && q.gross == reservation.gross && reservation.plan.minNet <= q.net
            && q.net + q.operatorFee + q.reserveFee == reservation.gross
  {
    var lane := s.lanes[LaneAt(s.lanes, compacted.effectiveLane).value];
    PriceSplitsGross(lane, reservation.gross, reservation.plan.maxFeeBps, reservation.plan.minNet,
                     Premium(s, lane, compacted.plan.hops));
  }

  /** The receipt a settlement at this epoch would leave. */
  function ReceiptFor(h: Hashes, s: State, id: Digest, epoch: Amount): Receipt
    requires SettlementQuote(h, s, id, epoch).Success?
  {
    var reservation := s.reservations[ReservationAt(s.reservations, id).value];
    NewReceipt(h, reservation, Compact(h.plan, reservation.plan).value, SettlementQuote(h, s, id, epoch).value, epoch)
  }

  lemma {:induction false} ReservedIsOpen(s: State, r: nat)
    requires ReservationsOk(s) && r < |s.reservations| && s.reservations[r].state == Reserved
    ensures Open(s, r)
  {
    assert ReservationOk(s, s.reservations[r]);
  }

  lemma {:induction false} QuoteMakesReceipt(h: Hashes, s: State, r: nat, epoch: Amount)
    requires Open(s, r) && QuoteFor(h, s, s.reservations[r]).Success?
    requires s.reservations[r].plan.settleAfter <= epoch <= s.reservations[r].deadline
    ensures var reservation, quote := s.reservations[r], QuoteFor(h, s, s.reservations[r]).value;
            && QuoteOk(s, r, quote)
            && Records(NewReceipt(h, reservation, Compact(h.plan, reservation.plan).value, quote, epoch),
                       reservation.(state := Settled))
  {
    QuoteIsSound(s, s.reservations[r], Compact(h.plan, s.reservations[r].plan).value);
  }

  lemma {:induction false} AcceptedQuote(h: Hashes, s: State, id: Digest, epoch: Amount)
    requires ReservationsOk(s) && SettlementQuote(h, s, id, epoch).Success?
    ensures var r, quote := ReservationAt(s.reservations, id).value, SettlementQuote(h, s, id, epoch).value;
            && Open(s, r) && QuoteOk(s, r, quote)
            && Records(ReceiptFor(h, s, id, epoch), s.reservations[r].(state := Settled))
  {
    var r := ReservationAt(s.reservations, id).value;
    ReservedIsOpen(s, r);
    QuoteMakesReceipt(h, s, r, epoch);
  }

  lemma SettleUnfolds(h: Hashes, s: State, id: Digest, epoch: Amount)
    requires SettlementQuote(h, s, id, epoch).Success?
    ensures Settle(h, s, id, epoch)
         == SettleQuoted(s, ReservationAt(s.reservations, id).value, SettlementQuote(h, s, id, epoch).value,
                         ReceiptFor(h, s, id, epoch))
  {
    hide SettlementQuote;
  }

  /** Settlement is all or nothing: a refused quote leaves the ledger as it was; an accepted one commits every posting,
      and then only a full journal can keep the call from reporting success. */
  lemma {:induction false} SettleAllOrNothing(h: Hashes, s: State, id: Digest, epoch: Amount)
    requires Inv(s)
    ensures var o, accepted := Settle(h, s, id, epoch), SettlementQuote(h, s, id, epoch);
            && Inv(o.after)
            && match accepted
               case Failure(error) => o == Posted(error, s)
               case Success(quote) =>
                 var r := ReservationAt(s.reservations, id).value;
                 && Open(s, r) && QuoteOk(s, r, quote)
                 && Settles(s, o.after, r, quote, ReceiptFor(h, s, id, epoch))
                 && o.status == JournalStatus(s)
  {
    if SettlementQuote(h, s, id, epoch).Success? {
      var r, quote := ReservationAt(s.reservations, id).value, SettlementQuote(h, s, id, epoch).value;
      AcceptedQuote(h, s, id, epoch);
      SettleQuotedCommits(s, r, quote, ReceiptFor(h, s, id, epoch));
    }
  }

  /** With room in the journal, a settlement that does not report success has changed nothing. */
  lemma {:induction false} FailedSettleChangesNothing(h: Hashes, s: State, id: Digest, epoch: Amount)
    requires Inv(s) && |s.journal| < MAX_JOURNAL && Settle(h, s, id, epoch).status != Ok
    ensures Settle(h, s, id, epoch).after == s
  {
    SettleAllOrNothing(h, s, id, epoch);
  }

  // ---------- Exactly when ----------

  /** An open reservation leaves room for its receipt. */
  lemma {:induction false} ReceiptHasRoom(reservations: seq<Reservation>, receipts: seq<Receipt>, r: nat)
    requires ReceiptsOk(reservations, receipts) && |reservations| <= MAX_RESERVATIONS
    requires r < |reservations| && reservations[r].state == Reserved
    ensures |receipts| < MAX_RECEIPTS
  {
    var settled := reservations[r := reservations[r].(state := Settled)];
    SumUpdate(reservations, r, settled[r], IsSettled());
    SumBounded(settled, IsSettled(), 1);
  }

  /** Fees at two rates never exceed the fee at a ceiling above their sum, nor, below 100 %, the amount itself. */
  lemma {:induction false} FeesUnderCeiling(gross: Amount, a: U32, b: U32, ceiling: int)
    requires a + b <= ceiling
    ensures 0 <= gross * a && 0 <= gross * b && 0 <= gross * ceiling
    ensures Floor(gross * a, BPS) + Floor(gross * b, BPS) <= Floor(gross * ceiling, BPS)
    ensures a + b <= BPS ==> Floor(gross * a, BPS) + Floor(gross * b, BPS) <= gross
  {
    FloorSuperadditive(gross * a, gross * b, BPS);
    assert gross * a + gross * b == gross * (a + b);
    MulMonotone(a + b, ceiling, gross);
    FloorMonotone(gross * (a + b), gross * ceiling, BPS);
    if a + b <= BPS {
      MulMonotone(a + b, BPS, gross);
      FloorMonotone(gross * (a + b), gross * BPS, BPS);
      FloorUnique(gross * BPS, BPS, gross);
    }
  }

  /** Net amount on a lane without premium. */
  function PlainNet(lane: Lane, gross: Amount): int {
    ProductsNonNegative(gross, lane.operatorFeeBps);
    ProductsNonNegative(gross, lane.reserveBps);
    gross - Floor(gross * lane.operatorFeeBps, BPS) - Floor(gross * lane.reserveBps, BPS)
  }

  lemma ProductsNonNegative(x: nat, y: nat)
    ensures 0 <= x * y
  {
  }

  predicate CeilingFits(gross: Amount, maxFeeBps: U32) {
    maxFeeBps <= MAX_BPS && gross * maxFeeBps <= U64_MAX
  }

  /** On a lane without premium, whose rates the ceiling covers, only the ceiling's own size and the minimum net can
      refuse a price. */
  lemma {:induction false} PlainPrice(lane: Lane, gross: Amount, maxFeeBps: U32, minNet: Amount)
    requires lane.operatorFeeBps + lane.reserveBps <= BPS
    requires lane.operatorFeeBps + lane.reserveBps <= maxFeeBps
    ensures var q := PriceOn(lane, gross, maxFeeBps, minNet, Success(0));
            && (q.Success? <==> CeilingFits(gross, maxFeeBps) && minNet <= PlainNet(lane, gross))
            && (q.Success? ==> q.value.net == PlainNet(lane, gross))
            && (q.Failure? ==> q.error == ErrPolicy)
  {
    FeesUnderCeiling(gross, lane.operatorFeeBps, lane.reserveBps, maxFeeBps);
    if CeilingFits(gross, maxFeeBps) {
      MulMonotone(lane.operatorFeeBps, maxFeeBps, gross);
      MulMonotone(lane.reserveBps, maxFeeBps, gross);
      assert MulBps(gross, lane.operatorFeeBps).Success? && MulBps(gross, lane.reserveBps).Success?;
    }
  }

  lemma {:induction false} RouteCompacts(h: Hashes, s: State, r: nat)
    requires r < |s.reservations| && ReservationOk(s, s.reservations[r])
    ensures var plan := s.reservations[r].plan;
            && |plan.hops| > 0 && Compact(h.plan, plan).Success?
            && Compact(h.plan, plan).value.effectiveLane == Last(plan.hops).lane
            && Compact(h.plan, plan).value.effectiveBeneficiary == plan.beneficiary
  {
    MergedCounts(s.reservations[r].plan.hops);
  }

  /** The lane the reservation's plan names exists and charges no premium. */
  predicate Plain(s: State, reservation: Reservation) {
    var l := LaneAt(s.lanes, reservation.plan.settlementLane);
    l.Some? && s.lanes[l.value].laneClass != Recovery
  }

  function NetOf(s: State, reservation: Reservation): int
    requires Plain(s, reservation)
  {
    PlainNet(s.lanes[LaneAt(s.lanes, reservation.plan.settlementLane).value], reservation.gross)
  }

  /** What a caller can read off a plain reservation before asking for a quote. */
  predicate Quotable(s: State, reservation: Reservation)
    requires Plain(s, reservation)
  {
    && |reservation.plan.hops| > 0
    && Last(reservation.plan.hops).lane == reservation.plan.settlementLane
    && CeilingFits(reservation.gross, reservation.plan.maxFeeBps)
    && reservation.plan.minNet <= NetOf(s, reservation)
  }

  lemma {:induction false} PlainQuote(s: State, reservation: Reservation, compacted: CompactedPlan)
    requires LanesOk(s) && ReservationOk(s, reservation) && Plain(s, reservation)
    requires compacted.effectiveLane == Last(reservation.plan.hops).lane
    requires compacted.effectiveBeneficiary == reservation.plan.beneficiary
    ensures var q := QuoteSettlement(s, reservation, compacted);
            && (q.Success? <==> Quotable(s, reservation))
            && (q.Success? ==> q.value.net == NetOf(s, reservation))
  {
    var lane := s.lanes[LaneAt(s.lanes, reservation.plan.settlementLane).value];
    assert LaneOk(s, lane);
    hide LanesOk, HopsOk, PriceOn, PlainNet, CeilingFits;
    PlainPrice(lane, reservation.gross, reservation.plan.maxFeeBps, reservation.plan.minNet);
  }

  predicate InWindow(reservation: Reservation, epoch: Amount) {
    reservation.plan.settleAfter <= epoch <= reservation.deadline
  }

  lemma {:induction false} QuoteOfOpen(s: State, r: nat, epoch: Amount)
    requires Inv(s) && Open(s, r)
    ensures var reservation := s.reservations[r];
            && ReservationAt(s.reservations, reservation.id) == Some(r)
            && (SettleGuard(s, reservation.id, epoch) == Ok <==> InWindow(reservation, epoch))
  {
    ReservationFound(s.reservations, r);
    ReceiptHasRoom(s.reservations, s.receipts, r);
  }

  /** On lanes without premium an open reservation is priced exactly when the epoch is in its window, its last hop runs
      on the settlement lane, the fee ceiling can be computed and the net amount meets the minimum. The ceiling itself,
      and the subtraction of the fees, can never refuse. */
  lemma {:induction false} QuotedIff(h: Hashes, s: State, r: nat, epoch: Amount)
    requires Inv(s) && Open(s, r) && Plain(s, s.reservations[r])
    ensures var reservation := s.reservations[r];
            var q := SettlementQuote(h, s, reservation.id, epoch);
            && (q.Success? <==> InWindow(reservation, epoch) && Quotable(s, reservation))
            && (q.Success? ==> q.value.net == NetOf(s, reservation))
  {
    var reservation := s.reservations[r];
    QuoteOfOpen(s, r, epoch);
    assert ReservationOk(s, reservation);
    RouteCompacts(h, s, r);
    assert QuoteFor(h, s, reservation) == QuoteSettlement(s, reservation, Compact(h.plan, reservation.plan).value);
    PlainQuote(s, reservation, Compact(h.plan, reservation.plan).value);
  }

  /** With room in the journal, the same conditions decide whether settlement succeeds. */
  lemma {:induction false} SettleableIff(h: Hashes, s: State, r: nat, epoch: Amount)
    requires Inv(s) && Open(s, r) && Plain(s, s.reservations[r]) && |s.journal| < MAX_JOURNAL
    ensures Settle(h, s, s.reservations[r].id, epoch).status == Ok
       <==> InWindow(s.reservations[r], epoch) && Quotable(s, s.reservations[r])
  {
    QuotedIff(h, s, r, epoch);
    SettleAllOrNothing(h, s, s.reservations[r].id, epoch);
    QuoteErrors(h, s, s.reservations[r].id, epoch);
  }

  lemma {:induction false} QuoteErrors(h: Hashes, s: State, id: Digest, epoch: Amount)
    ensures var q := SettlementQuote(h, s, id, epoch); q.Failure? ==> q.error != Ok
  {
    hide QuoteSettlement, Compact;
    if SettleGuard(s, id, epoch) == Ok {
      var reservation := s.reservations[ReservationAt(s.reservations, id).value];
      if Compact(h.plan, reservation.plan).Success? {
        OfferErrors(s, reservation, Compact(h.plan, reservation.plan).value);
      }
      CompactErrors(h, reservation.plan);
    }
  }

  lemma CompactErrors(h: Hashes, plan: Plan)
    ensures Compact(h.plan, plan).Failure? ==> Compact(h.plan, plan).error != Ok
  {
  }

  lemma OfferErrors(s: State, reservation: Reservation, compacted: CompactedPlan)
    ensures var q := QuoteSettlement(s, reservation, compacted); q.Failure? ==> q.error != Ok
  {
  }

  // ---------- The published lane economics ----------

  datatype Economics = Economics(operatorFee: Amount, reserveFee: Amount, net: Amount, feeBpsTotal: U32)

  /** What the ledger publishes for a lane and amount. The bps total is a 32-bit sum. */
  function LaneEconomics(lanes: seq<Lane>, laneId: Digest, gross: Amount): Result<Economics> {
    match LaneAt(lanes, laneId)
    case None => Failure(ErrNotFound)
    case Some(l) =>
      var lane := lanes[l];
      if !lane.active then Failure(ErrNotFound)
      else
        var operatorFee :- MulBps(gross, lane.operatorFeeBps);
        var reserveFee :- MulBps(gross, lane.reserveBps);
        var total :- Add(operatorFee, reserveFee);
        var net :- Sub(gross, total);
        Success(Economics(operatorFee, reserveFee, net, (lane.operatorFeeBps + lane.reserveBps) % U32_SIZE))
  }

  /** Whether the two fees of an amount can be computed on the lane with this id. */
  predicate Priced(lanes: seq<Lane>, laneId: Digest, gross: Amount) {
    var l := LaneAt(lanes, laneId);
    l.Some? && gross * lanes[l.value].operatorFeeBps <= U64_MAX && gross * lanes[l.value].reserveBps <= U64_MAX
  }

  /** The published parts always make up the amount; over sound lanes nothing but the size of the two products can
      refuse: the fees never exceed the amount. */
  lemma {:induction false} EconomicsSplitGross(s: State, laneId: Digest, gross: Amount)
    ensures var r := LaneEconomics(s.lanes, laneId, gross);
            && (r.Success? ==> r.value.net + r.value.operatorFee + r.value.reserveFee == gross)
            && (LanesOk(s) ==> (r.Success? <==> Priced(s.lanes, laneId, gross)))
  {
    var l := LaneAt(s.lanes, laneId);
    if LanesOk(s) && l.Some? {
      var lane := s.lanes[l.value];
      assert LaneOk(s, lane);
      if Priced(s.lanes, laneId, gross) {
        RatesWithinWhole(lane, gross);
      }
    }
  }

  lemma {:induction false} RatesWithinWhole(lane: Lane, gross: Amount)
    requires lane.operatorFeeBps + lane.reserveBps <= BPS
    requires MulBps(gross, lane.operatorFeeBps).Success? && MulBps(gross, lane.reserveBps).Success?
    ensures MulBps(gross, lane.operatorFeeBps).value + MulBps(gross, lane.reserveBps).value <= gross
  {
    FeesUnderCeiling(gross, lane.operatorFeeBps, lane.reserveBps, BPS);
  }

  /** A settlement on a lane without premium charges exactly the published fees. */
  lemma {:induction false} SettlesAsPublished(h: Hashes, s: State, r: nat, epoch: Amount)
    requires Inv(s) && Open(s, r) && Plain(s, s.reservations[r])
    requires SettlementQuote(h, s, s.reservations[r].id, epoch).Success?
    ensures var quote := SettlementQuote(h, s, s.reservations[r].id, epoch).value;
            var published := LaneEconomics(s.lanes, quote.lane, quote.gross);
            && published.Success?
            && quote.operatorFee == published.value.operatorFee
            && quote.reserveFee == published.value.reserveFee
            && quote.net == published.value.net
  {
    hide Inv, QuoteSettlement, LaneEconomics, Plain;
    QuoteOfOpen(s, r, epoch);
    QuotePublished(s, s.reservations[r], Compact(h.plan, s.reservations[r].plan).value);
  }

  lemma {:induction false} QuotePublished(s: State, reservation: Reservation, compacted: CompactedPlan)
    requires Plain(s, reservation) && QuoteSettlement(s, reservation, compacted).Success?
    ensures var quote := QuoteSettlement(s, reservation, compacted).value;
            var published := LaneEconomics(s.lanes, quote.lane, quote.gross);
            && published.Success?
            && quote.operatorFee == published.value.operatorFee
            && quote.reserveFee == published.value.reserveFee
            && quote.net == published.value.net
  {
    QuoteIsSound(s, reservation, compacted);
  }
}
