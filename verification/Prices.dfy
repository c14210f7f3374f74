/** What a settlement costs, on every class of lane: the fees and the net amount of a quote as figures of the lane, the
    plan and the vaults, and exactly when there is a quote. */
module Prices {
  import opened Amounts
  import opened Digests
  import opened Sums
  import opened Routes
  import opened LedgerTypes
  import opened LedgerSteps
  import opened LedgerInvariant
  import opened Exposure
  import opened Premiums
  import opened SettleProofs
  import opened Verdicts

  // ---------- The figures ----------

  /** The floored share of an amount at a rate. */
  function Fee(amount: Amount, bps: U32): nat {
    ProductsNonNegative(amount, bps);
    Floor(amount * bps, BPS)
  }

  /** The vault a hop leaves is known, holds the hop's amount and is not empty, and the weight is in range. */
  predicate Tollable(vaults: seq<Vault>, hop: Hop) {
    && VaultAt(vaults, hop.fromVault).Some?
    && var balance := vaults[VaultAt(vaults, hop.fromVault).value].balance;
    && 0 < balance && hop.amountHint <= balance
    && hop.weightBps <= BPS && hop.amountHint * hop.weightBps <= U64_MAX
  }

  predicate AllTollable(vaults: seq<Vault>, hops: seq<Hop>) {
    forall i {:trigger Tollable(vaults, hops[i])} | 0 <= i < |hops| :: Tollable(vaults, hops[i])
  }

  /** What a hop adds to the premium: its weighted amount, at the share of the vault that it uses. */
  function Toll(vaults: seq<Vault>): Hop -> nat {
    (hop: Hop) => if Tollable(vaults, hop)
      then Charge(hop.amountHint, hop.weightBps, vaults[VaultAt(vaults, hop.fromVault).value].balance)
      else 0
  }

  /** The premium for a compacted route: only recovery lanes ask for one. */
  function Tolls(s: State, lane: Lane, hops: seq<Hop>): nat {
    if lane.laneClass == Recovery then Sum(hops, Toll(s.vaults)) else 0
  }

  function OperatorFee(lane: Lane, gross: Amount): nat {
    Fee(gross, lane.operatorFeeBps)
  }

  function ReserveFee(s: State, lane: Lane, gross: Amount, hops: seq<Hop>): nat {
    Fee(gross, lane.reserveBps) + Tolls(s, lane, hops)
  }

  /** The fees stay under the ceiling and the amount, and the rest meets the minimum. */
  predicate Affordable(s: State, lane: Lane, gross: Amount, maxFeeBps: U32, minNet: Amount, hops: seq<Hop>) {
    var fees: int := OperatorFee(lane, gross) + ReserveFee(s, lane, gross, hops);
    && (lane.laneClass == Recovery ==> AllTollable(s.vaults, hops))
    && CeilingFits(gross, maxFeeBps)
    && fees <= Fee(gross, maxFeeBps)
    && fees + minNet <= gross
  }

  // ---------- One price ----------

  lemma {:induction false} TollIsCharge(vaults: seq<Vault>, hop: Hop)
    ensures Tollable(vaults, hop) <==> HopCharge(vaults, hop).Success?
    ensures Toll(vaults)(hop) == ChargeOf(vaults)(hop)
  {
    PricedIff(vaults, hop);
    HopChargeIs(vaults, hop);
    hide HopCharge, Charge;
  }

  /** On lanes that ask for one, the premium is there exactly when every hop is tollable, and is the sum of their
      tolls. */
  lemma {:induction false} PremiumIs(s: State, lane: Lane, hops: seq<Hop>)
    requires |hops| <= MAX_ROUTE_HOPS
    ensures Premium(s, lane, hops).Success? <==> (lane.laneClass == Recovery ==> AllTollable(s.vaults, hops))
    ensures Premium(s, lane, hops).Success? ==> Premium(s, lane, hops).value == Tolls(s, lane, hops)
    ensures Premium(s, lane, hops).Failure? ==> Premium(s, lane, hops).error == ErrPolicy
  {
    RoutePricedIff(s.vaults, hops);
    hide RouteCharge, Tollable, HopCharge, Toll, ChargeOf;
    forall i | 0 <= i < |hops|
      ensures Tollable(s.vaults, hops[i]) <==> HopCharge(s.vaults, hops[i]).Success?
      ensures Toll(s.vaults)(hops[i]) == ChargeOf(s.vaults)(hops[i])
    {
      TollIsCharge(s.vaults, hops[i]);
    }
    SumEqual(hops, hops, Toll(s.vaults), ChargeOf(s.vaults));
  }

  /** A price, once there is a premium: nothing overflows that the ceiling or the amount does not already refuse. */
  lemma {:induction false} PriceIs(lane: Lane, gross: Amount, maxFeeBps: U32, minNet: Amount, premium: Amount)
    requires lane.operatorFeeBps + lane.reserveBps <= maxFeeBps
    ensures var fees: int := Fee(gross, lane.operatorFeeBps) + Fee(gross, lane.reserveBps) + premium;
            var r := PriceOn(lane, gross, maxFeeBps, minNet, Success(premium));
            && (r.Success? <==> CeilingFits(gross, maxFeeBps) && fees <= Fee(gross, maxFeeBps)
                                && fees + minNet <= gross)
            && (r.Success? ==>
                  r.value == Quote(lane.id, lane.terminalAccount, gross, Fee(gross, lane.operatorFeeBps),
                                   Fee(gross, lane.reserveBps) + premium, gross - fees))
            && (r.Failure? ==> r.error == ErrPolicy)
  {
    if CeilingFits(gross, maxFeeBps) {
      MulMonotone(lane.operatorFeeBps, maxFeeBps, gross);
      MulMonotone(lane.reserveBps, maxFeeBps, gross);
    }
    hide Floor;
  }

  // ---------- Quotes ----------

  /** The lane a plan settles on. */
  function LaneOf(s: State, plan: Plan): Lane
    requires LaneAt(s.lanes, plan.settlementLane).Some?
  {
    s.lanes[LaneAt(s.lanes, plan.settlementLane).value]
  }

  /** What a caller can read off any reservation, on any class of lane, before asking for a quote. */
  predicate Offerable(s: State, reservation: Reservation) {
    var plan := reservation.plan;
    && LaneAt(s.lanes, plan.settlementLane).Some?
    && |plan.hops| > 0 && Last(plan.hops).lane == plan.settlementLane
    && Affordable(s, LaneOf(s, plan), reservation.gross, plan.maxFeeBps, plan.minNet, Merged(plan.hops))
  }

  /** The quote, figure by figure. */
  predicate QuotedAs(s: State, reservation: Reservation, quote: Quote) {
    var plan := reservation.plan;
    && LaneAt(s.lanes, plan.settlementLane).Some?
    && var lane := LaneOf(s, plan);
    && quote.lane == plan.settlementLane && quote.beneficiary == plan.beneficiary && quote.gross == reservation.gross
    && quote.operatorFee == OperatorFee(lane, reservation.gross)
    && quote.reserveFee == ReserveFee(s, lane, reservation.gross, Merged(plan.hops))
    && quote.net + quote.operatorFee + quote.reserveFee == reservation.gross
  }

  /** On the lane the plan names, the offer is the price; anywhere else there is none. */
  lemma {:induction false} OfferIsPrice(s: State, reservation: Reservation, compacted: CompactedPlan)
    requires ReservationOk(s, reservation)
    requires compacted.effectiveLane == Last(reservation.plan.hops).lane
    requires compacted.effectiveBeneficiary == reservation.plan.beneficiary
    ensures var plan, q := reservation.plan, QuoteSettlement(s, reservation, compacted);
            q == if compacted.effectiveLane != plan.settlementLane then Failure(ErrPolicy)
            else PriceOn(LaneOf(s, plan), reservation.gross, plan.maxFeeBps, plan.minNet,
                         Premium(s, LaneOf(s, plan), compacted.plan.hops))
  {
    var hops := reservation.plan.hops;
    assert HopOk(s, reservation.assetId, reservation.gross, hops[|hops| - 1]);
    var plan := reservation.plan;
    if compacted.effectiveLane == plan.settlementLane {
      PriceNames(LaneOf(s, plan), reservation.gross, plan.maxFeeBps, plan.minNet,
                 Premium(s, LaneOf(s, plan), compacted.plan.hops));
    }
    hide PriceOn, Premium, AccountAt, LaneAt, HopsOk;
  }

  lemma PriceNames(lane: Lane, gross: Amount, maxFeeBps: U32, minNet: Amount, premium: Result<Amount>)
    ensures var r := PriceOn(lane, gross, maxFeeBps, minNet, premium);
            r.Success? ==> r.value.beneficiary == lane.terminalAccount
  {
  }

  lemma NoPremiumNoPrice(lane: Lane, gross: Amount, maxFeeBps: U32, minNet: Amount, premium: Result<Amount>)
    requires premium == Failure(ErrPolicy)
    ensures PriceOn(lane, gross, maxFeeBps, minNet, premium) == Failure(ErrPolicy)
  {
  }

  /** The offer for a compacted route, on the lane the plan names. */
  lemma {:induction false} PriceWithTolls(s: State, lane: Lane, gross: Amount, plan: Plan)
    requires |plan.hops| <= MAX_ROUTE_HOPS && lane.operatorFeeBps + lane.reserveBps <= plan.maxFeeBps
    ensures var hops := Merged(plan.hops);
            var r := PriceOn(lane, gross, plan.maxFeeBps, plan.minNet, Premium(s, lane, hops));
            && (r.Success? <==> Affordable(s, lane, gross, plan.maxFeeBps, plan.minNet, hops))
            && (r.Success? ==>
                  && r.value.lane == lane.id && r.value.beneficiary == lane.terminalAccount && r.value.gross == gross
                  && r.value.operatorFee == OperatorFee(lane, gross)
                  && r.value.reserveFee == ReserveFee(s, lane, gross, hops)
                  && r.value.net + r.value.operatorFee + r.value.reserveFee == gross)
            && (r.Failure? ==> r.error == ErrPolicy)
  {
    var hops := Merged(plan.hops);
    MergedCounts(plan.hops);
    PremiumIs(s, lane, hops);
    hide PriceOn, Premium, Fee, Tolls, AllTollable, CeilingFits, Merged;
    if Premium(s, lane, hops).Success? {
      PriceIs(lane, gross, plan.maxFeeBps, plan.minNet, Tolls(s, lane, hops));
    } else {
      NoPremiumNoPrice(lane, gross, plan.maxFeeBps, plan.minNet, Premium(s, lane, hops));
    }
  }

  lemma {:induction false} OfferIs(s: State, reservation: Reservation, compacted: CompactedPlan)
    requires ReservationOk(s, reservation)
    requires compacted.plan.hops == Merged(reservation.plan.hops)
    requires compacted.effectiveLane == Last(reservation.plan.hops).lane
    requires compacted.effectiveBeneficiary == reservation.plan.beneficiary
    ensures var q := QuoteSettlement(s, reservation, compacted);
            && (q.Success? <==> Offerable(s, reservation))
            && (q.Success? ==> QuotedAs(s, reservation, q.value))
            && (q.Failure? ==> q.error == ErrPolicy)
  {
    OfferIsPrice(s, reservation, compacted);
    PriceWithTolls(s, LaneOf(s, reservation.plan), reservation.gross, reservation.plan);
    hide QuoteSettlement, PriceOn, Premium, Affordable, OperatorFee, ReserveFee, Merged, HopsOk, LaneAt;
  }

  /** What stands between an open or closed reservation and its quote. */
  function QuoteChecks(s: State, r: nat, epoch: Amount): seq<Check>
    requires r < |s.reservations|
  {
    var reservation := s.reservations[r];
    [Check(|s.receipts| < MAX_RECEIPTS, ErrCapacity),
     Check(reservation.state == Reserved, ErrState),
     Check(reservation.plan.settleAfter <= epoch, ErrPolicy),
     Check(epoch <= reservation.deadline, ErrExpired),
     Check(Offerable(s, reservation), ErrPolicy)]
  }

  /** A reservation is quoted exactly when every check passes, at the fees and the net amount above; otherwise the first
      failing check answers. */
  lemma {:induction false} QuoteAnswer(h: Hashes, s: State, r: nat, epoch: Amount)
    requires ReservationsOk(s) && r < |s.reservations|
    ensures var checks, q := QuoteChecks(s, r, epoch), SettlementQuote(h, s, s.reservations[r].id, epoch);
            && (q.Success? <==> AllPass(checks))
            && (q.Success? ==> QuotedAs(s, s.reservations[r], q.value))
            && (q.Failure? ==> q.error == Verdict(checks))
  {
    var reservation := s.reservations[r];
    ReservationIsOk(s, r);
    ReservationFound(s.reservations, r);
    RouteCompacts(h, s, r);
    CompactedRoute(h, reservation.plan);
    QuoteUnfolds(h, s, r, epoch);
    hide *;
    OfferIs(s, reservation, Compact(h.plan, reservation.plan).value);
    QuoteVerdict(s, r, epoch);
  }

  lemma ReservationIsOk(s: State, r: nat)
    requires ReservationsOk(s) && r < |s.reservations|
    ensures ReservationOk(s, s.reservations[r]) && DistinctReservations(s.reservations)
    ensures LaneAt(s.lanes, s.reservations[r].plan.settlementLane).Some?
  {
    assert ReservationOk(s, s.reservations[r]);
  }

  lemma CompactedRoute(h: Hashes, plan: Plan)
    requires Compact(h.plan, plan).Success?
    ensures Compact(h.plan, plan).value.plan.hops == Merged(plan.hops)
  {
  }

  lemma QuoteUnfolds(h: Hashes, s: State, r: nat, epoch: Amount)
    requires r < |s.reservations| && ReservationAt(s.reservations, s.reservations[r].id) == Some(r)
    requires Compact(h.plan, s.reservations[r].plan).Success?
    ensures var reservation := s.reservations[r];
            SettlementQuote(h, s, reservation.id, epoch)
            == if |s.receipts| >= MAX_RECEIPTS then Failure(ErrCapacity)
            else if reservation.state != Reserved then Failure(ErrState)
            else if epoch < reservation.plan.settleAfter then Failure(ErrPolicy)
            else if reservation.deadline < epoch then Failure(ErrExpired)
            else QuoteSettlement(s, reservation, Compact(h.plan, reservation.plan).value)
  {
    hide QuoteSettlement, Compact, ReservationAt;
  }

  lemma {:induction false} QuoteVerdict(s: State, r: nat, epoch: Amount)
    requires r < |s.reservations|
    ensures var checks, reservation := QuoteChecks(s, r, epoch), s.reservations[r];
            && Verdict(checks)
               == (if |s.receipts| >= MAX_RECEIPTS then ErrCapacity
                   else if reservation.state != Reserved then ErrState
                   else if epoch < reservation.plan.settleAfter then ErrPolicy
                   else if reservation.deadline < epoch then ErrExpired
                   else if !Offerable(s, reservation) then ErrPolicy
                   else Ok)
            && (AllPass(checks) <==> Verdict(checks) == Ok)
  {
    hide Offerable, Verdict, LaneAt, AllPass;
    VerdictOfFive(QuoteChecks(s, r, epoch));
    VerdictOkIff(QuoteChecks(s, r, epoch));
  }

  /** An unknown reservation has no quote. */
  lemma UnknownQuote(h: Hashes, s: State, id: Digest, epoch: Amount)
    requires ReservationAt(s.reservations, id).None?
    ensures SettlementQuote(h, s, id, epoch)
         == Failure(if |s.receipts| >= MAX_RECEIPTS then ErrCapacity else ErrNotFound)
  {
  }
}
