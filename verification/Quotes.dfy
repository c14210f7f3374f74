/** Quotes over time: waiting never spoils one, on recovery lanes either. */
module Quotes {
  import opened Amounts
  import opened Sums
  import opened Routes
  import opened LedgerTypes
  import opened Exposure
  import opened LedgerSteps
  import opened LedgerInvariant
  import opened ClosingProofs
  import opened SettleProofs
  import opened Runs

  /** The same vaults at the same places, none with less in it. */
  predicate VaultsRicher(a: seq<Vault>, b: seq<Vault>) {
    VaultsExtend(a, b) && BalancesGrow(a, b)
  }

  lemma {:induction false} HopCheaper(a: seq<Vault>, b: seq<Vault>, hop: Hop)
    requires VaultsRicher(a, b) && HopCharge(a, hop).Success?
    ensures HopCharge(b, hop).Success? && HopCharge(b, hop).value <= HopCharge(a, hop).value
  {
    VaultStays(a, b, hop.fromVault);
    var v := VaultAt(a, hop.fromVault).value;
    assert SameVault(a[v], b[v]);
    RatioAntitone(hop.amountHint, a[v].balance, b[v].balance, BPS);
    var weighted := MulBps(hop.amountHint, hop.weightBps).value;
    ChargeFits(weighted, weighted, Utilization(hop.amountHint, b[v].balance),
               Utilization(hop.amountHint, a[v].balance));
  }

  lemma {:induction false} RouteCheaper(a: seq<Vault>, b: seq<Vault>, hops: seq<Hop>)
    requires VaultsRicher(a, b) && RouteCharge(a, hops).Success?
    ensures RouteCharge(b, hops).Success? && RouteCharge(b, hops).value <= RouteCharge(a, hops).value
  {
    hide HopCharge, VaultsRicher;
    forall i | 0 <= i < |hops|
      ensures HopCharge(b, hops[i]).Success? && ChargeOf(b)(hops[i]) <= ChargeOf(a)(hops[i])
    {
      assert HopCharge(a, hops[i]).Success?;
      HopCheaper(a, b, hops[i]);
    }
    SumPointwise(hops, hops, ChargeOf(b), ChargeOf(a));
  }

  lemma {:induction false} PremiumFalls(s: State, t: State, lane: Lane, hops: seq<Hop>)
    requires VaultsRicher(s.vaults, t.vaults) && Premium(s, lane, hops).Success?
    ensures Premium(t, lane, hops).Success? && Premium(t, lane, hops).value <= Premium(s, lane, hops).value
  {
    hide RouteCharge, VaultsRicher;
    if lane.laneClass == Recovery {
      RouteCheaper(s.vaults, t.vaults, hops);
    }
  }

  /** For the same amount on the same lane: same operator fee, no larger reserve fee, no smaller net. */
  predicate NoWorse(before: Quote, after: Quote) {
    && after.lane == before.lane && after.beneficiary == before.beneficiary && after.gross == before.gross
    && after.operatorFee == before.operatorFee && after.reserveFee <= before.reserveFee && after.net >= before.net
  }

  lemma {:induction false} PriceFalls(lane: Lane, gross: Amount, maxFeeBps: U32, minNet: Amount, more: Amount,
                                      less: Amount)
    requires less <= more && PriceOn(lane, gross, maxFeeBps, minNet, Success(more)).Success?
    ensures PriceOn(lane, gross, maxFeeBps, minNet, Success(less)).Success?
    ensures NoWorse(PriceOn(lane, gross, maxFeeBps, minNet, Success(more)).value,
                    PriceOn(lane, gross, maxFeeBps, minNet, Success(less)).value)
  {
    hide MulBps;
  }

  lemma {:induction false} OfferHolds(s: State, t: State, reservation: Reservation, compacted: CompactedPlan)
    requires Extends(s, t) && BalancesGrow(s.vaults, t.vaults) && QuoteSettlement(s, reservation, compacted).Success?
    ensures QuoteSettlement(t, reservation, compacted).Success?
    ensures NoWorse(QuoteSettlement(s, reservation, compacted).value, QuoteSettlement(t, reservation, compacted).value)
  {
    LaneStays(s.lanes, t.lanes, compacted.effectiveLane);
    var lane, plan := s.lanes[LaneAt(s.lanes, compacted.effectiveLane).value], reservation.plan;
    hide Premium, PriceOn;
    PremiumIsThere(lane, reservation.gross, plan.maxFeeBps, plan.minNet, Premium(s, lane, compacted.plan.hops));
    PremiumFalls(s, t, lane, compacted.plan.hops);
    PriceFalls(lane, reservation.gross, plan.maxFeeBps, plan.minNet, Premium(s, lane, compacted.plan.hops).value,
               Premium(t, lane, compacted.plan.hops).value);
    var quote := QuoteSettlement(s, reservation, compacted).value;
    AccountStays(s.accounts, t.accounts, quote.beneficiary);
    AccountStays(s.accounts, t.accounts, plan.operatorAccount);
  }

  lemma PremiumIsThere(lane: Lane, gross: Amount, maxFeeBps: U32, minNet: Amount, premium: Result<Amount>)
    requires PriceOn(lane, gross, maxFeeBps, minNet, premium).Success?
    ensures premium.Success?
  {
  }

  lemma {:induction false} QuoteHolds(h: Hashes, s: State, t: State, reservation: Reservation)
    requires Extends(s, t) && BalancesGrow(s.vaults, t.vaults) && QuoteFor(h, s, reservation).Success?
    ensures QuoteFor(h, t, reservation).Success?
    ensures NoWorse(QuoteFor(h, s, reservation).value, QuoteFor(h, t, reservation).value)
  {
    hide Extends, BalancesGrow, QuoteSettlement, Compact, NoWorse;
    OfferHolds(s, t, reservation, Compact(h.plan, reservation.plan).value);
  }

  lemma StillTheSame(s: State, t: State, r: nat)
    requires Evolves(s, t) && r < |s.reservations| && t.reservations[r].state == Reserved
    ensures r < |t.reservations| && t.reservations[r] == s.reservations[r]
    ensures Extends(s, t) && BalancesGrow(s.vaults, t.vaults)
  {
    hide Extends;
    assert Progresses(s.reservations[r], t.reservations[r]);
  }

  lemma GuardedQuoteIs(h: Hashes, s: State, r: nat, epoch: Amount)
    requires r < |s.reservations| && ReservationAt(s.reservations, s.reservations[r].id) == Some(r)
    requires SettleGuard(s, s.reservations[r].id, epoch) == Ok
    ensures SettlementQuote(h, s, s.reservations[r].id, epoch) == QuoteFor(h, s, s.reservations[r])
  {
    hide QuoteFor;
  }

  lemma {:induction false} QuotedIsGuarded(h: Hashes, s: State, r: nat, epoch: Amount)
    requires r < |s.reservations| && SettlementQuote(h, s, s.reservations[r].id, epoch).Success?
    ensures SettleGuard(s, s.reservations[r].id, epoch) == Ok
  {
    hide QuoteFor, SettleGuard;
  }

  /** A reservation that is quoted at some epoch is still quoted at that epoch in every later ledger, for as long as it
      stays open, and for no larger premium: vault balances only grow, and premiums fall with them. */
  lemma {:induction false} WaitingNeverSpoilsQuote(h: Hashes, s: State, commands: seq<Command>, r: nat, epoch: Amount)
    requires Inv(s) && AdmissibleFrom(h, s, commands) && Open(s, r)
    requires SettlementQuote(h, s, s.reservations[r].id, epoch).Success?
    ensures var t := RunFrom(h, s, commands);
            && r < |t.reservations|
            && (t.reservations[r].state == Reserved ==>
                  var later := SettlementQuote(h, t, s.reservations[r].id, epoch);
                  && later.Success?
                  && NoWorse(SettlementQuote(h, s, s.reservations[r].id, epoch).value, later.value))
  {
    var t := RunFrom(h, s, commands);
    InvParts(s);
    hide Inv, Evolves, AdmissibleFrom, RunFrom, SettlementQuote, QuoteFor, SettleGuard, ReservationsOk, LanesOk,
      ReceiptsOk, AllRecorded, ColumnsOk, AssetsOk, AccountsOk, VaultsOk, Extends, BalancesGrow, NoWorse;
    RunEvolves(h, s, commands);
    RunKeepsInv(h, s, commands);
    NoneIsLost(s, t);
    if t.reservations[r].state == Reserved {
      StillTheSame(s, t, r);
      StaysListed(s, t, r);
      QuotedIsGuarded(h, s, r, epoch);
      QuoteOfOpen(s, r, epoch);
      QuoteOfOpen(t, r, epoch);
      GuardedQuoteIs(h, s, r, epoch);
      GuardedQuoteIs(h, t, r, epoch);
      QuoteHolds(h, s, t, s.reservations[r]);
    }
  }

  lemma NoneIsLost(s: State, t: State)
    requires Evolves(s, t)
    ensures |s.reservations| <= |t.reservations|
  {
  }

  lemma {:induction false} StaysListed(s: State, t: State, r: nat)
    requires Extends(s, t) && Open(s, r) && r < |t.reservations| && t.reservations[r] == s.reservations[r]
    ensures Open(t, r)
  {
    AssetStays(s.assets, t.assets, s.reservations[r].assetId);
  }
}
