/** Settling and cancelling: how an open reservation leaves the ledger, and why nothing can refuse it half-way. */
module ClosingProofs {
  import opened Amounts
  import opened Digests
  import opened Sums
  import opened LedgerTypes
  import opened LedgerSteps
  import opened LedgerInvariant
  import opened PendingProofs
  import opened PostingProofs

  predicate Open(s: State, r: nat) {
    r < |s.reservations| && s.reservations[r].state == Reserved && AssetAt(s.assets, s.reservations[r].assetId).Some?
  }

  function Column(s: State, r: nat): (k: nat)
    requires Open(s, r)
    ensures k < |s.assets| && s.assets[k] == s.reservations[r].assetId
  {
    AssetAt(s.assets, s.reservations[r].assetId).value
  }

  /** Nothing but accounts, vaults, the reservation's state and the logs may differ. */
  predicate SameFrame(s: State, t: State) {
    t.networkId == s.networkId && t.assets == s.assets && t.lanes == s.lanes && t.issued == s.issued
  }

  /** Reservation r leaves the open state: its route is no longer pending, accounts and vaults gain as given. */
  predicate Closes(s: State, t: State, r: nat, outcome: ReservationState, paid: Digest -> nat, kept: Digest -> nat)
    requires Open(s, r)
  {
    && SameFrame(s, t)
    && AccountsGain(s.accounts, t.accounts, Column(s, r), paid)
    && VaultsClear(s.vaults, t.vaults, s.reservations[r].plan.hops, kept)
    && t.reservations == s.reservations[r := s.reservations[r].(state := outcome)]
  }

  /** The locked gross amount reappears in accounts and vaults, none of it elsewhere. */
  ghost predicate PaysOut(s: State, t: State, r: nat)
    requires Open(s, r)
  {
    var k, asset := Column(s, r), s.reservations[r].assetId;
    && Sum(t.accounts, BalanceIn(k)) + Sum(t.vaults, HeldAs(asset))
       == Sum(s.accounts, BalanceIn(k)) + Sum(s.vaults, HeldAs(asset)) + s.reservations[r].gross
    && forall other | other != asset :: Sum(t.vaults, HeldAs(other)) == Sum(s.vaults, HeldAs(other))
  }

  // ---------- Closing keeps the invariant ----------

  lemma {:induction false} ClosingKeepsCatalog(s: State, t: State, r: nat, outcome: ReservationState,
                                               paid: Digest -> nat, kept: Digest -> nat)
    requires CatalogOk(s) && Open(s, r) && Closes(s, t, r, outcome, paid, kept)
    ensures CatalogOk(t) && Extends(s, t)
  {
    GainsKeep(s.accounts, t.accounts, Column(s, r), paid);
    GainsKeepColumns(s.assets, s.accounts, t.accounts, s.issued, Column(s, r), paid);
    ClearKeepsVaults(s.vaults, t.vaults, s.reservations[r].plan.hops, kept);
    forall l | 0 <= l < |t.lanes|
      ensures LaneOk(t, t.lanes[l])
    {
      LaneOkStays(s, t, s.lanes[l]);
    }
    forall v | 0 <= v < |t.vaults|
      ensures AssetAt(t.assets, t.vaults[v].assetId).Some?
    {
      assert SameVault(s.vaults[v], t.vaults[v]);
    }
  }

  lemma {:induction false} ClosingKeepsReservations(s: State, t: State, r: nat, outcome: ReservationState)
    requires ReservationsOk(s) && Open(s, r) && Extends(s, t)
    requires t.reservations == s.reservations[r := s.reservations[r].(state := outcome)]
    ensures ReservationsOk(t)
  {
    forall i | 0 <= i < |t.reservations|
      ensures ReservationOk(t, t.reservations[i])
    {
      ReservationOkStays(s, t, s.reservations[i]);
    }
  }

  lemma {:induction false} ClosingKeepsConservation(s: State, t: State, r: nat, outcome: ReservationState,
                                                    paid: Digest -> nat, kept: Digest -> nat)
    requires AssetsOk(s.assets) && Conserved(s) && Open(s, r) && outcome != Reserved
    requires Closes(s, t, r, outcome, paid, kept) && PaysOut(s, t, r)
    ensures Conserved(t)
  {
    var asset, closed := s.reservations[r].assetId, s.reservations[r].(state := outcome);
    GainsKeep(s.accounts, t.accounts, Column(s, r), paid);
    forall c | 0 <= c < |t.assets|
      ensures Observed(t, c) == t.issued[c]
    {
      SumUpdate(s.reservations, r, closed, LockedAs(s.assets[c]));
      assert Observed(s, c) == s.issued[c];
      if c != Column(s, r) {
        assert s.assets[c] != asset;
      }
    }
  }

  lemma {:induction false} ClosingKeepsPending(s: State, t: State, r: nat, outcome: ReservationState,
                                               paid: Digest -> nat, kept: Digest -> nat)
    requires PendingCovers(s.vaults, s.reservations) && Open(s, r) && outcome != Reserved
    requires Closes(s, t, r, outcome, paid, kept)
    ensures PendingCovers(t.vaults, t.reservations)
  {
    var closed := s.reservations[r].(state := outcome);
    forall v | 0 <= v < |t.vaults|
      ensures Covered(t.vaults[v], t.reservations)
    {
      var id := s.vaults[v].id;
      assert VaultClears(s.vaults[v], t.vaults[v], s.reservations[r].plan.hops, kept(id));
      assert Covered(s.vaults[v], s.reservations);
      SumUpdate(s.reservations, r, closed, OwedOut(id));
      SumUpdate(s.reservations, r, closed, OwedIn(id));
    }
  }

  lemma {:induction false} ClosingKeepsNonces(s: State, t: State, r: nat, outcome: ReservationState,
                                              paid: Digest -> nat, kept: Digest -> nat)
    requires NoncesCount(s.accounts, s.reservations) && Open(s, r) && Closes(s, t, r, outcome, paid, kept)
    ensures NoncesCount(t.accounts, t.reservations)
  {
    GainsKeep(s.accounts, t.accounts, Column(s, r), paid);
    assert NoncesCount(t.accounts, s.reservations);
    forall i | 0 <= i < |t.accounts|
      ensures t.accounts[i].intentNonce == Sum(t.reservations, PaidBy(t.accounts[i].id))
    {
      SumUpdate(s.reservations, r, s.reservations[r].(state := outcome), PaidBy(t.accounts[i].id));
    }
  }

  lemma {:induction false} SameIdsSamePlace(a: seq<Reservation>, b: seq<Reservation>, id: Digest)
    requires |a| <= |b| && forall i | 0 <= i < |a| :: a[i].id == b[i].id
    requires ReservationAt(a, id).Some?
    ensures ReservationAt(b, id) == ReservationAt(a, id)
  {
    var i := ReservationAt(a, id).value;
    assert b[i].id == id;
    assert forall j | 0 <= j < i :: b[j].id == a[j].id;
  }

  lemma {:induction false} OldReceiptsStay(before: seq<Reservation>, r: nat, outcome: ReservationState,
                                           receipt: Receipt)
    requires r < |before| && before[r].state == Reserved && Recorded(before, receipt)
    ensures Recorded(before[r := before[r].(state := outcome)], receipt)
  {
    SameIdsSamePlace(before, before[r := before[r].(state := outcome)], receipt.reservationId);
  }

  lemma {:induction false} CancelKeepsReceipts(s: State, t: State, r: nat)
    requires ReceiptsOk(s.reservations, s.receipts) && Open(s, r)
    requires t.reservations == s.reservations[r := s.reservations[r].(state := Cancelled)] && t.receipts == s.receipts
    ensures ReceiptsOk(t.reservations, t.receipts)
  {
    SumUpdate(s.reservations, r, t.reservations[r], IsSettled());
    forall i | 0 <= i < |t.receipts|
      ensures Recorded(t.reservations, t.receipts[i])
    {
      OldReceiptsStay(s.reservations, r, Cancelled, s.receipts[i]);
    }
  }

  lemma {:induction false} SettleKeepsReceipts(s: State, t: State, r: nat, receipt: Receipt)
    requires ReceiptsOk(s.reservations, s.receipts) && DistinctReservations(s.reservations) && Open(s, r)
    requires t.reservations == s.reservations[r := s.reservations[r].(state := Settled)]
    requires t.receipts == s.receipts + [receipt]
    requires Records(receipt, s.reservations[r].(state := Settled))
    ensures ReceiptsOk(t.reservations, t.receipts)
  {
    SumUpdate(s.reservations, r, t.reservations[r], IsSettled());
    ReservationFound(s.reservations, r);
    SameIdsSamePlace(s.reservations, t.reservations, receipt.reservationId);
    forall i | 0 <= i < |s.receipts|
      ensures Recorded(t.reservations, s.receipts[i]) && s.receipts[i].reservationId != receipt.reservationId
    {
      assert Recorded(s.reservations, s.receipts[i]);
      OldReceiptsStay(s.reservations, r, Settled, s.receipts[i]);
    }
    forall i | 0 <= i < |t.receipts|
      ensures Recorded(t.reservations, t.receipts[i])
    {
      assert i < |s.receipts| ==> t.receipts[i] == s.receipts[i];
    }
  }

  // ---------- What the invariant leaves room for ----------

  /** Balances, holdings and open reservations of one asset fit together in 64 bits. */
  lemma {:induction false} RoomForGross(s: State, r: nat)
    requires Inv(s) && Open(s, r)
    ensures var k, asset := Column(s, r), s.reservations[r].assetId;
            Sum(s.accounts, BalanceIn(k)) + Sum(s.vaults, HeldAs(asset)) + s.reservations[r].gross <= s.issued[k]
  {
    var k := Column(s, r);
    assert Observed(s, k) == s.issued[k];
    SumCovers(s.reservations, r, LockedAs(s.assets[k]));
  }

  /** The route of an open reservation can always be released. */
  lemma {:induction false} RouteReleases(s: State, r: nat)
    requires Inv(s) && Open(s, r)
    ensures Routed(s.vaults, s.reservations[r].plan.hops)
    ensures var released := UpdateRoutePending(s.vaults, s.reservations[r].plan.hops, true);
            && released.status == Ok
            && Raised(released.after, s.vaults, s.reservations[r].plan.hops)
            && VaultsOk(released.after) && VaultsExtend(s.vaults, released.after)
  {
    var hops := s.reservations[r].plan.hops;
    assert ReservationOk(s, s.reservations[r]);
    forall i | 0 <= i < |hops|
      ensures VaultAt(s.vaults, hops[i].fromVault).Some? && VaultAt(s.vaults, hops[i].toVault).Some?
    {
      assert HopOk(s, s.reservations[r].assetId, s.reservations[r].gross, hops[i]);
    }
    forall v | 0 <= v < |s.vaults|
      ensures Bounds(s.vaults[v], hops)
    {
      assert Covered(s.vaults[v], s.reservations);
      SumCovers(s.reservations, r, OwedOut(s.vaults[v].id));
      SumCovers(s.reservations, r, OwedIn(s.vaults[v].id));
    }
    ReleaseRoute(s.vaults, hops);
    var released := UpdateRoutePending(s.vaults, hops, true).after;
    RaisedIsRisen(released, s.vaults, hops);
    RisenKeepsVaults(released, s.vaults);
  }

  /** The ledger's wrapping check agrees with conservation over the integers. */
  lemma {:induction false} ConservedChecks(s: State, assetId: Digest)
    requires Conserved(s) && AssetAt(s.assets, assetId).Some?
    ensures ConservationOk(s, assetId)
    ensures Wrap64(Observed(s, AssetAt(s.assets, assetId).value)) == Observed(s, AssetAt(s.assets, assetId).value)
  {
    var k := AssetAt(s.assets, assetId).value;
    assert Observed(s, k) == s.issued[k];
  }

  function JournalStatus(s: State): Status {
    if |s.journal| < MAX_JOURNAL then Ok else ErrCapacity
  }

  /** What a call that has committed reports: a full journal first, then the ledger's own check. */
  function CommitStatus(s: State, t: State, assetId: Digest): Status {
    if |s.journal| >= MAX_JOURNAL then ErrCapacity else if ConservationOk(t, assetId) then Ok else ErrState
  }

  function Journaled(s: State, entry: JournalEntry): seq<JournalEntry> {
    if |s.journal| < MAX_JOURNAL then s.journal + [entry] else s.journal
  }

  // ---------- Cancelling ----------

  predicate Refunds(s: State, t: State, r: nat, epoch: Amount)
    requires Open(s, r)
  {
    var reservation := s.reservations[r];
    && Closes(s, t, r, Cancelled, To(reservation.payer, reservation.gross), Nobody())
    && t.epoch == epoch && t.receipts == s.receipts
    && t.journal == Journaled(s, JournalEntry(epoch, CancelledReservation, reservation.id, reservation.gross))
  }

  /** State just before the reservation is marked cancelled. */
  lemma {:induction false} CancelPostings(s: State, r: nat)
    requires Inv(s) && Open(s, r)
    ensures var reservation := s.reservations[r];
            var released := UpdateRoutePending(s.vaults, reservation.plan.hops, true);
            var refunded := Credit(s.assets, s.accounts, reservation.payer, reservation.assetId, reservation.gross);
            && released.status == Ok && refunded.status == Ok
            && AccountsGain(s.accounts, refunded.after, Column(s, r), To(reservation.payer, reservation.gross))
            && VaultsClear(s.vaults, released.after, reservation.plan.hops, Nobody())
            && Sum(refunded.after, BalanceIn(Column(s, r)))
               == Sum(s.accounts, BalanceIn(Column(s, r))) + reservation.gross
            && forall asset :: Sum(released.after, HeldAs(asset)) == Sum(s.vaults, HeldAs(asset))
  {
    var reservation := s.reservations[r];
    assert ReservationOk(s, reservation);
    RoomForGross(s, r);
    CreditEffect(s.assets, s.accounts, reservation.payer, reservation.assetId, reservation.gross);
    RouteReleases(s, r);
    var released := UpdateRoutePending(s.vaults, reservation.plan.hops, true).after;
    ReleaseClears(s.vaults, released, reservation.plan.hops);
    forall asset
      ensures Sum(released, HeldAs(asset)) == Sum(s.vaults, HeldAs(asset))
    {
      assert forall v | 0 <= v < |released| :: RaisedAt(released[v], s.vaults[v], reservation.plan.hops);
      SameBookSameHoldings(released, s.vaults, asset);
    }
  }

  lemma {:induction false} ClosingKeepsInv(s: State, t: State, r: nat, outcome: ReservationState,
                                           paid: Digest -> nat, kept: Digest -> nat)
    requires Inv(s) && Open(s, r) && outcome != Reserved
    requires Closes(s, t, r, outcome, paid, kept) && PaysOut(s, t, r)
    requires ReceiptsOk(t.reservations, t.receipts) && |t.journal| <= MAX_JOURNAL
    ensures Inv(t)
  {
    ClosingKeepsCatalog(s, t, r, outcome, paid, kept);
    ClosingKeepsReservations(s, t, r, outcome);
    ClosingKeepsConservation(s, t, r, outcome, paid, kept);
    ClosingKeepsPending(s, t, r, outcome, paid, kept);
    ClosingKeepsNonces(s, t, r, outcome, paid, kept);
  }

  /** The state with both postings of a cancellation made. */
  function Released(s: State, r: nat): State
    requires Open(s, r)
  {
    var reservation := s.reservations[r];
    s.(vaults := UpdateRoutePending(s.vaults, reservation.plan.hops, true).after,
    accounts := Credit(s.assets, s.accounts, reservation.payer, reservation.assetId, reservation.gross).after)
  }

  lemma {:induction false} CancelReaches(s: State, id: Digest, epoch: Amount)
    requires Inv(s) && CancelStatus(s, id, epoch) == Ok
    ensures var r := ReservationAt(s.reservations, id).value;
            Open(s, r) && Cancel(s, id, epoch) == CancelCommit(Released(s, r), r, epoch)
  {
    var r := ReservationAt(s.reservations, id).value;
    assert ReservationOk(s, s.reservations[r]);
    CancelPostings(s, r);
  }

  lemma CancelCommitFrame(p: State, r: nat, epoch: Amount)
    requires r < |p.reservations|
    ensures var o, reservation := CancelCommit(p, r, epoch), p.reservations[r];
            && o.after == p.(reservations := p.reservations[r := reservation.(state := Cancelled)], epoch := epoch,
                          journal := Journaled(p,
                                               JournalEntry(epoch, CancelledReservation, reservation.id,
                                                            reservation.gross)))
            && o.status == CommitStatus(p, o.after, reservation.assetId)
  {
  }

  lemma {:induction false} ReleasedPaysOut(s: State, r: nat)
    requires Inv(s) && Open(s, r)
    ensures var p, reservation := Released(s, r), s.reservations[r];
            && p == s.(accounts := p.accounts, vaults := p.vaults)
            && AccountsGain(s.accounts, p.accounts, Column(s, r), To(reservation.payer, reservation.gross))
            && VaultsClear(s.vaults, p.vaults, reservation.plan.hops, Nobody())
            && PaysOut(s, p, r)
  {
    CancelPostings(s, r);
  }

  lemma {:induction false} CancelRefunds(s: State, p: State, r: nat, epoch: Amount)
    requires Open(s, r) && p == s.(accounts := p.accounts, vaults := p.vaults)
    requires AccountsGain(s.accounts, p.accounts, Column(s, r), To(s.reservations[r].payer, s.reservations[r].gross))
    requires VaultsClear(s.vaults, p.vaults, s.reservations[r].plan.hops, Nobody())
    requires PaysOut(s, p, r)
    ensures var o := CancelCommit(p, r, epoch);
            && Refunds(s, o.after, r, epoch) && PaysOut(s, o.after, r)
            && o.status == CommitStatus(s, o.after, s.reservations[r].assetId)
  {
    CancelCommitFrame(p, r, epoch);
  }

  lemma {:induction false} RefundKeepsInv(s: State, t: State, r: nat, epoch: Amount)
    requires Inv(s) && Open(s, r) && Refunds(s, t, r, epoch) && PaysOut(s, t, r)
    ensures Inv(t) && ConservationOk(t, s.reservations[r].assetId)
  {
    var reservation := s.reservations[r];
    CancelKeepsReceipts(s, t, r);
    ClosingKeepsInv(s, t, r, Cancelled, To(reservation.payer, reservation.gross), Nobody());
    ConservedChecks(t, reservation.assetId);
  }

  /** A cancellation that passes its guards always commits, refunds the gross amount, and only a full journal keeps it
      from reporting success. */
  lemma {:induction false} CancelCommits(s: State, id: Digest, epoch: Amount)
    requires Inv(s) && CancelStatus(s, id, epoch) == Ok
    ensures var r := ReservationAt(s.reservations, id).value;
            && Open(s, r)
            && Cancel(s, id, epoch).status == JournalStatus(s)
            && Refunds(s, Cancel(s, id, epoch).after, r, epoch)
            && Inv(Cancel(s, id, epoch).after)
  {
    hide Inv, CancelCommit;
    var r := ReservationAt(s.reservations, id).value;
    CancelReaches(s, id, epoch);
    ReleasedPaysOut(s, r);
    CancelRefunds(s, Released(s, r), r, epoch);
    RefundKeepsInv(s, Cancel(s, id, epoch).after, r, epoch);
  }

  // ---------- Settling ----------

  /** The quote names known parties on a known lane of the right asset and splits the gross amount exactly. */
  predicate QuoteOk(s: State, r: nat, quote: Quote)
    requires Open(s, r)
  {
    var reservation := s.reservations[r];
    && LaneAt(s.lanes, quote.lane).Some?
    && s.lanes[LaneAt(s.lanes, quote.lane).value].assetId == reservation.assetId
    && AccountAt(s.accounts, quote.beneficiary).Some?
    && quote.net + quote.operatorFee + quote.reserveFee == reservation.gross
  }

  function Sink(s: State, quote: Quote): Digest
    requires LaneAt(s.lanes, quote.lane).Some?
  {
    s.lanes[LaneAt(s.lanes, quote.lane).value].sinkVault
  }

  /** Who is paid by a settlement: the beneficiary the net amount, the operator its fee. */
  function Payout(reservation: Reservation, quote: Quote): Digest -> nat {
    Both(To(quote.beneficiary, quote.net), To(reservation.plan.operatorAccount, quote.operatorFee))
  }

  lemma {:induction false} SettleCredits(s: State, r: nat, quote: Quote)
    requires Inv(s) && Open(s, r) && QuoteOk(s, r, quote)
    ensures var reservation, k := s.reservations[r], Column(s, r);
            var paid := Credit(s.assets, s.accounts, quote.beneficiary, reservation.assetId, quote.net);
            var feed := Credit(s.assets, paid.after, reservation.plan.operatorAccount, reservation.assetId,
                               quote.operatorFee);
            && paid.status == Ok && feed.status == Ok
            && AccountsGain(s.accounts, feed.after, k, Payout(reservation, quote))
            && Sum(feed.after, BalanceIn(k)) == Sum(s.accounts, BalanceIn(k)) + quote.net + quote.operatorFee
  {
    var reservation, k := s.reservations[r], Column(s, r);
    var operator := reservation.plan.operatorAccount;
    assert ReservationOk(s, reservation);
    RoomForGross(s, r);
    CreditEffect(s.assets, s.accounts, quote.beneficiary, reservation.assetId, quote.net);
    var paid := Credit(s.assets, s.accounts, quote.beneficiary, reservation.assetId, quote.net).after;
    GainsKeep(s.accounts, paid, k, To(quote.beneficiary, quote.net));
    AccountStays(s.accounts, paid, operator);
    CreditEffect(s.assets, paid, operator, reservation.assetId, quote.operatorFee);
    var feed := Credit(s.assets, paid, operator, reservation.assetId, quote.operatorFee).after;
    GainsChain(s.accounts, paid, feed, k, To(quote.beneficiary, quote.net), To(operator, quote.operatorFee));
  }

  lemma {:induction false} SettleVaults(s: State, r: nat, quote: Quote)
    requires Inv(s) && Open(s, r) && QuoteOk(s, r, quote)
    ensures var reservation := s.reservations[r];
            var released := UpdateRoutePending(s.vaults, reservation.plan.hops, true);
            var sunk := CreditVault(released.after, Sink(s, quote), quote.reserveFee);
            && released.status == Ok && sunk.status == Ok
            && VaultsClear(s.vaults, sunk.after, reservation.plan.hops, To(Sink(s, quote), quote.reserveFee))
            && Sum(sunk.after, HeldAs(reservation.assetId))
               == Sum(s.vaults, HeldAs(reservation.assetId)) + quote.reserveFee
            && forall other | other != reservation.assetId :: Sum(sunk.after, HeldAs(other))
                                                              == Sum(s.vaults, HeldAs(other))
  {
    var reservation := s.reservations[r];
    RoomForGross(s, r);
    RouteReleases(s, r);
    var released := UpdateRoutePending(s.vaults, reservation.plan.hops, true).after;
    var lane := s.lanes[LaneAt(s.lanes, quote.lane).value];
    assert LaneOk(s, lane);
    VaultStays(s.vaults, released, lane.sinkVault);
    assert forall v | 0 <= v < |released| :: RaisedAt(released[v], s.vaults[v], reservation.plan.hops);
    SameBookSameHoldings(released, s.vaults, reservation.assetId);
    CreditVaultEffect(s.vaults, released, reservation.plan.hops, lane.sinkVault, reservation.assetId, quote.reserveFee);
  }

  /** Everything a committed settlement changes. */
  predicate Settles(s: State, t: State, r: nat, quote: Quote, receipt: Receipt)
    requires Open(s, r) && QuoteOk(s, r, quote)
  {
    && Closes(s, t, r, Settled, Payout(s.reservations[r], quote), To(Sink(s, quote), quote.reserveFee))
    && t.epoch == receipt.epoch && t.receipts == s.receipts + [receipt]
    && t.journal == Journaled(s, JournalEntry(receipt.epoch, SettledReservation, receipt.id, receipt.gross))
  }

  /** The state with every posting of a settlement made. */
  function Paid(s: State, r: nat, quote: Quote): State
    requires Open(s, r) && QuoteOk(s, r, quote)
  {
    var reservation := s.reservations[r];
    var released := UpdateRoutePending(s.vaults, reservation.plan.hops, true).after;
    var paid := Credit(s.assets, s.accounts, quote.beneficiary, reservation.assetId, quote.net).after;
    s.(vaults := CreditVault(released, Sink(s, quote), quote.reserveFee).after,
    accounts := Credit(s.assets, paid, reservation.plan.operatorAccount, reservation.assetId,
                       quote.operatorFee).after)
  }

  lemma {:induction false} SettleReaches(s: State, r: nat, quote: Quote, receipt: Receipt)
    requires Inv(s) && Open(s, r) && QuoteOk(s, r, quote)
    ensures SettleQuoted(s, r, quote, receipt) == SettleCommit(Paid(s, r, quote), r, receipt)
  {
    SettleCredits(s, r, quote);
    SettleVaults(s, r, quote);
  }

  lemma {:induction false} PaidPaysOut(s: State, r: nat, quote: Quote)
    requires Inv(s) && Open(s, r) && QuoteOk(s, r, quote)
    ensures var p := Paid(s, r, quote);
            && p == s.(accounts := p.accounts, vaults := p.vaults)
            && AccountsGain(s.accounts, p.accounts, Column(s, r), Payout(s.reservations[r], quote))
            && VaultsClear(s.vaults, p.vaults, s.reservations[r].plan.hops, To(Sink(s, quote), quote.reserveFee))
            && PaysOut(s, p, r)
  {
    SettleCredits(s, r, quote);
    SettleVaults(s, r, quote);
  }

  lemma SettleCommitFrame(p: State, r: nat, receipt: Receipt)
    requires r < |p.reservations|
    ensures var o := SettleCommit(p, r, receipt);
            && o.after == p.(reservations := p.reservations[r := p.reservations[r].(state := Settled)],
                          epoch := receipt.epoch, receipts := p.receipts + [receipt],
                          journal := Journaled(p,
                                               JournalEntry(receipt.epoch, SettledReservation, receipt.id,
                                                            receipt.gross)))
            && o.status == CommitStatus(p, o.after, p.reservations[r].assetId)
  {
  }

  lemma {:induction false} SettlePays(s: State, p: State, r: nat, quote: Quote, receipt: Receipt)
    requires Open(s, r) && QuoteOk(s, r, quote)
    requires p == s.(accounts := p.accounts, vaults := p.vaults)
    requires AccountsGain(s.accounts, p.accounts, Column(s, r), Payout(s.reservations[r], quote))
    requires VaultsClear(s.vaults, p.vaults, s.reservations[r].plan.hops, To(Sink(s, quote), quote.reserveFee))
    requires PaysOut(s, p, r)
    ensures var o := SettleCommit(p, r, receipt);
            && Settles(s, o.after, r, quote, receipt) && PaysOut(s, o.after, r)
            && o.status == CommitStatus(s, o.after, s.reservations[r].assetId)
  {
    SettleCommitFrame(p, r, receipt);
  }

  lemma {:induction false} SettlementKeepsInv(s: State, t: State, r: nat, quote: Quote, receipt: Receipt)
    requires Inv(s) && Open(s, r) && QuoteOk(s, r, quote)
    requires Records(receipt, s.reservations[r].(state := Settled))
    requires Settles(s, t, r, quote, receipt) && PaysOut(s, t, r)
    ensures Inv(t) && ConservationOk(t, s.reservations[r].assetId)
  {
    SettleKeepsReceipts(s, t, r, receipt);
    ClosingKeepsInv(s, t, r, Settled, Payout(s.reservations[r], quote), To(Sink(s, quote), quote.reserveFee));
    ConservedChecks(t, s.reservations[r].assetId);
  }

  /** Once a quote is accepted, no posting refuses: the settlement commits whole. */
  lemma {:induction false} SettleQuotedCommits(s: State, r: nat, quote: Quote, receipt: Receipt)
    requires Inv(s) && Open(s, r) && QuoteOk(s, r, quote)
    requires Records(receipt, s.reservations[r].(state := Settled))
    ensures var o := SettleQuoted(s, r, quote, receipt);
            && o.status == JournalStatus(s)
            && Settles(s, o.after, r, quote, receipt)
            && Inv(o.after)
  {
    PaidPaysOut(s, r, quote);
    SettleReaches(s, r, quote, receipt);
    SettlePays(s, Paid(s, r, quote), r, quote, receipt);
    SettlementKeepsInv(s, SettleQuoted(s, r, quote, receipt).after, r, quote, receipt);
  }
}
