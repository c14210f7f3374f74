/** Reserving an intent: what an accepted reservation changes, and what a refused one leaves behind. */
module ReserveProofs {
  import opened Amounts
  import opened Digests
  import opened Sums
  import opened Routes
  import opened LedgerTypes
  import opened LedgerSteps
  import opened LedgerInvariant
  import opened PendingProofs
  import opened PostingProofs
  import opened ClosingProofs

  // ---------- A failed reservation can only raise pending amounts ----------

  lemma {:induction false} SameBooksKeepCatalog(s: State, t: State)
    requires CatalogOk(s) && t == s.(vaults := t.vaults) && Risen(s.vaults, t.vaults)
    ensures CatalogOk(t) && Extends(s, t)
  {
    RisenKeepsVaults(s.vaults, t.vaults);
    assert forall i | 0 <= i < |s.accounts| :: SameAccount(s.accounts[i], t.accounts[i]);
    forall l | 0 <= l < |t.lanes|
      ensures LaneOk(t, t.lanes[l])
    {
      LaneOkStays(s, t, s.lanes[l]);
    }
    forall v | 0 <= v < |t.vaults|
      ensures AssetAt(t.assets, t.vaults[v].assetId).Some?
    {
      assert SameVault(s.vaults[v], t.vaults[v]);
    }
  }

  lemma {:induction false} AllReservationsStay(s: State, t: State)
    requires ReservationsOk(s) && Extends(s, t) && t.reservations == s.reservations
    ensures ReservationsOk(t)
  {
    forall r | 0 <= r < |t.reservations|
      ensures ReservationOk(t, t.reservations[r])
    {
      ReservationOkStays(s, t, s.reservations[r]);
    }
  }

  lemma {:induction false} SameBooksKeepConservation(s: State, t: State)
    requires Conserved(s) && t == s.(vaults := t.vaults) && Risen(s.vaults, t.vaults)
    ensures Conserved(t)
  {
    forall k | 0 <= k < |t.assets|
      ensures Observed(t, k) == t.issued[k]
    {
      assert Observed(s, k) == s.issued[k];
      SameBookSameHoldings(s.vaults, t.vaults, s.assets[k]);
    }
  }

  lemma {:induction false} RisenKeepsPending(low: seq<Vault>, high: seq<Vault>, reservations: seq<Reservation>)
    requires PendingCovers(low, reservations) && Risen(low, high)
    ensures PendingCovers(high, reservations)
  {
    forall v | 0 <= v < |high|
      ensures Covered(high[v], reservations)
    {
      assert Covered(low[v], reservations) && SameBook(low[v], high[v]);
    }
  }

  lemma {:induction false} RisenKeepsInv(s: State, t: State)
    requires Inv(s) && t == s.(vaults := t.vaults) && Risen(s.vaults, t.vaults)
    ensures Inv(t)
  {
    SameBooksKeepCatalog(s, t);
    AllReservationsStay(s, t);
    SameBooksKeepConservation(s, t);
    RisenKeepsPending(s.vaults, t.vaults, s.reservations);
  }

  // ---------- An admitted intent ----------

  lemma {:induction false} AdmittedHops(s: State, terms: Terms)
    requires PlanStatus(s, terms) == Ok
    ensures HopsOk(s, terms.assetId, terms.gross, terms.plan.hops) && Routed(s.vaults, terms.plan.hops)
  {
    forall i | 0 <= i < |terms.plan.hops|
      ensures HopOk(s, terms.assetId, terms.gross, terms.plan.hops[i])
      ensures VaultAt(s.vaults, terms.plan.hops[i].fromVault).Some?
              && VaultAt(s.vaults, terms.plan.hops[i].toVault).Some?
    {
      assert HopStatus(s, terms, terms.plan.hops[i]) == Ok;
    }
  }

  lemma {:induction false} AdmittedReservation(h: Hashes, s: State, signed: SignedIntent)
    requires LanesKnown(s) && AdmissionStatus(h, s, signed) == Ok
    ensures ReservationOk(s, NewReservation(h, signed.terms, s.epoch))
    ensures AccountAt(s.accounts, signed.terms.payer).Some?
    ensures signed.terms.gross <= BalanceOf(s, signed.terms.payer, signed.terms.assetId)
    ensures |s.reservations| < MAX_RESERVATIONS && !IntentKnown(s.reservations, signed.terms.intentId)
    ensures Routed(s.vaults, signed.terms.plan.hops)
  {
    AdmittedHops(s, signed.terms);
  }

  /** `b` is `a` after reserving: the payer is debited the gross amount and its nonce advances. */
  predicate AccountReserves(a: Account, b: Account, k: nat, payer: Digest, gross: nat)
    requires k < MAX_ASSETS
  {
    && SameAccount(a, b)
    && b.intentNonce == a.intentNonce + (if a.id == payer then 1 else 0)
    && a.balances[k] == b.balances[k] + (if a.id == payer then gross else 0)
    && forall c | 0 <= c < MAX_ASSETS && c != k :: b.balances[c] == a.balances[c]
  }

  predicate AccountsReserve(before: seq<Account>, after: seq<Account>, k: nat, payer: Digest, gross: nat)
    requires k < MAX_ASSETS
  {
    && |before| == |after|
    && forall i {:trigger AccountReserves(before[i], after[i], k, payer, gross)} | 0 <= i < |before| ::
         AccountReserves(before[i], after[i], k, payer, gross)
  }

  /** Everything a committed reservation changes. */
  predicate Reserves(s: State, t: State, reservation: Reservation)
    requires AssetAt(s.assets, reservation.assetId).Some?
  {
    && SameFrame(s, t) && t.epoch == s.epoch && t.receipts == s.receipts
    && AccountsReserve(s.accounts, t.accounts, AssetAt(s.assets, reservation.assetId).value, reservation.payer,
                       reservation.gross)
    && Raised(s.vaults, t.vaults, reservation.plan.hops)
    && t.reservations == s.reservations + [reservation]
    && t.journal == Journaled(s, JournalEntry(s.epoch, ReservedIntent, reservation.id, reservation.gross))
  }

  /** The gross amount left the accounts and went nowhere but the reservation. */
  predicate Locks(s: State, t: State, reservation: Reservation)
    requires AssetAt(s.assets, reservation.assetId).Some?
  {
    var k := AssetAt(s.assets, reservation.assetId).value;
    && Sum(t.accounts, BalanceIn(k)) + reservation.gross == Sum(s.accounts, BalanceIn(k))
    && forall c | 0 <= c < MAX_ASSETS && c != k :: Sum(t.accounts, BalanceIn(c)) == Sum(s.accounts, BalanceIn(c))
  }

  lemma {:induction false} ReserveKeepsAccounts(s: State, t: State, reservation: Reservation)
    requires AccountsOk(s.accounts) && ColumnsOk(s.assets, s.accounts, s.issued)
    requires AssetAt(s.assets, reservation.assetId).Some? && Reserves(s, t, reservation)
    ensures AccountsExtend(s.accounts, t.accounts) && AccountsOk(t.accounts)
    ensures ColumnsOk(t.assets, t.accounts, t.issued)
  {
    var k := AssetAt(s.assets, reservation.assetId).value;
    forall i | 0 <= i < |s.accounts|
      ensures SameAccount(s.accounts[i], t.accounts[i]) && EmptyBeyond(t.accounts[i].balances, |s.assets|)
    {
      assert AccountReserves(s.accounts[i], t.accounts[i], k, reservation.payer, reservation.gross);
      assert EmptyBeyond(s.accounts[i].balances, |s.assets|);
    }
  }

  lemma {:induction false} ReserveKeepsCatalog(s: State, t: State, reservation: Reservation)
    requires CatalogOk(s) && AssetAt(s.assets, reservation.assetId).Some? && Reserves(s, t, reservation)
    ensures CatalogOk(t) && Extends(s, t)
  {
    ReserveKeepsAccounts(s, t, reservation);
    RaisedIsRisen(s.vaults, t.vaults, reservation.plan.hops);
    RisenKeepsVaults(s.vaults, t.vaults);
    forall l | 0 <= l < |t.lanes|
      ensures LaneOk(t, t.lanes[l])
    {
      LaneOkStays(s, t, s.lanes[l]);
    }
    forall v | 0 <= v < |t.vaults|
      ensures AssetAt(t.assets, t.vaults[v].assetId).Some?
    {
      assert SameVault(s.vaults[v], t.vaults[v]);
    }
  }

  lemma {:induction false} ReserveKeepsReservations(s: State, t: State, reservation: Reservation)
    requires ReservationsOk(s) && Extends(s, t) && ReservationOk(s, reservation)
    requires |s.reservations| < MAX_RESERVATIONS && !IntentKnown(s.reservations, reservation.intentId)
    requires ReservationAt(s.reservations, reservation.id).None?
    requires t.reservations == s.reservations + [reservation]
    ensures ReservationsOk(t)
  {
    DistinctAppend(s.reservations, reservation);
    forall r | 0 <= r < |t.reservations|
      ensures ReservationOk(t, t.reservations[r])
    {
      var other := t.reservations[r];
      assert r < |s.reservations| ==> other == s.reservations[r];
      ReservationOkStays(s, t, other);
    }
  }

  lemma {:induction false} DistinctAppend(reservations: seq<Reservation>, reservation: Reservation)
    requires DistinctReservations(reservations) && |reservations| < MAX_RESERVATIONS
    requires !IntentKnown(reservations, reservation.intentId) && ReservationAt(reservations, reservation.id).None?
    ensures DistinctReservations(reservations + [reservation])
  {
  }

  lemma {:induction false} ReserveKeepsConservation(s: State, t: State, reservation: Reservation)
    requires AssetsOk(s.assets) && Conserved(s) && reservation.state == Reserved
    requires AssetAt(s.assets, reservation.assetId).Some? && Reserves(s, t, reservation) && Locks(s, t, reservation)
    ensures Conserved(t)
  {
    var k := AssetAt(s.assets, reservation.assetId).value;
    RaisedIsRisen(s.vaults, t.vaults, reservation.plan.hops);
    forall c | 0 <= c < |t.assets|
      ensures Observed(t, c) == t.issued[c]
    {
      assert Observed(s, c) == s.issued[c];
      SameBookSameHoldings(s.vaults, t.vaults, s.assets[c]);
      SumAppend(s.reservations, reservation, LockedAs(s.assets[c]));
      if c != k {
        assert s.assets[c] != reservation.assetId;
      }
    }
  }

  lemma {:induction false} ReserveKeepsPending(s: State, t: State, reservation: Reservation)
    requires PendingCovers(s.vaults, s.reservations) && reservation.state == Reserved
    requires AssetAt(s.assets, reservation.assetId).Some? && Reserves(s, t, reservation)
    ensures PendingCovers(t.vaults, t.reservations)
  {
    forall v | 0 <= v < |t.vaults|
      ensures Covered(t.vaults[v], t.reservations)
    {
      assert RaisedAt(s.vaults[v], t.vaults[v], reservation.plan.hops);
      assert Covered(s.vaults[v], s.reservations);
      SumAppend(s.reservations, reservation, OwedOut(s.vaults[v].id));
      SumAppend(s.reservations, reservation, OwedIn(s.vaults[v].id));
    }
  }

  lemma {:induction false} ReserveKeepsNonces(s: State, t: State, reservation: Reservation)
    requires NoncesCount(s.accounts, s.reservations)
    requires AssetAt(s.assets, reservation.assetId).Some? && Reserves(s, t, reservation)
    ensures NoncesCount(t.accounts, t.reservations)
  {
    forall i | 0 <= i < |t.accounts|
      ensures t.accounts[i].intentNonce == Sum(t.reservations, PaidBy(t.accounts[i].id))
    {
      assert AccountReserves(s.accounts[i], t.accounts[i], AssetAt(s.assets, reservation.assetId).value,
                             reservation.payer, reservation.gross);
      SumAppend(s.reservations, reservation, PaidBy(s.accounts[i].id));
    }
  }

  lemma {:induction false} ReserveKeepsReceipts(s: State, t: State, reservation: Reservation)
    requires ReceiptsOk(s.reservations, s.receipts) && reservation.state == Reserved
    requires t.reservations == s.reservations + [reservation] && t.receipts == s.receipts
    ensures ReceiptsOk(t.reservations, t.receipts)
  {
    SumAppend(s.reservations, reservation, IsSettled());
    forall i | 0 <= i < |t.receipts|
      ensures Recorded(t.reservations, t.receipts[i])
    {
      assert Recorded(s.reservations, s.receipts[i]);
      SameIdsSamePlace(s.reservations, t.reservations, s.receipts[i].reservationId);
    }
  }

  lemma {:induction false} ReservingKeepsInv(s: State, t: State, reservation: Reservation)
    requires Inv(s) && ReservationOk(s, reservation) && reservation.state == Reserved
    requires |s.reservations| < MAX_RESERVATIONS && !IntentKnown(s.reservations, reservation.intentId)
    requires ReservationAt(s.reservations, reservation.id).None?
    requires Reserves(s, t, reservation) && Locks(s, t, reservation)
    ensures Inv(t) && ConservationOk(t, reservation.assetId)
  {
    ReserveKeepsCatalog(s, t, reservation);
    ReserveKeepsReservations(s, t, reservation);
    ReserveKeepsConservation(s, t, reservation);
    ReserveKeepsPending(s, t, reservation);
    ReserveKeepsNonces(s, t, reservation);
    ReserveKeepsReceipts(s, t, reservation);
    ConservedChecks(t, reservation.assetId);
  }

  // ---------- The writes of a reservation ----------

  lemma {:induction false} NextNonce(before: seq<Account>, debited: seq<Account>, p: nat, k: nat, gross: nat)
    requires AccountsOk(before) && p < |before| && k < MAX_ASSETS
    requires AccountsGain(debited, before, k, To(before[p].id, gross))
    requires before[p].intentNonce < U64_MAX
    ensures AccountsReserve(before, WithNextNonce(debited, p), k, before[p].id, gross)
    ensures forall c | 0 <= c < MAX_ASSETS :: Sum(WithNextNonce(debited, p), BalanceIn(c)) == Sum(debited, BalanceIn(c))
  {
    var after := WithNextNonce(debited, p);
    forall i | 0 <= i < |before|
      ensures AccountReserves(before[i], after[i], k, before[p].id, gross)
    {
      assert AccountGains(debited[i], before[i], k, To(before[p].id, gross)(debited[i].id));
      AccountFound(before, i);
    }
    forall c | 0 <= c < MAX_ASSETS
      ensures Sum(after, BalanceIn(c)) == Sum(debited, BalanceIn(c))
    {
      SumEqual(after, debited, BalanceIn(c), BalanceIn(c));
    }
  }

  lemma {:induction false} NonceHasRoom(s: State, p: nat)
    requires NoncesCount(s.accounts, s.reservations) && |s.reservations| <= MAX_RESERVATIONS && p < |s.accounts|
    ensures s.accounts[p].intentNonce <= MAX_RESERVATIONS
  {
    SumBounded(s.reservations, PaidBy(s.accounts[p].id), 1);
  }

  /** Debiting the payer and advancing its nonce. */
  lemma {:induction false} ReserveAccounts(s: State, payer: Digest, assetId: Digest, gross: Amount)
    requires AccountsOk(s.accounts) && NoncesCount(s.accounts, s.reservations) && |s.reservations| <= MAX_RESERVATIONS
    requires AccountAt(s.accounts, payer).Some? && AssetAt(s.assets, assetId).Some?
    requires gross <= BalanceOf(s, payer, assetId)
    ensures var k, p := AssetAt(s.assets, assetId).value, AccountAt(s.accounts, payer).value;
            var debited := Debit(s.assets, s.accounts, payer, assetId, gross);
            && debited.status == Ok && AccountAt(debited.after, payer) == Some(p)
            && var after := WithNextNonce(debited.after, p);
            && AccountsReserve(s.accounts, after, k, payer, gross)
            && Sum(after, BalanceIn(k)) + gross == Sum(s.accounts, BalanceIn(k))
            && forall c | 0 <= c < MAX_ASSETS && c != k :: Sum(after, BalanceIn(c)) == Sum(s.accounts, BalanceIn(c))
  {
    var k, p := AssetAt(s.assets, assetId).value, AccountAt(s.accounts, payer).value;
    DebitEffect(s.assets, s.accounts, payer, assetId, gross);
    var debited := Debit(s.assets, s.accounts, payer, assetId, gross).after;
    GainsKeep(debited, s.accounts, k, To(payer, gross));
    AccountStays(s.accounts, debited, payer);
    NonceHasRoom(s, p);
    NextNonce(s.accounts, debited, p, k, gross);
  }

  lemma ReserveCommitFrame(p: State, reservation: Reservation)
    requires AccountAt(p.accounts, reservation.payer).Some?
    ensures var o := ReserveCommit(p, reservation);
            && o.after == p.(accounts := WithNextNonce(p.accounts, AccountAt(p.accounts, reservation.payer).value),
                          reservations := p.reservations + [reservation],
                          journal := Journaled(p,
                                               JournalEntry(p.epoch, ReservedIntent, reservation.id,
                                                            reservation.gross)))
            && o.status == CommitStatus(p, o.after, reservation.assetId)
  {
  }

  /** The state an accepted reservation is committed from. */
  function Funded(s: State, reservation: Reservation): State {
    s.(vaults := UpdateRoutePending(s.vaults, reservation.plan.hops, false).after,
    accounts := Debit(s.assets, s.accounts, reservation.payer, reservation.assetId, reservation.gross).after)
  }

  lemma {:induction false} CommitReserves(s: State, p: State, reservation: Reservation)
    requires AssetAt(s.assets, reservation.assetId).Some? && AccountAt(p.accounts, reservation.payer).Some?
    requires p == s.(accounts := p.accounts, vaults := p.vaults)
    requires Raised(s.vaults, p.vaults, reservation.plan.hops)
    requires var after := WithNextNonce(p.accounts, AccountAt(p.accounts, reservation.payer).value);
             && AccountsReserve(s.accounts, after, AssetAt(s.assets, reservation.assetId).value, reservation.payer,
                                reservation.gross)
             && Locks(s, p.(accounts := after), reservation)
    ensures var o := ReserveCommit(p, reservation);
            && Reserves(s, o.after, reservation) && Locks(s, o.after, reservation)
            && o.status == CommitStatus(s, o.after, reservation.assetId)
  {
    ReserveCommitFrame(p, reservation);
  }

  lemma {:induction false} FundedReserves(s: State, reservation: Reservation)
    requires AccountsOk(s.accounts) && NoncesCount(s.accounts, s.reservations) && |s.reservations| <= MAX_RESERVATIONS
    requires VaultsOk(s.vaults) && ReservationOk(s, reservation)
    requires reservation.gross <= BalanceOf(s, reservation.payer, reservation.assetId)
    requires Routed(s.vaults, reservation.plan.hops)
    requires UpdateRoutePending(s.vaults, reservation.plan.hops, false).status == Ok
    ensures Debit(s.assets, s.accounts, reservation.payer, reservation.assetId, reservation.gross).status == Ok
    ensures var o := ReserveCommit(Funded(s, reservation), reservation);
            && Reserves(s, o.after, reservation) && Locks(s, o.after, reservation)
            && o.status == CommitStatus(s, o.after, reservation.assetId)
  {
    AddRoute(s.vaults, reservation.plan.hops);
    ReserveAccounts(s, reservation.payer, reservation.assetId, reservation.gross);
    CommitReserves(s, Funded(s, reservation), reservation);
  }

  /** The hops of an intent's route before the first that overflows. */
  function AppliedHops(s: State, signed: SignedIntent): seq<Hop> {
    signed.terms.plan.hops[..Applied(s.vaults, signed.terms.plan.hops)]
  }

  /** The possible ends of a reserve call from any ledger whose records are sound. An overflowing route leaves the hops
      before the overflow pending, so the ledger is as before exactly when the first hop that carries something does not
      fit. */
  lemma {:induction false} ReserveEnds(h: Hashes, s: State, signed: SignedIntent)
    requires AccountsOk(s.accounts) && NoncesCount(s.accounts, s.reservations) && |s.reservations| <= MAX_RESERVATIONS
    requires VaultsOk(s.vaults) && LanesKnown(s)
    ensures var o, reservation := Reserve(h, s, signed), NewReservation(h, signed.terms, s.epoch);
            var pending := UpdateRoutePending(s.vaults, signed.terms.plan.hops, false);
            if AdmissionStatus(h, s, signed) != Ok then o == Posted(AdmissionStatus(h, s, signed), s)
            else if pending.status != Ok then
              && o == Posted(ErrState, s.(vaults := pending.after)) && Risen(s.vaults, pending.after)
              && (pending.after == s.vaults <==> !FirstLoadFits(s.vaults, signed.terms.plan.hops))
              && Raised(s.vaults, pending.after, AppliedHops(s, signed))
            else if ReservationAt(s.reservations, reservation.id).Some? then o == Posted(ErrDuplicate, s)
            else
              && ReservationOk(s, reservation)
              && Reserves(s, o.after, reservation) && Locks(s, o.after, reservation)
              && o.status == CommitStatus(s, o.after, reservation.assetId)
  {
    var terms, reservation := signed.terms, NewReservation(h, signed.terms, s.epoch);
    if AdmissionStatus(h, s, signed) == Ok {
      var pending := UpdateRoutePending(s.vaults, terms.plan.hops, false);
      AdmittedReservation(h, s, signed);
      AddRoute(s.vaults, terms.plan.hops);
      AddRouteOutcome(s.vaults, terms.plan.hops);
      hide Applied, Silent, Raised, RouteFits, FirstLoadFits;
      if pending.status == Ok {
        if ReservationAt(s.reservations, reservation.id).Some? {
          AddThenRelease(s.vaults, terms.plan.hops);
        } else {
          FundedReserves(s, reservation);
          assert Reserve(h, s, signed) == ReserveCommit(Funded(s, reservation), reservation);
        }
      }
    }
  }

  /** From a valid ledger all of them keep the invariant, and a committed call reports what the journal has room for. */
  lemma {:induction false} ReserveOutcomes(h: Hashes, s: State, signed: SignedIntent)
    requires Inv(s)
    ensures var o, reservation := Reserve(h, s, signed), NewReservation(h, signed.terms, s.epoch);
            var pending := UpdateRoutePending(s.vaults, signed.terms.plan.hops, false);
            && Inv(o.after)
            && if AdmissionStatus(h, s, signed) != Ok then o == Posted(AdmissionStatus(h, s, signed), s)
               else if pending.status != Ok then
                 && o == Posted(ErrState, s.(vaults := pending.after)) && Risen(s.vaults, pending.after)
                 && (pending.after == s.vaults <==> !FirstLoadFits(s.vaults, signed.terms.plan.hops))
                 && Raised(s.vaults, pending.after, AppliedHops(s, signed))
               else if ReservationAt(s.reservations, reservation.id).Some? then o == Posted(ErrDuplicate, s)
               else
                 && ReservationOk(s, reservation)
                 && Reserves(s, o.after, reservation) && o.status == JournalStatus(s)
  {
    InvParts(s);
    ReserveEnds(h, s, signed);
    ReserveKeepsInv(h, s, signed);
    if AdmissionStatus(h, s, signed) == Ok {
      AdmittedReservation(h, s, signed);
    }
    hide *;
  }

  lemma {:induction false} ReserveKeepsInv(h: Hashes, s: State, signed: SignedIntent)
    requires Inv(s)
    ensures var o, reservation := Reserve(h, s, signed), NewReservation(h, signed.terms, s.epoch);
            && Inv(o.after)
            && (&& AdmissionStatus(h, s, signed) == Ok
                && UpdateRoutePending(s.vaults, signed.terms.plan.hops, false).status == Ok
                && ReservationAt(s.reservations, reservation.id).None?
                ==> o.status == JournalStatus(s))
  {
    var o, reservation := Reserve(h, s, signed), NewReservation(h, signed.terms, s.epoch);
    var pending := UpdateRoutePending(s.vaults, signed.terms.plan.hops, false);
    InvParts(s);
    FewReservations(s);
    NewIsReserved(h, signed.terms, s.epoch);
    hide *;
    ReserveEnds(h, s, signed);
    if AdmissionStatus(h, s, signed) == Ok {
      AdmittedReservation(h, s, signed);
      if pending.status != Ok {
        RisenKeepsInv(s, s.(vaults := pending.after));
      } else if ReservationAt(s.reservations, reservation.id).None? {
        ReservingKeepsInv(s, o.after, reservation);
        CommitChecks(s, o.after, reservation.assetId);
      }
    }
  }

  lemma NewIsReserved(h: Hashes, terms: Terms, epoch: Amount)
    ensures NewReservation(h, terms, epoch).state == Reserved
    ensures NewReservation(h, terms, epoch).intentId == terms.intentId
  {
  }

  lemma CommitChecks(s: State, t: State, assetId: Digest)
    requires ConservationOk(t, assetId)
    ensures CommitStatus(s, t, assetId) == JournalStatus(s)
  {
    hide ConservationOk;
  }

  lemma FewReservations(s: State)
    requires DistinctReservations(s.reservations)
    ensures |s.reservations| <= MAX_RESERVATIONS
  {
  }

  // ---------- What a reserve call leaves behind ----------

  /** The call is admitted, and all checks after the first write pass. */
  predicate Commits(h: Hashes, s: State, signed: SignedIntent) {
    && AdmissionStatus(h, s, signed) == Ok
    && RouteFits(s.vaults, signed.terms.plan.hops)
    && ReservationAt(s.reservations, NewReservation(h, signed.terms, s.epoch).id).None?
  }

  /** The call is admitted, some vault lacks room for its route, but the first hop that carries something fits. */
  predicate Strands(h: Hashes, s: State, signed: SignedIntent) {
    var hops := signed.terms.plan.hops;
    AdmissionStatus(h, s, signed) == Ok && !RouteFits(s.vaults, hops) && FirstLoadFits(s.vaults, hops)
  }

  lemma {:induction false} AdmittedRoute(h: Hashes, s: State, signed: SignedIntent)
    requires Inv(s) && AdmissionStatus(h, s, signed) == Ok
    ensures VaultsOk(s.vaults) && Routed(s.vaults, signed.terms.plan.hops)
  {
    InvParts(s);
    hide Inv, AdmissionStatus;
    AdmittedReservation(h, s, signed);
  }

  /** A reserve call leaves the ledger as it was exactly when it neither commits nor strands. A stranding call reports a
      state error and leaves the hops before the overflowing one pending, and nothing else. */
  lemma {:induction false} ReserveUnchangedIff(h: Hashes, s: State, signed: SignedIntent)
    requires Inv(s)
    ensures var o := Reserve(h, s, signed);
            && (o.after == s <==> !Commits(h, s, signed) && !Strands(h, s, signed))
            && (Commits(h, s, signed) <==> |o.after.reservations| == |s.reservations| + 1)
            && (Strands(h, s, signed) ==>
                  && o == Posted(ErrState, s.(vaults := o.after.vaults))
                  && Raised(s.vaults, o.after.vaults, AppliedHops(s, signed)))
  {
    hide Inv, AdmissionStatus, Reserve, ReservationOk, AccountsReserve, Raised, Risen, Silent, RouteFits, FirstLoadFits;
    ReserveOutcomes(h, s, signed);
    if AdmissionStatus(h, s, signed) == Ok {
      AdmittedRoute(h, s, signed);
      AddRouteOutcome(s.vaults, signed.terms.plan.hops);
    }
  }
}
