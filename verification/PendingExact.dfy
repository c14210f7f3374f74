/** Pending amounts against what open reservations promise: when they are equal, and how an excess persists. */
module PendingExact {
  import opened Amounts
  import opened Digests
  import opened Sums
  import opened Routes
  import opened LedgerTypes
  import opened LedgerSteps
  import opened LedgerInvariant
  import opened PendingProofs
  import opened PostingProofs
  import opened ClosingProofs
  import opened ReserveProofs
  import opened SettleProofs
  import opened CatalogProofs
  import opened Runs

  predicate Exact(vault: Vault, reservations: seq<Reservation>) {
    && vault.pendingOut == Sum(reservations, OwedOut(vault.id))
    && vault.pendingIn == Sum(reservations, OwedIn(vault.id))
  }

  predicate AllExact(vaults: seq<Vault>, reservations: seq<Reservation>) {
    forall v {:trigger Exact(vaults[v], reservations)} | 0 <= v < |vaults| :: Exact(vaults[v], reservations)
  }

  /** Eight hops of the whole supply still fit in 64 bits. */
  predicate SmallSupply(issued: Columns) {
    forall k | 0 <= k < MAX_ASSETS :: MAX_ROUTE_HOPS * issued[k] <= U64_MAX
  }

  // ---------- Eight hops bound what a reservation owes a vault ----------

  lemma {:induction false} RouteUnderGross(s: State, assetId: Digest, gross: Amount, hops: seq<Hop>, v: nat)
    requires VaultsOk(s.vaults) && v < |s.vaults| && HopsOk(s, assetId, gross, hops)
    ensures var bound := if s.vaults[v].assetId == assetId then MAX_ROUTE_HOPS * gross else 0;
            Sum(hops, HopOut(s.vaults[v].id)) <= bound && Sum(hops, HopIn(s.vaults[v].id)) <= bound
  {
    var id := s.vaults[v].id;
    VaultFound(s.vaults, v);
    var limit := if s.vaults[v].assetId == assetId then gross else 0;
    forall i | 0 <= i < |hops|
      ensures HopOut(id)(hops[i]) <= limit && HopIn(id)(hops[i]) <= limit
    {
      assert HopOk(s, assetId, gross, hops[i]);
    }
    SumBounded(hops, HopOut(id), limit);
    SumBounded(hops, HopIn(id), limit);
    MulMonotone(|hops|, MAX_ROUTE_HOPS, limit);
  }

  lemma {:induction false} OwedUnderLocked(s: State, v: nat)
    requires VaultsOk(s.vaults) && ReservationsOk(s) && v < |s.vaults|
    ensures var id, asset := s.vaults[v].id, s.vaults[v].assetId;
            && Sum(s.reservations, OwedOut(id)) <= MAX_ROUTE_HOPS * Sum(s.reservations, LockedAs(asset))
            && Sum(s.reservations, OwedIn(id)) <= MAX_ROUTE_HOPS * Sum(s.reservations, LockedAs(asset))
  {
    var id, asset := s.vaults[v].id, s.vaults[v].assetId;
    forall r | 0 <= r < |s.reservations|
      ensures OwedOut(id)(s.reservations[r]) <= MAX_ROUTE_HOPS * LockedAs(asset)(s.reservations[r])
      ensures OwedIn(id)(s.reservations[r]) <= MAX_ROUTE_HOPS * LockedAs(asset)(s.reservations[r])
    {
      var reservation := s.reservations[r];
      assert ReservationOk(s, reservation);
      RouteUnderGross(s, reservation.assetId, reservation.gross, reservation.plan.hops, v);
    }
    SumScaled(s.reservations, OwedOut(id), LockedAs(asset), MAX_ROUTE_HOPS);
    SumScaled(s.reservations, OwedIn(id), LockedAs(asset), MAX_ROUTE_HOPS);
  }

  /** A payer's balance and everything locked fit under the supply together. */
  lemma {:induction false} BalanceAndLocked(s: State, payer: Digest, assetId: Digest, gross: Amount)
    requires Conserved(s) && AssetAt(s.assets, assetId).Some? && AccountAt(s.accounts, payer).Some?
    requires gross <= BalanceOf(s, payer, assetId)
    ensures Sum(s.reservations, LockedAs(assetId)) + gross <= s.issued[AssetAt(s.assets, assetId).value]
  {
    var k := AssetAt(s.assets, assetId).value;
    assert Observed(s, k) == s.issued[k];
    SumCovers(s.accounts, AccountAt(s.accounts, payer).value, BalanceIn(k));
  }

  lemma {:induction false} ExactVaultHasRoom(s: State, reservation: Reservation, v: nat)
    requires CatalogOk(s) && ReservationsOk(s) && Conserved(s) && SmallSupply(s.issued)
    requires ReservationOk(s, reservation) && v < |s.vaults| && Exact(s.vaults[v], s.reservations)
    requires reservation.gross <= BalanceOf(s, reservation.payer, reservation.assetId)
    ensures HasRoom(s.vaults[v], reservation.plan.hops)
  {
    var asset := s.vaults[v].assetId;
    var k := AssetAt(s.assets, asset).value;
    OwedUnderLocked(s, v);
    RouteUnderGross(s, reservation.assetId, reservation.gross, reservation.plan.hops, v);
    assert Observed(s, k) == s.issued[k];
    if asset == reservation.assetId {
      BalanceAndLocked(s, reservation.payer, reservation.assetId, reservation.gross);
    }
    assert MAX_ROUTE_HOPS * s.issued[k] <= U64_MAX;
  }

  /** With exact pending amounts and a small supply, adding an admitted route never overflows. */
  lemma {:induction false} AdmittedRouteFits(h: Hashes, s: State, signed: SignedIntent)
    requires Inv(s) && SmallSupply(s.issued) && AllExact(s.vaults, s.reservations)
    requires AdmissionStatus(h, s, signed) == Ok
    ensures UpdateRoutePending(s.vaults, signed.terms.plan.hops, false).status == Ok
  {
    hide AdmissionStatus;
    var reservation := NewReservation(h, signed.terms, s.epoch);
    LanesOkKnown(s);
    AdmittedReservation(h, s, signed);
    forall v | 0 <= v < |s.vaults|
      ensures HasRoom(s.vaults[v], signed.terms.plan.hops)
    {
      assert Exact(s.vaults[v], s.reservations);
      ExactVaultHasRoom(s, reservation, v);
    }
    AddRouteFits(s.vaults, signed.terms.plan.hops);
  }

  // ---------- Exactness is kept ----------

  lemma {:induction false} ReservingKeepsExact(s: State, t: State, reservation: Reservation)
    requires AllExact(s.vaults, s.reservations) && reservation.state == Reserved
    requires AssetAt(s.assets, reservation.assetId).Some? && Reserves(s, t, reservation)
    ensures AllExact(t.vaults, t.reservations)
  {
    forall v | 0 <= v < |t.vaults|
      ensures Exact(t.vaults[v], t.reservations)
    {
      assert RaisedAt(s.vaults[v], t.vaults[v], reservation.plan.hops) && Exact(s.vaults[v], s.reservations);
      SumAppend(s.reservations, reservation, OwedOut(s.vaults[v].id));
      SumAppend(s.reservations, reservation, OwedIn(s.vaults[v].id));
    }
  }

  lemma {:induction false} ClosingKeepsExact(s: State, t: State, r: nat, outcome: ReservationState,
                                             paid: Digest -> nat, kept: Digest -> nat)
    requires AllExact(s.vaults, s.reservations) && Open(s, r) && outcome != Reserved
    requires Closes(s, t, r, outcome, paid, kept)
    ensures AllExact(t.vaults, t.reservations)
  {
    var closed := s.reservations[r].(state := outcome);
    forall v | 0 <= v < |t.vaults|
      ensures Exact(t.vaults[v], t.reservations)
    {
      var id := s.vaults[v].id;
      assert VaultClears(s.vaults[v], t.vaults[v], s.reservations[r].plan.hops, kept(id));
      assert Exact(s.vaults[v], s.reservations);
      SumUpdate(s.reservations, r, closed, OwedOut(id));
      SumUpdate(s.reservations, r, closed, OwedIn(id));
    }
  }

  lemma {:induction false} AddVaultKeepsExact(h: Hashes, s: State, name: string, assetId: Digest, initial: Amount)
    requires ReservationsOk(s) && AllExact(s.vaults, s.reservations)
    ensures var t := AddVault(h, s, name, assetId, initial).after; AllExact(t.vaults, t.reservations)
  {
    var o := AddVault(h, s, name, assetId, initial);
    hide AllExact, ReservationsOk;
    if o.status == Ok {
      NewVaultIsExact(s, o.after, Vault(h.vault(name, assetId), assetId, initial, 0, 0, true));
    }
  }

  lemma {:induction false} NewVaultIsExact(s: State, t: State, vault: Vault)
    requires ReservationsOk(s) && AllExact(s.vaults, s.reservations) && VaultAt(s.vaults, vault.id).None?
    requires vault.pendingOut == 0 && vault.pendingIn == 0
    requires t.vaults == s.vaults + [vault] && t.reservations == s.reservations
    ensures AllExact(t.vaults, t.reservations)
  {
    NewVaultOwesNothing(s, vault.id);
    forall v | 0 <= v < |t.vaults|
      ensures Exact(t.vaults[v], t.reservations)
    {
      assert v < |s.vaults| ==> Exact(s.vaults[v], s.reservations);
    }
  }

  lemma {:induction false} ReserveKeepsExact(h: Hashes, s: State, signed: SignedIntent)
    requires Inv(s) && SmallSupply(s.issued) && AllExact(s.vaults, s.reservations)
    ensures var t := Reserve(h, s, signed).after; AllExact(t.vaults, t.reservations)
  {
    hide Inv, Reserve, AdmissionStatus, ReservationOk, Reserves;
    ReserveOutcomes(h, s, signed);
    if AdmissionStatus(h, s, signed) == Ok {
      AdmittedRouteFits(h, s, signed);
      var reservation := NewReservation(h, signed.terms, s.epoch);
      if ReservationAt(s.reservations, reservation.id).None? {
        OkNamesAsset(s, reservation);
        ReservingKeepsExact(s, Reserve(h, s, signed).after, reservation);
      }
    }
  }

  lemma OkNamesAsset(s: State, reservation: Reservation)
    requires ReservationOk(s, reservation)
    ensures AssetAt(s.assets, reservation.assetId).Some?
  {
  }

  lemma {:induction false} SettleKeepsExact(h: Hashes, s: State, id: Digest, epoch: Amount)
    requires Inv(s) && AllExact(s.vaults, s.reservations)
    ensures var t := Settle(h, s, id, epoch).after; AllExact(t.vaults, t.reservations)
  {
    hide Inv, Settle, SettlementQuote, Closes;
    SettleAllOrNothing(h, s, id, epoch);
    if SettlementQuote(h, s, id, epoch).Success? {
      var r, quote := ReservationAt(s.reservations, id).value, SettlementQuote(h, s, id, epoch).value;
      ClosingKeepsExact(s, Settle(h, s, id, epoch).after, r, Settled, Payout(s.reservations[r], quote),
                        To(Sink(s, quote), quote.reserveFee));
    }
  }

  lemma {:induction false} CancelKeepsExact(s: State, id: Digest, epoch: Amount)
    requires Inv(s) && AllExact(s.vaults, s.reservations)
    ensures var t := Cancel(s, id, epoch).after; AllExact(t.vaults, t.reservations)
  {
    hide Inv, Cancel, CancelStatus, Closes;
    CancelOutcomes(s, id, epoch);
    if CancelStatus(s, id, epoch) == Ok {
      var r := ReservationAt(s.reservations, id).value;
      ClosingKeepsExact(s, Cancel(s, id, epoch).after, r, Cancelled,
                        To(s.reservations[r].payer, s.reservations[r].gross), Nobody());
    }
  }

  lemma {:induction false} StepKeepsExact(h: Hashes, s: State, c: Command)
    requires Inv(s) && SmallSupply(s.issued) && AllExact(s.vaults, s.reservations)
    ensures var t := Step(h, s, c).after; AllExact(t.vaults, t.reservations)
  {
    hide AllExact, Inv, SmallSupply;
    match c
    case CReserve(signed) => ReserveKeepsExact(h, s, signed);
    case CSettle(id, epoch) => SettleKeepsExact(h, s, id, epoch);
    case CCancel(id, epoch) => CancelKeepsExact(s, id, epoch);
    case CAddVault(name, asset, initial) => InvReservations(s); AddVaultKeepsExact(h, s, name, asset, initial);
    case _ => SameVaultsAndReservations(h, s, c);
  }

  lemma InvReservations(s: State)
    requires Inv(s)
    ensures ReservationsOk(s)
  {
  }

  lemma SameVaultsAndReservations(h: Hashes, s: State, c: Command)
    requires c.CAddAsset? || c.CAddAccount? || c.CAddLane? || c.CDeposit?
    ensures Step(h, s, c).after.vaults == s.vaults && Step(h, s, c).after.reservations == s.reservations
  {
  }

  /** Along any run whose issued supplies stay small, every vault's pending amounts are exactly the amounts its open
      reservations still owe. */
  lemma {:induction false} RunKeepsExact(h: Hashes, networkId: U32, commands: seq<Command>)
    requires AdmissibleFrom(h, Init(networkId), commands)
    requires SmallSupply(RunFrom(h, Init(networkId), commands).issued)
    ensures var s := RunFrom(h, Init(networkId), commands); AllExact(s.vaults, s.reservations)
  {
    hide Inv, Step, Admissible, AllExact, Extends;
    InitInv(networkId);
    if |commands| > 0 {
      var front := commands[..|commands| - 1];
      var s := RunFrom(h, Init(networkId), front);
      RunKeepsInv(h, Init(networkId), front);
      StepEvolves(h, s, Last(commands));
      RunKeepsExact(h, networkId, front);
      StepKeepsExact(h, s, Last(commands));
    } else {
      NoVaultsExact(networkId);
    }
  }

  lemma NoVaultsExact(networkId: U32)
    ensures AllExact(Init(networkId).vaults, Init(networkId).reservations)
  {
  }

  // ---------- An excess never shrinks ----------

  /** What is pending at a vault beyond what open reservations owe it. */
  function ExcessOut(vault: Vault, reservations: seq<Reservation>): int {
    vault.pendingOut - Sum(reservations, OwedOut(vault.id))
  }

  function ExcessIn(vault: Vault, reservations: seq<Reservation>): int {
    vault.pendingIn - Sum(reservations, OwedIn(vault.id))
  }

  predicate ExcessGrowsAt(s: State, t: State, v: nat)
    requires v < |s.vaults| <= |t.vaults|
  {
    && ExcessOut(s.vaults[v], s.reservations) <= ExcessOut(t.vaults[v], t.reservations)
    && ExcessIn(s.vaults[v], s.reservations) <= ExcessIn(t.vaults[v], t.reservations)
  }

  predicate ExcessGrows(s: State, t: State) {
    && |s.vaults| <= |t.vaults|
    && forall v {:trigger ExcessGrowsAt(s, t, v)} | 0 <= v < |s.vaults| :: ExcessGrowsAt(s, t, v)
  }

  lemma {:induction false} ReservingKeepsExcess(s: State, t: State, reservation: Reservation)
    requires reservation.state == Reserved && AssetAt(s.assets, reservation.assetId).Some?
             && Reserves(s, t, reservation)
    ensures ExcessGrows(s, t)
  {
    forall v | 0 <= v < |s.vaults|
      ensures ExcessGrowsAt(s, t, v)
    {
      assert RaisedAt(s.vaults[v], t.vaults[v], reservation.plan.hops);
      SumAppend(s.reservations, reservation, OwedOut(s.vaults[v].id));
      SumAppend(s.reservations, reservation, OwedIn(s.vaults[v].id));
    }
  }

  lemma {:induction false} ClosingKeepsExcess(s: State, t: State, r: nat, outcome: ReservationState,
                                              paid: Digest -> nat, kept: Digest -> nat)
    requires Open(s, r) && s.reservations[r].state == Reserved && outcome != Reserved
    requires Closes(s, t, r, outcome, paid, kept)
    ensures ExcessGrows(s, t)
  {
    forall v | 0 <= v < |s.vaults|
      ensures ExcessGrowsAt(s, t, v)
    {
      var id := s.vaults[v].id;
      assert VaultClears(s.vaults[v], t.vaults[v], s.reservations[r].plan.hops, kept(id));
      SumUpdate(s.reservations, r, s.reservations[r].(state := outcome), OwedOut(id));
      SumUpdate(s.reservations, r, s.reservations[r].(state := outcome), OwedIn(id));
    }
  }

  lemma {:induction false} RisenRaisesExcess(s: State, t: State)
    requires t == s.(vaults := t.vaults) && Risen(s.vaults, t.vaults)
    ensures ExcessGrows(s, t)
  {
    forall v | 0 <= v < |s.vaults|
      ensures ExcessGrowsAt(s, t, v)
    {
      assert SameBook(s.vaults[v], t.vaults[v]);
    }
  }

  lemma {:induction false} ReserveKeepsExcess(h: Hashes, s: State, signed: SignedIntent)
    requires Inv(s)
    ensures ExcessGrows(s, Reserve(h, s, signed).after)
  {
    hide Inv, Reserve, AdmissionStatus, ReservationOk, Reserves, ExcessGrows;
    var t, reservation := Reserve(h, s, signed).after, NewReservation(h, signed.terms, s.epoch);
    ReserveOutcomes(h, s, signed);
    SelfExcess(s);
    if t != s {
      if t == s.(vaults := t.vaults) && Risen(s.vaults, t.vaults) {
        RisenRaisesExcess(s, t);
      } else {
        OkNamesAsset(s, reservation);
        ReservingKeepsExcess(s, t, reservation);
      }
    }
  }

  lemma SelfExcess(s: State)
    ensures ExcessGrows(s, s)
  {
  }

  lemma {:induction false} SettleKeepsExcess(h: Hashes, s: State, id: Digest, epoch: Amount)
    requires Inv(s)
    ensures ExcessGrows(s, Settle(h, s, id, epoch).after)
  {
    hide Inv, Settle, SettlementQuote, Closes, ExcessGrows;
    SettleAllOrNothing(h, s, id, epoch);
    SelfExcess(s);
    if SettlementQuote(h, s, id, epoch).Success? {
      var r, quote := ReservationAt(s.reservations, id).value, SettlementQuote(h, s, id, epoch).value;
      ClosingKeepsExcess(s, Settle(h, s, id, epoch).after, r, Settled, Payout(s.reservations[r], quote),
                         To(Sink(s, quote), quote.reserveFee));
    }
  }

  lemma {:induction false} CancelKeepsExcess(s: State, id: Digest, epoch: Amount)
    requires Inv(s)
    ensures ExcessGrows(s, Cancel(s, id, epoch).after)
  {
    hide Inv, Cancel, CancelStatus, Closes, ExcessGrows;
    CancelOutcomes(s, id, epoch);
    SelfExcess(s);
    if CancelStatus(s, id, epoch) == Ok {
      var r := ReservationAt(s.reservations, id).value;
      ClosingKeepsExcess(s, Cancel(s, id, epoch).after, r, Cancelled,
                         To(s.reservations[r].payer, s.reservations[r].gross), Nobody());
    }
  }

  lemma CatalogKeepsExcess(h: Hashes, s: State, c: Command)
    requires !c.CReserve? && !c.CSettle? && !c.CCancel?
    ensures ExcessGrows(s, Step(h, s, c).after)
  {
    hide Sum;
  }

  /** No command, committed or refused, ever makes a vault's excess smaller. */
  lemma {:induction false} StepKeepsExcess(h: Hashes, s: State, c: Command)
    requires Inv(s)
    ensures ExcessGrows(s, Step(h, s, c).after)
  {
    hide Inv, Step, Reserve, Settle, Cancel, ExcessGrows, Admissible;
    StepDispatch(h, s, c);
    match c
    case CReserve(signed) => ReserveKeepsExcess(h, s, signed);
    case CSettle(id, epoch) => SettleKeepsExcess(h, s, id, epoch);
    case CCancel(id, epoch) => CancelKeepsExcess(s, id, epoch);
    case _ => CatalogKeepsExcess(h, s, c);
  }

  lemma {:induction false} ExcessChain(s: State, t: State, u: State)
    requires ExcessGrows(s, t) && ExcessGrows(t, u)
    ensures ExcessGrows(s, u)
  {
    hide Sum;
    forall v | 0 <= v < |s.vaults|
      ensures ExcessGrowsAt(s, u, v)
    {
      assert ExcessGrowsAt(s, t, v) && ExcessGrowsAt(t, u, v);
    }
  }

  /** Over every run a vault's excess never shrinks: what a refused call strands stays stranded. */
  lemma {:induction false} RunKeepsExcess(h: Hashes, s: State, commands: seq<Command>)
    requires Inv(s) && AdmissibleFrom(h, s, commands)
    ensures ExcessGrows(s, RunFrom(h, s, commands))
  {
    hide Inv, Step, Admissible, ExcessGrows;
    if |commands| == 0 {
      SelfExcess(s);
    } else {
      var front := commands[..|commands| - 1];
      RunKeepsExcess(h, s, front);
      RunKeepsInv(h, s, front);
      StepKeepsExcess(h, RunFrom(h, s, front), Last(commands));
      ExcessChain(s, RunFrom(h, s, front), RunFrom(h, s, commands));
    }
  }

  // ---------- Exactly when pending amounts are exact ----------

  lemma {:induction false} RaisedBreaksExact(low: seq<Vault>, high: seq<Vault>, hops: seq<Hop>,
                                             reservations: seq<Reservation>)
    requires Raised(low, high, hops) && Routed(low, hops) && !Silent(hops) && AllExact(low, reservations)
    ensures !AllExact(high, reservations)
  {
    var i :| 0 <= i < |hops| && hops[i].amountHint != 0;
    RaisedShows(low, high, hops, i);
    var w := VaultAt(low, hops[i].fromVault).value;
    assert RaisedAt(low[w], high[w], hops);
    assert Exact(low[w], reservations);
    assert !Exact(high[w], reservations);
  }

  lemma {:induction false} StrandingBreaksExact(h: Hashes, s: State, signed: SignedIntent)
    requires Inv(s) && AllExact(s.vaults, s.reservations) && Strands(h, s, signed)
    ensures var t := Reserve(h, s, signed).after; !AllExact(t.vaults, t.reservations)
  {
    AppliedPart(h, s, signed);
    hide *;
    RaisedBreaksExact(s.vaults, Reserve(h, s, signed).after.vaults, AppliedHops(s, signed), s.reservations);
  }

  lemma AppliedPart(h: Hashes, s: State, signed: SignedIntent)
    requires Inv(s) && Strands(h, s, signed)
    ensures var t := Reserve(h, s, signed).after;
            && Raised(s.vaults, t.vaults, AppliedHops(s, signed)) && Routed(s.vaults, AppliedHops(s, signed))
            && !Silent(AppliedHops(s, signed)) && t.reservations == s.reservations
  {
    hide Inv, Reserve, Raised, Silent, AdmissionStatus, RouteFits, FirstLoadFits, Applied;
    AdmittedRoute(h, s, signed);
    ReserveUnchangedIff(h, s, signed);
    AddRouteOutcome(s.vaults, signed.terms.plan.hops);
  }

  lemma {:induction false} ReserveKeepsExactIff(h: Hashes, s: State, signed: SignedIntent)
    requires Inv(s) && AllExact(s.vaults, s.reservations)
    ensures var t := Reserve(h, s, signed).after; AllExact(t.vaults, t.reservations) <==> !Strands(h, s, signed)
  {
    hide Inv, Reserve, AdmissionStatus, ReservationOk, Reserves, AllExact, Strands;
    var t, reservation := Reserve(h, s, signed).after, NewReservation(h, signed.terms, s.epoch);
    if Strands(h, s, signed) {
      StrandingBreaksExact(h, s, signed);
    } else {
      ReserveOutcomes(h, s, signed);
      ReserveUnchangedIff(h, s, signed);
      if Commits(h, s, signed) {
        CommittedReserve(h, s, signed);
        OkNamesAsset(s, reservation);
        ReservingKeepsExact(s, t, reservation);
      }
    }
  }

  lemma {:induction false} CommittedReserve(h: Hashes, s: State, signed: SignedIntent)
    requires Inv(s) && Commits(h, s, signed)
    ensures var reservation := NewReservation(h, signed.terms, s.epoch);
            ReservationOk(s, reservation) && Reserves(s, Reserve(h, s, signed).after, reservation)
  {
    hide Inv, Reserve, AdmissionStatus, ReservationOk, AccountsReserve, Raised, Risen, Silent, RouteFits;
    ReserveOutcomes(h, s, signed);
    AdmittedRoute(h, s, signed);
    AddRouteOutcome(s.vaults, signed.terms.plan.hops);
  }

  predicate StrandsBy(h: Hashes, s: State, c: Command) {
    c.CReserve? && Strands(h, s, c.signed)
  }

  /** From exact pending amounts, a command keeps them exact if and only if it is not a reserve call that strands. */
  lemma {:induction false} StepKeepsExactIff(h: Hashes, s: State, c: Command)
    requires Inv(s) && AllExact(s.vaults, s.reservations)
    ensures var t := Step(h, s, c).after; AllExact(t.vaults, t.reservations) <==> !StrandsBy(h, s, c)
  {
    hide AllExact, Inv, Strands, Step, Reserve, Settle, Cancel, Admissible;
    StepDispatch(h, s, c);
    match c
    case CReserve(signed) => ReserveKeepsExactIff(h, s, signed);
    case CSettle(id, epoch) => SettleKeepsExact(h, s, id, epoch);
    case CCancel(id, epoch) => CancelKeepsExact(s, id, epoch);
    case CAddVault(name, asset, initial) => InvReservations(s); AddVaultKeepsExact(h, s, name, asset, initial);
    case _ => SameVaultsAndReservations(h, s, c);
  }

  /** No call of the run strands. */
  predicate NeverStrands(h: Hashes, s: State, commands: seq<Command>) {
    |commands| == 0
    || (&& NeverStrands(h, s, commands[..|commands| - 1])
        && !StrandsBy(h, RunFrom(h, s, commands[..|commands| - 1]), Last(commands)))
  }

  lemma {:induction false} InexactStays(s: State, t: State)
    requires PendingCovers(s.vaults, s.reservations) && ExcessGrows(s, t) && !AllExact(s.vaults, s.reservations)
    ensures !AllExact(t.vaults, t.reservations)
  {
    var v :| 0 <= v < |s.vaults| && !Exact(s.vaults[v], s.reservations);
    assert Covered(s.vaults[v], s.reservations);
    assert ExcessGrowsAt(s, t, v);
    assert !Exact(t.vaults[v], t.reservations);
  }

  lemma InvCovers(s: State)
    requires Inv(s)
    ensures PendingCovers(s.vaults, s.reservations)
  {
  }

  /** After any run pending amounts are exact if and only if no call of the run stranded any. */
  lemma {:induction false} RunExactIff(h: Hashes, networkId: U32, commands: seq<Command>)
    requires AdmissibleFrom(h, Init(networkId), commands)
    ensures var s := RunFrom(h, Init(networkId), commands);
            AllExact(s.vaults, s.reservations) <==> NeverStrands(h, Init(networkId), commands)
  {
    hide Inv, Step, Admissible, AllExact, ExcessGrows, StrandsBy, PendingCovers;
    InitInv(networkId);
    if |commands| == 0 {
      NoVaultsExact(networkId);
    } else {
      var front := commands[..|commands| - 1];
      var s := RunFrom(h, Init(networkId), front);
      RunKeepsInv(h, Init(networkId), front);
      RunExactIff(h, networkId, front);
      if AllExact(s.vaults, s.reservations) {
        StepKeepsExactIff(h, s, Last(commands));
      } else {
        InvCovers(s);
        StepKeepsExcess(h, s, Last(commands));
        InexactStays(s, RunFrom(h, Init(networkId), commands));
      }
    }
  }
}
