/** Building the catalogue and depositing: each operation keeps the invariant, or exactly when it does. */
module CatalogProofs {
  import opened Amounts
  import opened Digests
  import opened Sums
  import opened Routes
  import opened LedgerTypes
  import opened LedgerSteps
  import opened LedgerInvariant
  import opened PostingProofs
  import opened ClosingProofs
  import opened ReserveProofs

  // ---------- A growing catalogue keeps lanes and reservations sound ----------

  lemma {:induction false} GrowthKeepsLanes(s: State, t: State)
    requires LanesOk(s) && Extends(s, t) && t.lanes == s.lanes
    ensures LanesOk(t)
  {
    forall l | 0 <= l < |t.lanes|
      ensures LaneOk(t, t.lanes[l])
    {
      LaneOkStays(s, t, s.lanes[l]);
    }
  }

  lemma {:induction false} GrowthKeepsVaultAssets(a: AssetList, b: AssetList, vaults: seq<Vault>)
    requires VaultAssetsOk(a, vaults) && a <= b
    ensures VaultAssetsOk(b, vaults)
  {
    forall v | 0 <= v < |vaults|
      ensures AssetAt(b, vaults[v].assetId).Some?
    {
      AssetStays(a, b, vaults[v].assetId);
    }
  }

  lemma {:induction false} SelfExtends(s: State)
    ensures AccountsExtend(s.accounts, s.accounts) && VaultsExtend(s.vaults, s.vaults)
  {
  }

  // ---------- add_asset ----------

  /** A new asset starts from empty columns, so nothing is observed of it and nothing is issued. */
  lemma {:induction false} NewAssetIsEmpty(s: State, id: Digest)
    requires CatalogOk(s) && ReservationsOk(s) && AssetAt(s.assets, id).None? && |s.assets| < MAX_ASSETS
    ensures Sum(s.accounts, BalanceIn(|s.assets|)) == 0
    ensures Sum(s.vaults, HeldAs(id)) == 0 && Sum(s.reservations, LockedAs(id)) == 0
  {
    forall i | 0 <= i < |s.accounts|
      ensures BalanceIn(|s.assets|)(s.accounts[i]) == 0
    {
      assert EmptyBeyond(s.accounts[i].balances, |s.assets|);
    }
    SumZero(s.accounts, BalanceIn(|s.assets|));
    forall v | 0 <= v < |s.vaults|
      ensures HeldAs(id)(s.vaults[v]) == 0
    {
      assert AssetAt(s.assets, s.vaults[v].assetId).Some?;
    }
    SumZero(s.vaults, HeldAs(id));
    forall r | 0 <= r < |s.reservations|
      ensures LockedAs(id)(s.reservations[r]) == 0
    {
      assert ReservationOk(s, s.reservations[r]);
    }
    SumZero(s.reservations, LockedAs(id));
  }

  lemma {:induction false} NewAssetConserves(s: State, t: State, id: Digest)
    requires CatalogOk(s) && ReservationsOk(s) && Conserved(s)
    requires AssetAt(s.assets, id).None? && |s.assets| < MAX_ASSETS && t == s.(assets := s.assets + [id])
    ensures Conserved(t)
  {
    NewAssetIsEmpty(s, id);
    assert EmptyBeyond(s.issued, |s.assets|);
    EmptyColumnConserves(s, t, id);
  }

  lemma {:induction false} EmptyColumnConserves(s: State, t: State, id: Digest)
    requires Conserved(s) && |s.assets| < MAX_ASSETS && t == s.(assets := s.assets + [id])
    requires s.issued[|s.assets|] == 0 && Sum(s.accounts, BalanceIn(|s.assets|)) == 0
    requires Sum(s.vaults, HeldAs(id)) == 0 && Sum(s.reservations, LockedAs(id)) == 0
    ensures Conserved(t)
  {
    forall k | 0 <= k < |t.assets|
      ensures Observed(t, k) == t.issued[k]
    {
      if k < |s.assets| {
        assert Observed(s, k) == s.issued[k];
      }
    }
  }

  lemma {:induction false} NewAssetCatalog(s: State, t: State, id: Digest)
    requires CatalogOk(s) && AssetAt(s.assets, id).None? && |s.assets| < MAX_ASSETS
    requires t == s.(assets := s.assets + [id])
    ensures CatalogOk(t) && Extends(s, t)
  {
    SelfExtends(s);
    GrowthKeepsLanes(s, t);
    GrowthKeepsVaultAssets(s.assets, t.assets, s.vaults);
    forall i | 0 <= i < |t.accounts|
      ensures EmptyBeyond(t.accounts[i].balances, |t.assets|)
    {
      assert EmptyBeyond(s.accounts[i].balances, |s.assets|);
    }
  }

  lemma {:induction false} NewAssetInv(s: State, t: State, id: Digest)
    requires Inv(s) && AssetAt(s.assets, id).None? && |s.assets| < MAX_ASSETS
    requires t == s.(assets := s.assets + [id])
    ensures Inv(t)
  {
    NewAssetCatalog(s, t, id);
    AllReservationsStay(s, t);
    NewAssetConserves(s, t, id);
  }

  lemma {:induction false} AddAssetKeepsInv(h: Hashes, s: State, symbol: string)
    requires Inv(s)
    ensures Inv(AddAsset(h, s, symbol).after)
  {
    hide Inv;
    var o := AddAsset(h, s, symbol);
    if o.status == Ok {
      NewAssetInv(s, o.after, h.asset(symbol));
    }
  }

  // ---------- add_account ----------

  lemma {:induction false} NewAccountIsFresh(s: State, id: Digest)
    requires ReservationsOk(s) && AccountAt(s.accounts, id).None?
    ensures Sum(s.reservations, PaidBy(id)) == 0
  {
    forall r | 0 <= r < |s.reservations|
      ensures PaidBy(id)(s.reservations[r]) == 0
    {
      assert ReservationOk(s, s.reservations[r]);
    }
    SumZero(s.reservations, PaidBy(id));
  }

  lemma {:induction false} NewAccountConserves(s: State, t: State, account: Account)
    requires Conserved(s) && account.balances == [0, 0, 0, 0] && t == s.(accounts := s.accounts + [account])
    ensures Conserved(t)
  {
    forall k | 0 <= k < |t.assets|
      ensures Observed(t, k) == t.issued[k]
    {
      assert Observed(s, k) == s.issued[k];
      SumAppend(s.accounts, account, BalanceIn(k));
    }
  }

  lemma {:induction false} NewAccountCatalog(s: State, t: State, account: Account)
    requires CatalogOk(s) && |s.accounts| < MAX_ACCOUNTS && AccountAt(s.accounts, account.id).None?
    requires account.active && account.balances == [0, 0, 0, 0] && t == s.(accounts := s.accounts + [account])
    ensures CatalogOk(t) && Extends(s, t)
  {
    assert forall i | 0 <= i < |s.accounts| :: t.accounts[i] == s.accounts[i];
    assert forall v | 0 <= v < |s.vaults| :: SameVault(s.vaults[v], t.vaults[v]);
    assert Extends(s, t);
    GrowthKeepsLanes(s, t);
    assert AccountsOk(t.accounts);
    assert EmptyBeyond(account.balances, |s.assets|);
    forall i | 0 <= i < |t.accounts|
      ensures EmptyBeyond(t.accounts[i].balances, |t.assets|)
    {
      assert i < |s.accounts| ==> t.accounts[i] == s.accounts[i];
    }
  }

  lemma {:induction false} NewAccountNonces(s: State, t: State, account: Account)
    requires ReservationsOk(s) && NoncesCount(s.accounts, s.reservations)
    requires AccountAt(s.accounts, account.id).None? && account.intentNonce == 0
    requires t == s.(accounts := s.accounts + [account])
    ensures NoncesCount(t.accounts, t.reservations)
  {
    NewAccountIsFresh(s, account.id);
    forall i | 0 <= i < |t.accounts|
      ensures t.accounts[i].intentNonce == Sum(t.reservations, PaidBy(t.accounts[i].id))
    {
      assert i < |s.accounts| ==> t.accounts[i] == s.accounts[i];
    }
  }

  lemma {:induction false} NewAccountInv(s: State, t: State, account: Account)
    requires Inv(s) && |s.accounts| < MAX_ACCOUNTS && AccountAt(s.accounts, account.id).None?
    requires account == NewAccount(account.id, account.verifier) && t == s.(accounts := s.accounts + [account])
    ensures Inv(t)
  {
    NewAccountCatalog(s, t, account);
    AllReservationsStay(s, t);
    NewAccountConserves(s, t, account);
    NewAccountNonces(s, t, account);
  }

  lemma {:induction false} AddAccountKeepsInv(h: Hashes, s: State, name: string)
    requires Inv(s)
    ensures Inv(AddAccount(h, s, name).after)
  {
    hide Inv;
    var o := AddAccount(h, s, name);
    if o.status == Ok {
      NewAccountInv(s, o.after, NewAccount(h.identity(name).0, h.identity(name).1));
    }
  }

  // ---------- add_vault ----------

  lemma {:induction false} NewVaultOwesNothing(s: State, id: Digest)
    requires ReservationsOk(s) && VaultAt(s.vaults, id).None?
    ensures Sum(s.reservations, OwedOut(id)) == 0 && Sum(s.reservations, OwedIn(id)) == 0
  {
    forall r | 0 <= r < |s.reservations|
      ensures OwedOut(id)(s.reservations[r]) == 0 && OwedIn(id)(s.reservations[r]) == 0
    {
      var reservation := s.reservations[r];
      assert ReservationOk(s, reservation);
      forall i | 0 <= i < |reservation.plan.hops|
        ensures HopOut(id)(reservation.plan.hops[i]) == 0 && HopIn(id)(reservation.plan.hops[i]) == 0
      {
        assert HopOk(s, reservation.assetId, reservation.gross, reservation.plan.hops[i]);
      }
      SumZero(reservation.plan.hops, HopOut(id));
      SumZero(reservation.plan.hops, HopIn(id));
    }
    SumZero(s.reservations, OwedOut(id));
    SumZero(s.reservations, OwedIn(id));
  }

  lemma {:induction false} NewVaultConserves(s: State, t: State, vault: Vault, k: nat, issued: Amount)
    requires AssetsOk(s.assets) && Conserved(s) && k < |s.assets| && s.assets[k] == vault.assetId && vault.active
    requires issued == s.issued[k] + vault.balance
    requires t == s.(vaults := s.vaults + [vault], issued := s.issued[k := issued])
    ensures Conserved(t)
  {
    forall c | 0 <= c < |t.assets|
      ensures Observed(t, c) == t.issued[c]
    {
      assert Observed(s, c) == s.issued[c];
      SumAppend(s.vaults, vault, HeldAs(s.assets[c]));
      if c != k {
        assert s.assets[c] != s.assets[k];
      }
    }
  }

  lemma {:induction false} NewVaultCatalog(s: State, t: State, vault: Vault, k: nat, issued: Amount)
    requires CatalogOk(s) && |s.vaults| < MAX_VAULTS && VaultAt(s.vaults, vault.id).None? && vault.active
    requires k < |s.assets| && AssetAt(s.assets, vault.assetId).Some?
    requires t == s.(vaults := s.vaults + [vault], issued := s.issued[k := issued])
    ensures CatalogOk(t) && Extends(s, t)
  {
    assert forall v | 0 <= v < |s.vaults| :: t.vaults[v] == s.vaults[v];
    assert forall i | 0 <= i < |s.accounts| :: SameAccount(s.accounts[i], t.accounts[i]);
    assert Extends(s, t);
    GrowthKeepsLanes(s, t);
    assert VaultsOk(t.vaults);
    forall v | 0 <= v < |t.vaults|
      ensures AssetAt(t.assets, t.vaults[v].assetId).Some?
    {
      assert v < |s.vaults| ==> t.vaults[v] == s.vaults[v];
    }
  }

  lemma {:induction false} NewVaultPending(s: State, t: State, vault: Vault)
    requires ReservationsOk(s) && PendingCovers(s.vaults, s.reservations) && VaultAt(s.vaults, vault.id).None?
    requires t.vaults == s.vaults + [vault] && t.reservations == s.reservations
    ensures PendingCovers(t.vaults, t.reservations)
  {
    NewVaultOwesNothing(s, vault.id);
    forall v | 0 <= v < |t.vaults|
      ensures Covered(t.vaults[v], t.reservations)
    {
      assert v < |s.vaults| ==> t.vaults[v] == s.vaults[v] && Covered(s.vaults[v], s.reservations);
    }
  }

  lemma {:induction false} NewVaultInv(s: State, t: State, vault: Vault, k: nat, issued: Amount)
    requires Inv(s) && |s.vaults| < MAX_VAULTS && VaultAt(s.vaults, vault.id).None? && vault.active
    requires k < |s.assets| && s.assets[k] == vault.assetId && issued == s.issued[k] + vault.balance
    requires t == s.(vaults := s.vaults + [vault], issued := s.issued[k := issued])
    ensures Inv(t)
  {
    NewVaultCatalog(s, t, vault, k, issued);
    AllReservationsStay(s, t);
    NewVaultConserves(s, t, vault, k, issued);
    NewVaultPending(s, t, vault);
  }

  lemma {:induction false} AddVaultKeepsInv(h: Hashes, s: State, name: string, assetId: Digest, initial: Amount)
    requires Inv(s)
    ensures Inv(AddVault(h, s, name, assetId, initial).after)
  {
    hide Inv;
    var o := AddVault(h, s, name, assetId, initial);
    if o.status == Ok {
      var k := AssetAt(s.assets, assetId).value;
      var vault := Vault(h.vault(name, assetId), assetId, initial, 0, 0, true);
      NewVaultInv(s, o.after, vault, k, s.issued[k] + initial);
    }
  }

  // ---------- add_lane ----------

  /** Opening a lane keeps the invariant exactly when its sink vault holds the lane's asset; the operation itself does
      not look. */
  lemma {:induction false} AddLaneKeepsInvIff(h: Hashes, s: State, name: string, assetId: Digest, source: Digest,
                                              sink: Digest, terminal: Digest, laneClass: LaneClass,
                                              operatorFeeBps: U32, reserveBps: U32)
    requires Inv(s)
    ensures var o := AddLane(h, s, name, assetId, source, sink, terminal, laneClass, operatorFeeBps, reserveBps);
            && (o.status != Ok ==> o.after == s)
            && (o.status == Ok ==> (Inv(o.after) <==> HasVault(s.vaults, sink, assetId)))
  {
    hide Inv, HasVault;
    var o := AddLane(h, s, name, assetId, source, sink, terminal, laneClass, operatorFeeBps, reserveBps);
    if o.status == Ok {
      var lane := Lane(h.lane(name, assetId), assetId, source, sink, terminal, laneClass, operatorFeeBps, reserveBps,
                       true);
      NewLaneInvIff(s, o.after, lane);
    }
  }

  lemma {:induction false} NewLaneInvIff(s: State, t: State, lane: Lane)
    requires Inv(s) && |s.lanes| < MAX_LANES && t == s.(lanes := s.lanes + [lane])
    requires LaneAt(s.lanes, lane.id).None? && lane.active && lane.operatorFeeBps + lane.reserveBps <= BPS
    requires AssetAt(s.assets, lane.assetId).Some? && VaultAt(s.vaults, lane.sourceVault).Some?
    requires AccountAt(s.accounts, lane.terminalAccount).Some?
    ensures Inv(t) <==> HasVault(s.vaults, lane.sinkVault, lane.assetId)
  {
    if HasVault(s.vaults, lane.sinkVault, lane.assetId) {
      NewLaneInv(s, t, lane);
    } else {
      assert t.lanes[|s.lanes|] == lane && !LaneOk(t, lane);
    }
  }

  lemma {:induction false} SameColumnsConserve(s: State, t: State)
    requires Conserved(s) && t.assets == s.assets && t.accounts == s.accounts && t.vaults == s.vaults
    requires t.reservations == s.reservations && t.issued == s.issued
    ensures Conserved(t)
  {
    forall k | 0 <= k < |t.assets|
      ensures Observed(t, k) == t.issued[k]
    {
      assert Observed(s, k) == s.issued[k];
    }
  }

  lemma {:induction false} NewLaneInv(s: State, t: State, lane: Lane)
    requires Inv(s) && |s.lanes| < MAX_LANES && t == s.(lanes := s.lanes + [lane])
    requires LaneAt(s.lanes, lane.id).None? && LaneOk(s, lane)
    ensures Inv(t)
  {
    SelfExtends(s);
    NewLaneOk(s, t, lane);
    AllReservationsStay(s, t);
    SameColumnsConserve(s, t);
  }

  lemma {:induction false} NewLaneOk(s: State, t: State, lane: Lane)
    requires LanesOk(s) && |s.lanes| < MAX_LANES && t == s.(lanes := s.lanes + [lane]) && Extends(s, t)
    requires LaneAt(s.lanes, lane.id).None? && LaneOk(s, lane)
    ensures LanesOk(t)
  {
    forall l | 0 <= l < |t.lanes|
      ensures LaneOk(t, t.lanes[l])
    {
      var other := t.lanes[l];
      assert l < |s.lanes| ==> other == s.lanes[l];
      LaneOkStays(s, t, other);
    }
    NewLaneDistinct(s, lane);
  }

  lemma {:induction false} NewLaneDistinct(s: State, lane: Lane)
    requires LanesOk(s) && LaneAt(s.lanes, lane.id).None?
    ensures var lanes := s.lanes + [lane]; forall i, j | 0 <= i < j < |lanes| :: lanes[i].id != lanes[j].id
  {
    forall i | 0 <= i < |s.lanes|
      ensures s.lanes[i].id != lane.id
    {
      assert LaneOk(s, s.lanes[i]);
      LaneUnlike(s.lanes, i, lane.id);
    }
  }

  lemma LaneUnlike(lanes: seq<Lane>, i: nat, id: Digest)
    requires i < |lanes| && lanes[i].active && LaneAt(lanes, id).None?
    ensures lanes[i].id != id
  {
  }

  // ---------- deposit ----------

  /** Whether the issued supply can absorb a deposit that the account can absorb. */
  predicate DepositFits(s: State, accountId: Digest, assetId: Digest, amount: Amount) {
    var k, i := AssetAt(s.assets, assetId), AccountAt(s.accounts, accountId);
    (k.Some? && i.Some? && s.accounts[i.value].balances[k.value] + amount <= U64_MAX)
    ==> s.issued[k.value] + amount <= U64_MAX
  }

  /** The supply and the account both grow by the deposit. */
  predicate Funds(s: State, t: State, accountId: Digest, k: nat, amount: Amount)
    requires k < MAX_ASSETS
  {
    && AccountsGain(s.accounts, t.accounts, k, To(accountId, amount))
    && t.issued[k] == s.issued[k] + amount
    && t == s.(accounts := t.accounts, issued := s.issued[k := t.issued[k]], journal := t.journal)
    && t.journal == Journaled(s, JournalEntry(s.epoch, Deposited, accountId, amount))
  }

  lemma {:induction false} FundsKeepsCatalog(s: State, t: State, accountId: Digest, k: nat, amount: Amount)
    requires CatalogOk(s) && k < |s.assets| && Funds(s, t, accountId, k, amount)
    ensures CatalogOk(t) && Extends(s, t)
  {
    GainsKeep(s.accounts, t.accounts, k, To(accountId, amount));
    GainsKeepColumns(s.assets, s.accounts, t.accounts, s.issued, k, To(accountId, amount));
    assert forall v | 0 <= v < |s.vaults| :: SameVault(s.vaults[v], t.vaults[v]);
    GrowthKeepsLanes(s, t);
  }

  lemma {:induction false} FundsConserves(s: State, t: State, accountId: Digest, k: nat, amount: Amount)
    requires Conserved(s) && k < |s.assets| && Funds(s, t, accountId, k, amount)
    requires Sum(t.accounts, BalanceIn(k)) == Sum(s.accounts, BalanceIn(k)) + amount
    ensures Conserved(t)
  {
    GainsKeep(s.accounts, t.accounts, k, To(accountId, amount));
    forall c | 0 <= c < |t.assets|
      ensures Observed(t, c) == t.issued[c]
    {
      assert Observed(s, c) == s.issued[c];
    }
  }

  lemma {:induction false} FundsKeepsInv(s: State, t: State, accountId: Digest, k: nat, amount: Amount)
    requires Inv(s) && k < |s.assets| && Funds(s, t, accountId, k, amount)
    requires Sum(t.accounts, BalanceIn(k)) == Sum(s.accounts, BalanceIn(k)) + amount
    ensures Inv(t)
  {
    FundsKeepsCatalog(s, t, accountId, k, amount);
    AllReservationsStay(s, t);
    FundsConserves(s, t, accountId, k, amount);
    GainsKeep(s.accounts, t.accounts, k, To(accountId, amount));
  }

  /** The account is credited. */
  predicate Depositable(s: State, accountId: Digest, assetId: Digest, amount: Amount) {
    var k, i := AssetAt(s.assets, assetId), AccountAt(s.accounts, accountId);
    k.Some? && i.Some? && s.accounts[i.value].balances[k.value] + amount <= U64_MAX
  }

  lemma {:induction false} DepositCredits(s: State, accountId: Digest, assetId: Digest, amount: Amount)
    requires AccountsOk(s.accounts) && Depositable(s, accountId, assetId, amount)
    ensures var k, i := AssetAt(s.assets, assetId).value, AccountAt(s.accounts, accountId).value;
            var after := WithBalance(s.accounts, i, k, s.accounts[i].balances[k] + amount);
            && Credit(s.assets, s.accounts, accountId, assetId, amount) == Posted(Ok, after)
            && AccountsGain(s.accounts, after, k, To(accountId, amount))
            && Sum(after, BalanceIn(k)) == Sum(s.accounts, BalanceIn(k)) + amount
  {
    WithBalanceGains(s.accounts, AccountAt(s.accounts, accountId).value, AssetAt(s.assets, assetId).value, amount);
  }

  lemma DepositFrame(s: State, accountId: Digest, assetId: Digest, amount: Amount)
    requires Depositable(s, accountId, assetId, amount)
    requires s.issued[AssetAt(s.assets, assetId).value] + amount <= U64_MAX
    ensures var o, k := Deposit(s, accountId, assetId, amount), AssetAt(s.assets, assetId).value;
            && o.status == JournalStatus(s)
            && o.after == s.(accounts := Credit(s.assets, s.accounts, accountId, assetId, amount).after,
                          issued := s.issued[k := s.issued[k] + amount],
                          journal := Journaled(s, JournalEntry(s.epoch, Deposited, accountId, amount)))
  {
  }

  lemma {:induction false} DepositFunds(s: State, accountId: Digest, assetId: Digest, amount: Amount)
    requires Inv(s) && Depositable(s, accountId, assetId, amount)
    requires s.issued[AssetAt(s.assets, assetId).value] + amount <= U64_MAX
    ensures var o, k := Deposit(s, accountId, assetId, amount), AssetAt(s.assets, assetId).value;
            Inv(o.after) && Funds(s, o.after, accountId, k, amount) && o.status == JournalStatus(s)
  {
    assert AccountsOk(s.accounts);
    hide Inv, Deposit, Credit;
    DepositCredits(s, accountId, assetId, amount);
    DepositFrame(s, accountId, assetId, amount);
    FundsKeepsInv(s, Deposit(s, accountId, assetId, amount).after, accountId, AssetAt(s.assets, assetId).value, amount);
  }

  /** The balance is written before the supply is checked: when only the supply overflows, money appears that was never
      issued. */
  lemma {:induction false} DepositLeaks(s: State, accountId: Digest, assetId: Digest, amount: Amount)
    requires Inv(s) && Depositable(s, accountId, assetId, amount)
    requires s.issued[AssetAt(s.assets, assetId).value] + amount > U64_MAX
    ensures Deposit(s, accountId, assetId, amount).status == ErrPolicy
    ensures !Conserved(Deposit(s, accountId, assetId, amount).after)
    ensures !Inv(Deposit(s, accountId, assetId, amount).after)
  {
    var k, t := AssetAt(s.assets, assetId).value, Deposit(s, accountId, assetId, amount).after;
    DepositCredits(s, accountId, assetId, amount);
    assert Observed(s, k) == s.issued[k];
    assert Observed(t, k) == Observed(s, k) + amount && t.issued[k] == s.issued[k];
  }

  /** A deposit keeps the invariant exactly when it fits the issued supply whenever it fits the account. */
  lemma {:induction false} DepositKeepsInvIff(s: State, accountId: Digest, assetId: Digest, amount: Amount)
    requires Inv(s)
    ensures Inv(Deposit(s, accountId, assetId, amount).after) <==> DepositFits(s, accountId, assetId, amount)
  {
    hide Inv, Conserved;
    if Depositable(s, accountId, assetId, amount) {
      if DepositFits(s, accountId, assetId, amount) {
        DepositFunds(s, accountId, assetId, amount);
      } else {
        DepositLeaks(s, accountId, assetId, amount);
      }
    } else {
      assert Deposit(s, accountId, assetId, amount).after == s;
    }
  }
}
