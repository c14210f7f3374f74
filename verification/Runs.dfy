/** Runs of commands, failing ones included, and what every run keeps. */
module Runs {
  import opened Amounts
  import opened Digests
  import opened Routes
  import opened LedgerTypes
  import opened LedgerSteps
  import opened LedgerInvariant
  import opened PendingProofs
  import opened PostingProofs
  import opened ClosingProofs
  import opened ReserveProofs
  import opened SettleProofs
  import opened CatalogProofs

  /** The two things the operations themselves do not check: that a deposit fits the issued supply, and that a new
      lane's sink holds the lane's asset. Every other command is admissible in every state. */
  predicate Admissible(h: Hashes, s: State, c: Command) {
    match c
    case CDeposit(account, asset, amount) => DepositFits(s, account, asset, amount)
    case CAddLane(_, asset, _, sink, _, _, _, _) => Step(h, s, c).status == Ok ==> HasVault(s.vaults, sink, asset)
    case _ => true
  }

  lemma StepDispatch(h: Hashes, s: State, c: Command)
    ensures c.CDeposit? ==> Step(h, s, c) == Deposit(s, c.account, c.asset, c.amount)
    ensures c.CReserve? ==> Step(h, s, c) == Reserve(h, s, c.signed)
    ensures c.CSettle? ==> Step(h, s, c) == Settle(h, s, c.settleId, c.settleEpoch)
    ensures c.CCancel? ==> Step(h, s, c) == Cancel(s, c.cancelId, c.cancelEpoch)
    ensures c.CAddAsset? ==> Step(h, s, c) == AddAsset(h, s, c.symbol)
    ensures c.CAddAccount? ==> Step(h, s, c) == AddAccount(h, s, c.accountName)
    ensures c.CAddVault? ==> Step(h, s, c) == AddVault(h, s, c.vaultName, c.vaultAsset, c.initial)
    ensures c.CAddLane? ==>
              Step(h, s, c) == AddLane(h, s, c.laneName, c.laneAsset, c.source, c.sink, c.terminal, c.laneClass,
                                       c.operatorFeeBps, c.reserveBps)
    ensures c.CAddLane? ==> (Admissible(h, s, c)
                             <==> (Step(h, s, c).status == Ok ==> HasVault(s.vaults, c.sink, c.laneAsset)))
    ensures !c.CDeposit? && !c.CAddLane? ==> Admissible(h, s, c)
    ensures c.CDeposit? ==> (Admissible(h, s, c) <==> DepositFits(s, c.account, c.asset, c.amount))
  {
    hide AddAsset, AddAccount, AddVault, AddLane, Deposit, Reserve, Settle, Cancel, DepositFits, HasVault;
  }

  /** From a valid ledger, a command leads to a valid ledger exactly when it is admissible, whatever its status. */
  lemma {:induction false} StepKeepsInvIff(h: Hashes, s: State, c: Command)
    requires Inv(s)
    ensures Inv(Step(h, s, c).after) <==> Admissible(h, s, c)
  {
    hide Inv, Step, Admissible, DepositFits, HasVault, Reserve, Settle, Cancel;
    StepDispatch(h, s, c);
    match c
    case CAddAsset(symbol) => AddAssetKeepsInv(h, s, symbol);
    case CAddAccount(name) => AddAccountKeepsInv(h, s, name);
    case CAddVault(name, asset, initial) => AddVaultKeepsInv(h, s, name, asset, initial);
    case CAddLane(name, asset, source, sink, terminal, laneClass, operatorFeeBps, reserveBps) =>
      AddLaneKeepsInvIff(h, s, name, asset, source, sink, terminal, laneClass, operatorFeeBps, reserveBps);
    case CDeposit(account, asset, amount) => DepositKeepsInvIff(s, account, asset, amount);
    case CReserve(signed) => ReserveOutcomes(h, s, signed);
    case CSettle(id, epoch) => SettleAllOrNothing(h, s, id, epoch);
    case CCancel(id, epoch) => CancelOutcomes(s, id, epoch);
  }

  lemma {:induction false} CancelOutcomes(s: State, id: Digest, epoch: Amount)
    requires Inv(s)
    ensures var o := Cancel(s, id, epoch);
            && Inv(o.after)
            && if CancelStatus(s, id, epoch) != Ok then o == Posted(CancelStatus(s, id, epoch), s)
               else var r := ReservationAt(s.reservations, id).value;
                    Open(s, r) && Refunds(s, o.after, r, epoch) && o.status == JournalStatus(s)
  {
    hide Inv;
    if CancelStatus(s, id, epoch) == Ok {
      CancelCommits(s, id, epoch);
    }
  }

  // ---------- Runs ----------

  function RunFrom(h: Hashes, s: State, commands: seq<Command>): State {
    if |commands| == 0 then s
    else Step(h, RunFrom(h, s, commands[..|commands| - 1]), Last(commands)).after
  }

  predicate AdmissibleFrom(h: Hashes, s: State, commands: seq<Command>) {
    |commands| == 0
    || (&& AdmissibleFrom(h, s, commands[..|commands| - 1])
        && Admissible(h, RunFrom(h, s, commands[..|commands| - 1]), Last(commands)))
  }

  lemma {:induction false} RunKeepsInv(h: Hashes, s: State, commands: seq<Command>)
    requires Inv(s) && AdmissibleFrom(h, s, commands)
    ensures Inv(RunFrom(h, s, commands))
  {
    hide Inv, Step, Admissible;
    if |commands| > 0 {
      var front := commands[..|commands| - 1];
      RunKeepsInv(h, s, front);
      StepKeepsInvIff(h, RunFrom(h, s, front), Last(commands));
    }
  }

  lemma RunNothing(h: Hashes, s: State)
    ensures RunFrom(h, s, []) == s && AdmissibleFrom(h, s, [])
  {
    hide Step, Admissible;
  }

  lemma {:induction false} RunAppend(h: Hashes, s: State, commands: seq<Command>, c: Command)
    ensures RunFrom(h, s, commands + [c]) == Step(h, RunFrom(h, s, commands), c).after
    ensures AdmissibleFrom(h, s, commands + [c])
       <==> AdmissibleFrom(h, s, commands) && Admissible(h, RunFrom(h, s, commands), c)
  {
    hide Step, Admissible;
    assert (commands + [c])[..|commands|] == commands;
  }

  lemma {:induction false} InitInv(networkId: U32)
    ensures Inv(Init(networkId))
  {
  }

  /** Conservation over whole runs: what is observed of each asset is what was issued, as integers, so the ledger's
      wrapping totals never wrap and its own check always passes. */
  lemma {:induction false} RunConserves(h: Hashes, networkId: U32, commands: seq<Command>, k: nat)
    requires AdmissibleFrom(h, Init(networkId), commands)
    requires k < |RunFrom(h, Init(networkId), commands).assets|
    ensures var s := RunFrom(h, Init(networkId), commands);
            && Observed(s, k) == s.issued[k]
            && Wrap64(Observed(s, k)) == Observed(s, k)
            && ConservationOk(s, s.assets[k])
  {
    hide RunFrom, AdmissibleFrom;
    InitInv(networkId);
    RunKeepsInv(h, Init(networkId), commands);
    var s := RunFrom(h, Init(networkId), commands);
    InvConserves(s, k);
  }

  lemma {:induction false} InvConserves(s: State, k: nat)
    requires AssetsOk(s.assets) && Conserved(s) && k < |s.assets|
    ensures Observed(s, k) == s.issued[k] && Wrap64(Observed(s, k)) == Observed(s, k) && ConservationOk(s, s.assets[k])
  {
    assert AssetAt(s.assets, s.assets[k]) == Some(k);
    ConservedChecks(s, s.assets[k]);
  }

  // ---------- History ----------

  /** A reservation either stays as it is or leaves the open state, changing nothing else. */
  predicate Progresses(a: Reservation, b: Reservation) {
    b == a || (a.state == Reserved && b == a.(state := b.state))
  }

  predicate NoncesGrow(a: seq<Account>, b: seq<Account>) {
    |a| <= |b| && forall i | 0 <= i < |a| :: a[i].intentNonce <= b[i].intentNonce
  }

  predicate BalancesGrow(a: seq<Vault>, b: seq<Vault>) {
    |a| <= |b| && forall v | 0 <= v < |a| :: a[v].balance <= b[v].balance
  }

  predicate ReservationsProgress(a: seq<Reservation>, b: seq<Reservation>) {
    |a| <= |b| && forall i {:trigger Progresses(a[i], b[i])} | 0 <= i < |a| :: Progresses(a[i], b[i])
  }

  predicate SupplyGrows(a: Columns, b: Columns) {
    forall k | 0 <= k < MAX_ASSETS :: a[k] <= b[k]
  }

  /** Records are only ever added; reservations only close; receipts and journal entries are never rewritten; nonces,
      vault balances and issued supplies only grow. */
  predicate Evolves(s: State, t: State) {
    && Extends(s, t)
    && NoncesGrow(s.accounts, t.accounts)
    && BalancesGrow(s.vaults, t.vaults)
    && ReservationsProgress(s.reservations, t.reservations)
    && s.receipts <= t.receipts
    && s.journal <= t.journal
    && SupplyGrows(s.issued, t.issued)
  }

  lemma {:induction false} EvolvesStill(s: State)
    ensures Evolves(s, s)
  {
    SelfExtends(s);
  }

  lemma {:induction false} ExtendsChain(s: State, t: State, u: State)
    requires Extends(s, t) && Extends(t, u)
    ensures Extends(s, u)
  {
    forall i | 0 <= i < |s.accounts|
      ensures SameAccount(s.accounts[i], u.accounts[i])
    {
      assert SameAccount(s.accounts[i], t.accounts[i]) && SameAccount(t.accounts[i], u.accounts[i]);
    }
    forall v | 0 <= v < |s.vaults|
      ensures SameVault(s.vaults[v], u.vaults[v])
    {
      assert SameVault(s.vaults[v], t.vaults[v]) && SameVault(t.vaults[v], u.vaults[v]);
    }
  }

  lemma {:induction false} EvolvesChain(s: State, t: State, u: State)
    requires Evolves(s, t) && Evolves(t, u)
    ensures Evolves(s, u)
  {
    ExtendsChain(s, t, u);
    forall i | 0 <= i < |s.reservations|
      ensures Progresses(s.reservations[i], u.reservations[i])
    {
      assert Progresses(s.reservations[i], t.reservations[i]) && Progresses(t.reservations[i], u.reservations[i]);
    }
  }

  lemma {:induction false} ClosingEvolves(s: State, t: State, r: nat, outcome: ReservationState,
                                          paid: Digest -> nat, kept: Digest -> nat)
    requires CatalogOk(s) && Open(s, r) && Closes(s, t, r, outcome, paid, kept)
    requires s.receipts <= t.receipts && s.journal <= t.journal
    ensures Evolves(s, t)
  {
    ClosingKeepsCatalog(s, t, r, outcome, paid, kept);
    forall i | 0 <= i < |s.accounts|
      ensures s.accounts[i].intentNonce <= t.accounts[i].intentNonce
    {
      assert AccountGains(s.accounts[i], t.accounts[i], Column(s, r), paid(s.accounts[i].id));
    }
    forall v | 0 <= v < |s.vaults|
      ensures s.vaults[v].balance <= t.vaults[v].balance
    {
      assert VaultClears(s.vaults[v], t.vaults[v], s.reservations[r].plan.hops, kept(s.vaults[v].id));
    }
  }

  lemma {:induction false} ReservingEvolves(s: State, t: State, reservation: Reservation)
    requires CatalogOk(s) && ReservationOk(s, reservation) && Reserves(s, t, reservation)
    ensures Evolves(s, t)
  {
    ReserveKeepsCatalog(s, t, reservation);
    forall i | 0 <= i < |s.accounts|
      ensures s.accounts[i].intentNonce <= t.accounts[i].intentNonce
    {
      assert AccountReserves(s.accounts[i], t.accounts[i], AssetAt(s.assets, reservation.assetId).value,
                             reservation.payer, reservation.gross);
    }
    forall v | 0 <= v < |s.vaults|
      ensures s.vaults[v].balance <= t.vaults[v].balance
    {
      assert RaisedAt(s.vaults[v], t.vaults[v], reservation.plan.hops);
    }
  }

  lemma {:induction false} ReserveEvolves(h: Hashes, s: State, signed: SignedIntent)
    requires Inv(s)
    ensures Evolves(s, Reserve(h, s, signed).after)
  {
    hide Reserve, AdmissionStatus, Reserves, ReservationOk;
    var t, reservation := Reserve(h, s, signed).after, NewReservation(h, signed.terms, s.epoch);
    ReserveOutcomes(h, s, signed);
    EvolvesStill(s);
    if t != s {
      if t == s.(vaults := t.vaults) && Risen(s.vaults, t.vaults) {
        SameBooksKeepCatalog(s, t);
      } else {
        ReservingEvolves(s, t, reservation);
      }
    }
  }

  lemma {:induction false} SettleEvolves(h: Hashes, s: State, id: Digest, epoch: Amount)
    requires Inv(s)
    ensures Evolves(s, Settle(h, s, id, epoch).after)
  {
    hide Settle, SettlementQuote, Closes, CatalogOk;
    var t := Settle(h, s, id, epoch).after;
    SettleAllOrNothing(h, s, id, epoch);
    EvolvesStill(s);
    if t != s {
      var r, quote := ReservationAt(s.reservations, id).value, SettlementQuote(h, s, id, epoch).value;
      ClosingEvolves(s, t, r, Settled, Payout(s.reservations[r], quote), To(Sink(s, quote), quote.reserveFee));
    }
  }

  lemma {:induction false} CancelEvolves(s: State, id: Digest, epoch: Amount)
    requires Inv(s)
    ensures Evolves(s, Cancel(s, id, epoch).after)
  {
    hide Cancel, CancelStatus, Closes, CatalogOk;
    var t := Cancel(s, id, epoch).after;
    CancelOutcomes(s, id, epoch);
    EvolvesStill(s);
    if CancelStatus(s, id, epoch) == Ok {
      var r := ReservationAt(s.reservations, id).value;
      ClosingEvolves(s, t, r, Cancelled, To(s.reservations[r].payer, s.reservations[r].gross), Nobody());
    }
  }

  lemma {:induction false} DepositEvolves(s: State, accountId: Digest, assetId: Digest, amount: Amount)
    requires AccountsOk(s.accounts)
    ensures Evolves(s, Deposit(s, accountId, assetId, amount).after)
  {
    var t := Deposit(s, accountId, assetId, amount).after;
    EvolvesStill(s);
    if Depositable(s, accountId, assetId, amount) {
      DepositCredits(s, accountId, assetId, amount);
      GainsKeep(s.accounts, t.accounts, AssetAt(s.assets, assetId).value, To(accountId, amount));
    }
  }

  lemma {:induction false} CatalogEvolves(h: Hashes, s: State, c: Command)
    requires c.CAddAsset? || c.CAddAccount? || c.CAddVault? || c.CAddLane?
    ensures Evolves(s, Step(h, s, c).after)
  {
    EvolvesStill(s);
  }

  /** Every step from a valid ledger, failing ones included, only adds to its history. */
  lemma {:induction false} StepEvolves(h: Hashes, s: State, c: Command)
    requires Inv(s)
    ensures Evolves(s, Step(h, s, c).after)
  {
    InvParts(s);
    hide Inv, Evolves, Step, Admissible, DepositFits, HasVault, AddAsset, AddAccount, AddVault, AddLane, Deposit,
      Reserve, Settle, Cancel, AssetsOk, VaultsOk, LanesOk, ColumnsOk, ReservationsOk, DistinctReservations, ReceiptsOk,
      AllRecorded;
    StepDispatch(h, s, c);
    match c
    case CDeposit(account, asset, amount) => DepositEvolves(s, account, asset, amount);
    case CReserve(signed) => ReserveEvolves(h, s, signed);
    case CSettle(id, epoch) => SettleEvolves(h, s, id, epoch);
    case CCancel(id, epoch) => CancelEvolves(s, id, epoch);
    case _ => CatalogEvolves(h, s, c);
  }

  /** History is append-only over whole runs; in particular settled and cancelled reservations never change again. */
  lemma {:induction false} RunEvolves(h: Hashes, s: State, commands: seq<Command>)
    requires Inv(s) && AdmissibleFrom(h, s, commands)
    ensures Evolves(s, RunFrom(h, s, commands))
    ensures forall i | 0 <= i < |s.reservations| && s.reservations[i].state != Reserved ::
              RunFrom(h, s, commands).reservations[i] == s.reservations[i]
  {
    hide Inv, Step, Admissible, Extends;
    if |commands| > 0 {
      var front := commands[..|commands| - 1];
      RunEvolves(h, s, front);
      RunKeepsInv(h, s, front);
      StepEvolves(h, RunFrom(h, s, front), Last(commands));
      EvolvesChain(s, RunFrom(h, s, front), RunFrom(h, s, commands));
      assert forall i | 0 <= i < |s.reservations| :: Progresses(s.reservations[i],
                                                                RunFrom(h, s, commands).reservations[i]);
    } else {
      EvolvesStill(s);
    }
  }
}
