/** Every balance is explained by the run that led to it: deposits, open or settled reservations, and receipts. */
module Replay {
  import opened Amounts
  import opened Digests
  import opened Sums
  import opened Routes
  import opened LedgerTypes
  import opened LedgerSteps
  import opened LedgerInvariant
  import opened PendingProofs
  import opened PostingProofs
  import opened ClosingProofs
  import opened ReserveProofs
  import opened SettleProofs
  import opened CatalogProofs
  import opened Runs

  // ---------- The terms of the explanation ----------

  /** Gross amounts an account has committed and not been refunded. */
  function Spent(account: Digest, assetId: Digest): Reservation -> nat {
    (reservation: Reservation) =>
      if reservation.state != Cancelled && reservation.payer == account && reservation.assetId == assetId
      then reservation.gross else 0
  }

  predicate InAsset(reservations: seq<Reservation>, receipt: Receipt, assetId: Digest) {
    var r := ReservationAt(reservations, receipt.reservationId);
    r.Some? && reservations[r.value].assetId == assetId
  }

  predicate OperatedBy(reservations: seq<Reservation>, receipt: Receipt, account: Digest) {
    var r := ReservationAt(reservations, receipt.reservationId);
    r.Some? && reservations[r.value].plan.operatorAccount == account
  }

  /** What a receipt paid an account: the net amount to its beneficiary, the fee to the reservation's operator. */
  function Earned(reservations: seq<Reservation>, account: Digest, assetId: Digest): Receipt -> nat {
    (receipt: Receipt) =>
      if InAsset(reservations, receipt, assetId)
      then (if receipt.beneficiary == account then receipt.net else 0)
              + (if OperatedBy(reservations, receipt, account) then receipt.operatorFee else 0)
      else 0
  }

  /** What a receipt left in a vault: the reserve fee, when its lane sinks there. */
  function Kept(lanes: seq<Lane>, vault: Digest): Receipt -> nat {
    (receipt: Receipt) =>
      var l := LaneAt(lanes, receipt.lane);
      if l.Some? && lanes[l.value].sinkVault == vault then receipt.reserveFee else 0
  }

  function Expenses(s: State, account: Digest, assetId: Digest): nat {
    Sum(s.reservations, Spent(account, assetId))
  }

  function Income(s: State, account: Digest, assetId: Digest): nat {
    Sum(s.receipts, Earned(s.reservations, account, assetId))
  }

  function VaultBalance(s: State, vault: Digest): nat {
    var v := VaultAt(s.vaults, vault);
    if v.None? then 0 else s.vaults[v.value].balance
  }

  function Retained(s: State, vault: Digest): nat {
    Sum(s.receipts, Kept(s.lanes, vault))
  }

  /** What one command deposits into an account. */
  function DepositOf(s: State, c: Command, account: Digest, assetId: Digest): nat {
    if c.CDeposit? && c.account == account && c.asset == assetId && Depositable(s, account, assetId, c.amount)
    then c.amount else 0
  }

  function Deposits(h: Hashes, s: State, commands: seq<Command>, account: Digest, assetId: Digest): nat {
    if |commands| == 0 then 0
    else
      var front := commands[..|commands| - 1];
      Deposits(h, s, front, account, assetId) + DepositOf(RunFrom(h, s, front), Last(commands), account, assetId)
  }

  /** What one command puts into a vault when it opens it. */
  function Opening(h: Hashes, s: State, c: Command, vault: Digest): nat {
    if c.CAddVault? && Step(h, s, c).status == Ok && h.vault(c.vaultName, c.vaultAsset) == vault then c.initial else 0
  }

  function Openings(h: Hashes, s: State, commands: seq<Command>, vault: Digest): nat {
    if |commands| == 0 then 0
    else
      var front := commands[..|commands| - 1];
      Openings(h, s, front, vault) + Opening(h, RunFrom(h, s, front), Last(commands), vault)
  }

  // ---------- How balances move ----------

  lemma {:induction false} GainMovesBalance(s: State, t: State, k: nat, gain: Digest -> nat, account: Digest,
                                            assetId: Digest)
    requires AssetsOk(s.assets) && k < |s.assets| && t.assets == s.assets
    requires AccountsGain(s.accounts, t.accounts, k, gain)
    requires AccountAt(s.accounts, account).None? ==> gain(account) == 0
    ensures BalanceOf(t, account, assetId)
         == BalanceOf(s, account, assetId) + (if assetId == s.assets[k] then gain(account) else 0)
  {
    GainsKeep(s.accounts, t.accounts, k, gain);
    assert AssetAt(s.assets, s.assets[k]) == Some(k);
    var i, c := AccountAt(s.accounts, account), AssetAt(s.assets, assetId);
    if i.Some? {
      AccountStays(s.accounts, t.accounts, account);
      assert AccountGains(s.accounts[i.value], t.accounts[i.value], k, gain(account));
    } else if AccountAt(t.accounts, account).Some? {
      AccountStays(t.accounts, s.accounts, account);
      assert false;
    }
  }

  lemma {:induction false} SameReceiptsSameIncome(a: seq<Reservation>, b: seq<Reservation>, receipts: seq<Receipt>,
                                                  account: Digest, assetId: Digest)
    requires ReservationsProgress(a, b) && AllRecorded(a, receipts)
    ensures Sum(receipts, Earned(a, account, assetId)) == Sum(receipts, Earned(b, account, assetId))
  {
    forall i | 0 <= i < |receipts|
      ensures Earned(a, account, assetId)(receipts[i]) == Earned(b, account, assetId)(receipts[i])
    {
      assert Recorded(a, receipts[i]);
      forall j | 0 <= j < |a|
        ensures a[j].id == b[j].id
      {
        assert Progresses(a[j], b[j]);
      }
      SameIdsSamePlace(a, b, receipts[i].reservationId);
      var r := ReservationAt(a, receipts[i].reservationId).value;
      assert Progresses(a[r], b[r]);
    }
    SumEqual(receipts, receipts, Earned(a, account, assetId), Earned(b, account, assetId));
  }

  /** The balance identity between two states, up to what was deposited in between. */
  predicate Explains(s: State, t: State, account: Digest, assetId: Digest, deposited: nat) {
    BalanceOf(t, account, assetId) + Expenses(t, account, assetId) + Income(s, account, assetId)
    == BalanceOf(s, account, assetId) + Expenses(s, account, assetId) + Income(t, account, assetId) + deposited
  }

  lemma {:induction false} CancelExplained(s: State, t: State, r: nat, epoch: Amount, account: Digest, assetId: Digest)
    requires AssetsOk(s.assets) && AllRecorded(s.reservations, s.receipts)
    requires Open(s, r) && AccountAt(s.accounts, s.reservations[r].payer).Some? && Refunds(s, t, r, epoch)
    ensures Explains(s, t, account, assetId, 0)
  {
    hide Recorded, AccountGains, VaultsClear, AssetsOk;
    var reservation := s.reservations[r];
    GainMovesBalance(s, t, Column(s, r), To(reservation.payer, reservation.gross), account, assetId);
    SumUpdate(s.reservations, r, reservation.(state := Cancelled), Spent(account, assetId));
    SameReceiptsSameIncome(s.reservations, t.reservations, s.receipts, account, assetId);
  }

  /** The receipt says what the quote paid. */
  predicate Witnesses(receipt: Receipt, quote: Quote, reservation: Reservation) {
    && receipt.reservationId == reservation.id && receipt.beneficiary == quote.beneficiary
    && receipt.net == quote.net && receipt.operatorFee == quote.operatorFee && receipt.reserveFee == quote.reserveFee
    && receipt.lane == quote.lane
  }

  lemma {:induction false} NewReceiptIncome(before: seq<Reservation>, r: nat, receipt: Receipt, quote: Quote,
                                            account: Digest, assetId: Digest)
    requires DistinctReservations(before) && r < |before| && Witnesses(receipt, quote, before[r])
    ensures Earned(before[r := before[r].(state := Settled)], account, assetId)(receipt)
         == if before[r].assetId == assetId then Payout(before[r], quote)(account) else 0
  {
    ReservationFound(before, r);
    SameIdsSamePlace(before, before[r := before[r].(state := Settled)], before[r].id);
  }

  lemma {:induction false} SettleExplained(s: State, t: State, r: nat, quote: Quote, receipt: Receipt,
                                           account: Digest, assetId: Digest)
    requires AssetsOk(s.assets) && AllRecorded(s.reservations, s.receipts) && DistinctReservations(s.reservations)
    requires Open(s, r) && QuoteOk(s, r, quote) && Settles(s, t, r, quote, receipt)
    requires AccountAt(s.accounts, s.reservations[r].plan.operatorAccount).Some?
    requires Witnesses(receipt, quote, s.reservations[r])
    ensures Explains(s, t, account, assetId, 0)
  {
    hide Recorded, AccountGains, VaultsClear, AssetsOk, DistinctReservations;
    var reservation := s.reservations[r];
    GainMovesBalance(s, t, Column(s, r), Payout(reservation, quote), account, assetId);
    SumUpdate(s.reservations, r, reservation.(state := Settled), Spent(account, assetId));
    SameReceiptsSameIncome(s.reservations, t.reservations, s.receipts, account, assetId);
    SumAppend(s.receipts, receipt, Earned(t.reservations, account, assetId));
    NewReceiptIncome(s.reservations, r, receipt, quote, account, assetId);
  }

  lemma {:induction false} ReserveMovesBalance(s: State, t: State, reservation: Reservation, account: Digest,
                                               assetId: Digest)
    requires AssetsOk(s.assets) && ReservationOk(s, reservation) && Reserves(s, t, reservation)
    ensures BalanceOf(s, account, assetId)
         == BalanceOf(t, account, assetId)
            + (if assetId == reservation.assetId && account == reservation.payer then reservation.gross else 0)
  {
    var k := AssetAt(s.assets, reservation.assetId).value;
    assert AccountsExtend(s.accounts, t.accounts) && AccountsExtend(t.accounts, s.accounts) by {
      forall i | 0 <= i < |s.accounts|
        ensures SameAccount(s.accounts[i], t.accounts[i]) && SameAccount(t.accounts[i], s.accounts[i])
      {
        assert AccountReserves(s.accounts[i], t.accounts[i], k, reservation.payer, reservation.gross);
      }
    }
    var i := AccountAt(s.accounts, account);
    if i.Some? {
      AccountStays(s.accounts, t.accounts, account);
      assert AccountReserves(s.accounts[i.value], t.accounts[i.value], k, reservation.payer, reservation.gross);
    } else if AccountAt(t.accounts, account).Some? {
      AccountStays(t.accounts, s.accounts, account);
      assert false;
    }
  }

  lemma {:induction false} ReserveExplained(s: State, t: State, reservation: Reservation, account: Digest,
                                            assetId: Digest)
    requires AssetsOk(s.assets) && AllRecorded(s.reservations, s.receipts)
    requires ReservationOk(s, reservation) && reservation.state == Reserved && Reserves(s, t, reservation)
    ensures Explains(s, t, account, assetId, 0)
  {
    ReserveMovesBalance(s, t, reservation, account, assetId);
    hide Recorded, AccountsReserve, Raised, AssetsOk;
    SumAppend(s.reservations, reservation, Spent(account, assetId));
    SameReceiptsSameIncome(s.reservations, t.reservations, s.receipts, account, assetId);
  }

  lemma {:induction false} DepositExplained(s: State, t: State, payee: Digest, k: nat, amount: Amount,
                                            account: Digest, assetId: Digest)
    requires AssetsOk(s.assets) && k < |s.assets| && Funds(s, t, payee, k, amount) && AccountAt(s.accounts, payee).Some?
    ensures Explains(s, t, account, assetId, if account == payee && assetId == s.assets[k] then amount else 0)
  {
    GainMovesBalance(s, t, k, To(payee, amount), account, assetId);
  }

  /** Old accounts keep their columns, new ones start empty. */
  predicate ColumnsCarry(a: seq<Account>, b: seq<Account>) {
    && |a| <= |b|
    && (forall i | 0 <= i < |a| :: b[i].balances == a[i].balances)
    && (forall i | |a| <= i < |b| :: EmptyBeyond(b[i].balances, 0))
  }

  lemma NewIsBeyond(a: seq<Account>, b: seq<Account>, account: Digest)
    requires AccountsExtend(a, b) && AccountAt(a, account).None? && AccountAt(b, account).Some?
    ensures AccountAt(b, account).value >= |a|
  {
    forall j | 0 <= j < |a|
      ensures !(b[j].active && b[j].id == account)
    {
      assert SameAccount(a[j], b[j]);
    }
  }

  lemma {:induction false} CarriedBalances(s: State, t: State, account: Digest, assetId: Digest)
    requires ColumnsOk(s.assets, s.accounts, s.issued) && Extends(s, t) && ColumnsCarry(s.accounts, t.accounts)
    ensures BalanceOf(t, account, assetId) == BalanceOf(s, account, assetId)
  {
    var i, k := AccountAt(t.accounts, account), AssetAt(t.assets, assetId);
    if AccountAt(s.accounts, account).Some? {
      AccountStays(s.accounts, t.accounts, account);
    } else if i.Some? && i.value < |s.accounts| {
      NewIsBeyond(s.accounts, t.accounts, account);
      assert false;
    }
    if AssetAt(s.assets, assetId).Some? {
      AssetStays(s.assets, t.assets, assetId);
    } else if i.Some? && k.Some? {
      assert k.value >= |s.assets|;
      assert i.value < |s.accounts| ==> EmptyBeyond(s.accounts[i.value].balances, |s.assets|);
    }
  }

  lemma {:induction false} CatalogCarries(h: Hashes, s: State, c: Command)
    requires c.CAddAsset? || c.CAddAccount? || c.CAddVault? || c.CAddLane?
    ensures var t := Step(h, s, c).after;
            ColumnsCarry(s.accounts, t.accounts) && t.reservations == s.reservations && t.receipts == s.receipts
  {
  }

  lemma {:induction false} CatalogExplained(h: Hashes, s: State, c: Command, account: Digest, assetId: Digest)
    requires ColumnsOk(s.assets, s.accounts, s.issued)
    requires c.CAddAsset? || c.CAddAccount? || c.CAddVault? || c.CAddLane?
    ensures Explains(s, Step(h, s, c).after, account, assetId, 0)
  {
    CatalogCarries(h, s, c);
    CatalogEvolves(h, s, c);
    hide Step;
    CarriedBalances(s, Step(h, s, c).after, account, assetId);
  }

  // ---------- Every step explains itself ----------

  lemma NothingExplained(s: State, t: State, account: Digest, assetId: Digest)
    requires t == s.(vaults := t.vaults)
    ensures Explains(s, t, account, assetId, 0)
  {
  }

  lemma {:induction false} ReserveCallExplained(h: Hashes, s: State, signed: SignedIntent, account: Digest,
                                                assetId: Digest)
    requires Inv(s)
    ensures Explains(s, Reserve(h, s, signed).after, account, assetId, 0)
  {
    InvParts(s);
    hide Inv, Reserve, AdmissionStatus, ReservationOk, Reserves, Explains, AssetsOk, AccountsOk, ColumnsOk, AllRecorded,
      ReservationsOk, DistinctReservations;
    var t, reservation := Reserve(h, s, signed).after, NewReservation(h, signed.terms, s.epoch);
    ReserveOutcomes(h, s, signed);
    if t == s.(vaults := t.vaults) {
      NothingExplained(s, t, account, assetId);
    } else {
      ReserveExplained(s, t, reservation, account, assetId);
    }
  }

  lemma {:induction false} ReceiptWitnesses(h: Hashes, s: State, id: Digest, epoch: Amount)
    requires SettlementQuote(h, s, id, epoch).Success?
    ensures Witnesses(ReceiptFor(h, s, id, epoch), SettlementQuote(h, s, id, epoch).value,
                      s.reservations[ReservationAt(s.reservations, id).value])
  {
    hide SettlementQuote;
  }

  lemma KnownParties(s: State, r: nat)
    requires ReservationsOk(s) && r < |s.reservations|
    ensures AccountAt(s.accounts, s.reservations[r].payer).Some?
    ensures AccountAt(s.accounts, s.reservations[r].plan.operatorAccount).Some?
  {
    assert ReservationOk(s, s.reservations[r]);
  }

  lemma {:induction false} SettleCallExplained(h: Hashes, s: State, id: Digest, epoch: Amount, account: Digest,
                                               assetId: Digest)
    requires Inv(s)
    ensures Explains(s, Settle(h, s, id, epoch).after, account, assetId, 0)
  {
    InvParts(s);
    hide Inv, Settle, SettlementQuote, Settles, QuoteOk, Explains, AssetsOk, AccountsOk, ColumnsOk, AllRecorded,
      ReservationsOk, DistinctReservations;
    SettleAllOrNothing(h, s, id, epoch);
    var t := Settle(h, s, id, epoch).after;
    if SettlementQuote(h, s, id, epoch).Success? {
      var r, quote := ReservationAt(s.reservations, id).value, SettlementQuote(h, s, id, epoch).value;
      ReceiptWitnesses(h, s, id, epoch);
      KnownParties(s, r);
      SettleExplained(s, t, r, quote, ReceiptFor(h, s, id, epoch), account, assetId);
    } else {
      NothingExplained(s, t, account, assetId);
    }
  }

  lemma {:induction false} CancelCallExplained(s: State, id: Digest, epoch: Amount, account: Digest, assetId: Digest)
    requires Inv(s)
    ensures Explains(s, Cancel(s, id, epoch).after, account, assetId, 0)
  {
    InvParts(s);
    hide Inv, Cancel, CancelStatus, Refunds, Explains, AssetsOk, AccountsOk, ColumnsOk, AllRecorded, ReservationsOk,
      DistinctReservations;
    CancelOutcomes(s, id, epoch);
    var t := Cancel(s, id, epoch).after;
    if CancelStatus(s, id, epoch) == Ok {
      var r := ReservationAt(s.reservations, id).value;
      KnownParties(s, r);
      CancelExplained(s, t, r, epoch, account, assetId);
    } else {
      NothingExplained(s, t, account, assetId);
    }
  }

  lemma DepositRefused(s: State, payee: Digest, paid: Digest, amount: Amount)
    requires !Depositable(s, payee, paid, amount)
    ensures Deposit(s, payee, paid, amount).after == s
  {
  }

  lemma {:induction false} DepositCallExplained(s: State, c: Command, account: Digest, assetId: Digest)
    requires Inv(s) && c.CDeposit? && DepositFits(s, c.account, c.asset, c.amount)
    ensures Explains(s, Deposit(s, c.account, c.asset, c.amount).after, account, assetId,
                     DepositOf(s, c, account, assetId))
  {
    InvParts(s);
    hide Inv, Deposit, Funds, Explains, AssetsOk, AccountsOk, ColumnsOk, AllRecorded, ReservationsOk,
      DistinctReservations;
    var t := Deposit(s, c.account, c.asset, c.amount).after;
    if Depositable(s, c.account, c.asset, c.amount) {
      var k := AssetAt(s.assets, c.asset).value;
      DepositFunds(s, c.account, c.asset, c.amount);
      DepositExplained(s, t, c.account, k, c.amount, account, assetId);
    } else {
      DepositRefused(s, c.account, c.asset, c.amount);
      NothingExplained(s, t, account, assetId);
    }
  }

  lemma {:induction false} StepExplained(h: Hashes, s: State, c: Command, account: Digest, assetId: Digest)
    requires Inv(s) && Admissible(h, s, c)
    ensures Explains(s, Step(h, s, c).after, account, assetId, DepositOf(s, c, account, assetId))
  {
    InvParts(s);
    hide Inv, Explains, Step, Admissible, DepositFits, Depositable, AssetsOk, AccountsOk, ColumnsOk, AllRecorded,
      ReservationsOk, DistinctReservations, Deposit, Reserve, Settle, Cancel;
    StepDispatch(h, s, c);
    if c.CDeposit? {
      DepositCallExplained(s, c, account, assetId);
    } else if c.CReserve? {
      ReserveCallExplained(h, s, c.signed, account, assetId);
    } else if c.CSettle? {
      SettleCallExplained(h, s, c.settleId, c.settleEpoch, account, assetId);
    } else if c.CCancel? {
      CancelCallExplained(s, c.cancelId, c.cancelEpoch, account, assetId);
    } else {
      CatalogExplained(h, s, c, account, assetId);
    }
  }

  lemma NothingYet(networkId: U32, account: Digest, assetId: Digest)
    ensures var s := Init(networkId);
            BalanceOf(s, account, assetId) == 0 && Expenses(s, account, assetId) == 0
            && Income(s, account, assetId) == 0
  {
  }

  /** In every reachable ledger, after failed calls too: an account's balance is what was deposited, less the gross
      amounts of its reservations that were not cancelled, plus the net amounts and operator fees its receipts paid. */
  lemma {:induction false} AccountReplay(h: Hashes, networkId: U32, commands: seq<Command>, account: Digest,
                                         assetId: Digest)
    requires AdmissibleFrom(h, Init(networkId), commands)
    ensures var s := RunFrom(h, Init(networkId), commands);
            BalanceOf(s, account, assetId) + Expenses(s, account, assetId)
            == Deposits(h, Init(networkId), commands, account, assetId) + Income(s, account, assetId)
  {
    hide Inv, Step, Admissible, BalanceOf, Expenses, Income, DepositOf;
    if |commands| == 0 {
      NothingYet(networkId, account, assetId);
    } else {
      var front := commands[..|commands| - 1];
      AccountReplay(h, networkId, front, account, assetId);
      InitInv(networkId);
      RunKeepsInv(h, Init(networkId), front);
      StepExplained(h, RunFrom(h, Init(networkId), front), Last(commands), account, assetId);
    }
  }

  // ---------- Vaults ----------

  /** The vault identity between two states, up to what was put in when the vault was opened in between. */
  predicate VaultExplains(s: State, t: State, vault: Digest, initial: nat) {
    VaultBalance(t, vault) + Retained(s, vault) == VaultBalance(s, vault) + Retained(t, vault) + initial
  }

  lemma {:induction false} ClearMovesVault(s: State, t: State, hops: seq<Hop>, gain: Digest -> nat, vault: Digest)
    requires VaultsClear(s.vaults, t.vaults, hops, gain)
    requires VaultAt(s.vaults, vault).None? ==> gain(vault) == 0
    ensures VaultBalance(t, vault) == VaultBalance(s, vault) + gain(vault)
  {
    ClearKeepsVaults(s.vaults, t.vaults, hops, gain);
    var v := VaultAt(s.vaults, vault);
    if v.Some? {
      VaultStays(s.vaults, t.vaults, vault);
      assert VaultClears(s.vaults[v.value], t.vaults[v.value], hops, gain(vault));
    } else if VaultAt(t.vaults, vault).Some? {
      VaultStays(t.vaults, s.vaults, vault);
      assert false;
    }
  }

  lemma {:induction false} SameBooksSameBalance(s: State, t: State, vault: Digest)
    requires Risen(s.vaults, t.vaults)
    ensures VaultBalance(t, vault) == VaultBalance(s, vault)
  {
    RisenKeepsVaults(s.vaults, t.vaults);
    var v := VaultAt(s.vaults, vault);
    if v.Some? {
      VaultStays(s.vaults, t.vaults, vault);
      assert SameBook(s.vaults[v.value], t.vaults[v.value]);
    } else if VaultAt(t.vaults, vault).Some? {
      VaultStays(t.vaults, s.vaults, vault);
      assert false;
    }
  }

  lemma {:induction false} SettleFillsVault(s: State, t: State, r: nat, quote: Quote, receipt: Receipt, vault: Digest)
    requires Open(s, r) && QuoteOk(s, r, quote) && Settles(s, t, r, quote, receipt)
    requires Witnesses(receipt, quote, s.reservations[r]) && VaultAt(s.vaults, Sink(s, quote)).Some?
    ensures VaultExplains(s, t, vault, 0)
  {
    hide AccountsGain;
    ClearMovesVault(s, t, s.reservations[r].plan.hops, To(Sink(s, quote), quote.reserveFee), vault);
    SumAppend(s.receipts, receipt, Kept(s.lanes, vault));
  }

  lemma {:induction false} LaneSinkKnown(s: State, l: nat)
    requires LanesOk(s) && l < |s.lanes|
    ensures VaultAt(s.vaults, s.lanes[l].sinkVault).Some?
  {
    assert LaneOk(s, s.lanes[l]);
  }

  lemma {:induction false} SettleCallFillsVault(h: Hashes, s: State, id: Digest, epoch: Amount, vault: Digest)
    requires Inv(s)
    ensures VaultExplains(s, Settle(h, s, id, epoch).after, vault, 0)
  {
    InvParts(s);
    hide Inv, Settle, SettlementQuote, Settles, VaultExplains, AssetsOk, AccountsOk, VaultsOk, LanesOk, ColumnsOk,
      ReservationsOk, DistinctReservations, ReceiptsOk, AllRecorded;
    SettleAllOrNothing(h, s, id, epoch);
    var t := Settle(h, s, id, epoch).after;
    if SettlementQuote(h, s, id, epoch).Success? {
      var r, quote := ReservationAt(s.reservations, id).value, SettlementQuote(h, s, id, epoch).value;
      ReceiptWitnesses(h, s, id, epoch);
      LaneSinkKnown(s, LaneAt(s.lanes, quote.lane).value);
      SettleFillsVault(s, t, r, quote, ReceiptFor(h, s, id, epoch), vault);
    } else {
      SameVaultsExplained(s, t, vault);
    }
  }

  lemma SameVaultsExplained(s: State, t: State, vault: Digest)
    requires t.vaults == s.vaults && t.lanes == s.lanes && t.receipts == s.receipts
    ensures VaultExplains(s, t, vault, 0)
  {
  }

  lemma {:induction false} CancelCallKeepsVault(s: State, id: Digest, epoch: Amount, vault: Digest)
    requires Inv(s)
    ensures VaultExplains(s, Cancel(s, id, epoch).after, vault, 0)
  {
    hide Inv, Cancel, CancelStatus, AccountsGain, VaultsClear;
    CancelOutcomes(s, id, epoch);
    var t := Cancel(s, id, epoch).after;
    if CancelStatus(s, id, epoch) == Ok {
      var r := ReservationAt(s.reservations, id).value;
      ClearMovesVault(s, t, s.reservations[r].plan.hops, Nobody(), vault);
    }
  }

  lemma {:induction false} ReserveKeepsVault(s: State, t: State, reservation: Reservation, vault: Digest)
    requires AssetAt(s.assets, reservation.assetId).Some? && Reserves(s, t, reservation)
    ensures VaultExplains(s, t, vault, 0)
  {
    hide AccountsReserve;
    RaisedIsRisen(s.vaults, t.vaults, reservation.plan.hops);
    SameBooksSameBalance(s, t, vault);
  }

  lemma {:induction false} ReserveCallKeepsVault(h: Hashes, s: State, signed: SignedIntent, vault: Digest)
    requires Inv(s)
    ensures VaultExplains(s, Reserve(h, s, signed).after, vault, 0)
  {
    hide Inv, Reserve, AdmissionStatus, Reserves, Risen, VaultBalance, Retained;
    var t, reservation := Reserve(h, s, signed).after, NewReservation(h, signed.terms, s.epoch);
    ReserveOutcomes(h, s, signed);
    if t == s {
    } else if t == s.(vaults := t.vaults) && Risen(s.vaults, t.vaults) {
      SameBooksSameBalance(s, t, vault);
      SameRetained(s, t, vault);
    } else {
      ReserveKeepsVault(s, t, reservation, vault);
    }
  }

  lemma SameRetained(s: State, t: State, vault: Digest)
    requires t.lanes == s.lanes && t.receipts == s.receipts
    ensures Retained(t, vault) == Retained(s, vault)
  {
  }

  lemma {:induction false} ReceiptLaneKnown(s: State, i: nat)
    requires ReservationsOk(s) && AllRecorded(s.reservations, s.receipts) && i < |s.receipts|
    ensures LaneAt(s.lanes, s.receipts[i].lane).Some?
  {
    assert Recorded(s.reservations, s.receipts[i]);
    assert ReservationOk(s, s.reservations[ReservationAt(s.reservations, s.receipts[i].reservationId).value]);
  }

  lemma {:induction false} MoreLanesSameRetained(s: State, t: State, vault: Digest)
    requires ReservationsOk(s) && AllRecorded(s.reservations, s.receipts)
    requires s.lanes <= t.lanes && t.receipts == s.receipts
    ensures Retained(t, vault) == Retained(s, vault)
  {
    forall i | 0 <= i < |s.receipts|
      ensures Kept(s.lanes, vault)(s.receipts[i]) == Kept(t.lanes, vault)(s.receipts[i])
    {
      ReceiptLaneKnown(s, i);
      LaneStays(s.lanes, t.lanes, s.receipts[i].lane);
    }
    SumEqual(s.receipts, s.receipts, Kept(s.lanes, vault), Kept(t.lanes, vault));
  }

  lemma {:induction false} NewVaultBalance(s: State, t: State, added: Vault, vault: Digest)
    requires t.vaults == s.vaults + [added] && VaultAt(s.vaults, added.id).None? && added.active
    ensures VaultBalance(t, vault) == VaultBalance(s, vault) + (if vault == added.id then added.balance else 0)
  {
    assert forall v | 0 <= v < |s.vaults| :: t.vaults[v] == s.vaults[v];
    assert t.vaults[|s.vaults|] == added;
    if VaultAt(s.vaults, vault).Some? {
      VaultStays(s.vaults, t.vaults, vault);
    }
  }

  lemma {:induction false} OtherCallsExplained(h: Hashes, s: State, c: Command, vault: Digest)
    requires ReservationsOk(s) && AllRecorded(s.reservations, s.receipts)
    requires c.CAddAsset? || c.CAddAccount? || c.CAddVault? || c.CAddLane? || c.CDeposit?
    ensures VaultExplains(s, Step(h, s, c).after, vault, Opening(h, s, c, vault))
  {
    hide ReservationsOk, AllRecorded, Retained, VaultBalance, Credit;
    var o := Step(h, s, c);
    MoreLanesSameRetained(s, o.after, vault);
    if c.CAddVault? && o.status == Ok {
      NewVaultBalance(s, o.after, Vault(h.vault(c.vaultName, c.vaultAsset), c.vaultAsset, c.initial, 0, 0, true),
                      vault);
    } else {
      SameVaultBalance(s, o.after, vault);
    }
  }

  lemma SameVaultBalance(s: State, t: State, vault: Digest)
    requires t.vaults == s.vaults
    ensures VaultBalance(t, vault) == VaultBalance(s, vault)
  {
  }

  lemma {:induction false} StepFillsVault(h: Hashes, s: State, c: Command, vault: Digest)
    requires Inv(s)
    ensures VaultExplains(s, Step(h, s, c).after, vault, Opening(h, s, c, vault))
  {
    InvParts(s);
    hide Inv, VaultExplains, Step, Admissible, AssetsOk, AccountsOk, VaultsOk, LanesOk, ColumnsOk, ReservationsOk,
      DistinctReservations, ReceiptsOk, AllRecorded, Deposit, Reserve, Settle, Cancel;
    StepDispatch(h, s, c);
    if c.CReserve? {
      ReserveCallKeepsVault(h, s, c.signed, vault);
    } else if c.CSettle? {
      SettleCallFillsVault(h, s, c.settleId, c.settleEpoch, vault);
    } else if c.CCancel? {
      CancelCallKeepsVault(s, c.cancelId, c.cancelEpoch, vault);
    } else {
      OtherCallsExplained(h, s, c, vault);
    }
  }

  lemma NoVaultYet(networkId: U32, vault: Digest)
    ensures VaultBalance(Init(networkId), vault) == 0 && Retained(Init(networkId), vault) == 0
  {
  }

  /** In every reachable ledger a vault holds what it was opened with plus the reserve fees of the receipts whose lane
      sinks there. */
  lemma {:induction false} VaultReplay(h: Hashes, networkId: U32, commands: seq<Command>, vault: Digest)
    requires AdmissibleFrom(h, Init(networkId), commands)
    ensures var s := RunFrom(h, Init(networkId), commands);
            VaultBalance(s, vault) == Openings(h, Init(networkId), commands, vault) + Retained(s, vault)
  {
    hide Inv, Step, Admissible, VaultBalance, Retained, Opening;
    if |commands| == 0 {
      NoVaultYet(networkId, vault);
    } else {
      var front := commands[..|commands| - 1];
      VaultReplay(h, networkId, front, vault);
      InitInv(networkId);
      RunKeepsInv(h, Init(networkId), front);
      StepFillsVault(h, RunFrom(h, Init(networkId), front), Last(commands), vault);
    }
  }
}
