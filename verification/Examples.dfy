/** Concrete runs that reach the ledgers in which a property fails. All start from the same small catalogue: two assets,
    one account, two vaults, one lane and a deposit. */
module Examples {
  import opened Amounts
  import opened Digests
  import opened Sums
  import opened Routes
  import opened LedgerTypes
  import opened LedgerSteps
  import opened LedgerInvariant
  import opened PendingProofs
  import opened PostingProofs
  import opened ClosingProofs
  import opened ReserveProofs
  import opened SettleProofs
  import opened CatalogProofs
  import opened Runs
  import opened NoStuckFunds
  import opened PendingExact
  import opened Replay
  import opened SoundBooks
  import opened Accounting
  import opened ForeignSink

  // ---------- The catalogue ----------

  /** How the second vault is opened, which vault the lane sinks into, and what is deposited. */
  datatype Setup = Setup(networkId: U32, foreign: bool, opening: Amount, intoSecond: bool, deposited: Amount)

  function FirstAsset(h: Hashes): Digest {
    h.asset("X")
  }

  function OtherAsset(h: Hashes): Digest {
    h.asset("Y")
  }

  function HolderId(h: Hashes): Digest {
    h.identity("a").0
  }

  function FirstVaultId(h: Hashes): Digest {
    h.vault("p", FirstAsset(h))
  }

  function SecondVaultAsset(h: Hashes, u: Setup): Digest {
    if u.foreign then OtherAsset(h) else FirstAsset(h)
  }

  function SecondVaultId(h: Hashes, u: Setup): Digest {
    h.vault("w", SecondVaultAsset(h, u))
  }

  function LaneId(h: Hashes): Digest {
    h.lane("l", FirstAsset(h))
  }

  function SinkId(h: Hashes, u: Setup): Digest {
    if u.intoSecond then SecondVaultId(h, u) else FirstVaultId(h)
  }

  /** The hash functions keep the few names apart, and the supply fits. */
  predicate Fine(h: Hashes, u: Setup) {
    FirstAsset(h) != OtherAsset(h) && FirstVaultId(h) != SecondVaultId(h, u)
    && (!u.foreign ==> u.opening + u.deposited <= U64_MAX)
  }

  function Holder(h: Hashes, balance: Amount): Account {
    NewAccount(HolderId(h), h.identity("a").1).(balances := [balance, 0, 0, 0])
  }

  function FirstVault(h: Hashes): Vault {
    Vault(FirstVaultId(h), FirstAsset(h), 0, 0, 0, true)
  }

  function SecondVault(h: Hashes, u: Setup): Vault {
    Vault(SecondVaultId(h, u), SecondVaultAsset(h, u), u.opening, 0, 0, true)
  }

  function TheLane(h: Hashes, u: Setup): Lane {
    Lane(LaneId(h), FirstAsset(h), FirstVaultId(h), SinkId(h, u), HolderId(h), Standard, 0, 5000, true)
  }

  /** The commands, in the order they are given. */
  function Building(h: Hashes, u: Setup): seq<Command> {
    [CAddAsset("X"), CAddAsset("Y"), CAddAccount("a"), CAddVault("p", FirstAsset(h), 0)]
    + [CAddVault("w", SecondVaultAsset(h, u), u.opening)]
    + [CAddLane("l", FirstAsset(h), FirstVaultId(h), SinkId(h, u), HolderId(h), Standard, 0, 5000)]
    + [CDeposit(HolderId(h), FirstAsset(h), u.deposited)]
  }

  /** The ledger after four, five and six of them, and after all seven. */
  function Opened(h: Hashes, u: Setup): State {
    Init(u.networkId).(assets := [FirstAsset(h), OtherAsset(h)], accounts := [Holder(h, 0)], vaults := [FirstVault(h)])
  }

  function Stocked(h: Hashes, u: Setup): State {
    Opened(h, u).(vaults := [FirstVault(h), SecondVault(h, u)],
    issued := if u.foreign then [0, u.opening, 0, 0] else [u.opening, 0, 0, 0])
  }

  function Laned(h: Hashes, u: Setup): State {
    Stocked(h, u).(lanes := [TheLane(h, u)])
  }

  function Built(h: Hashes, u: Setup): State
    requires Fine(h, u)
  {
    Laned(h, u).(accounts := [Holder(h, u.deposited)],
    issued := if u.foreign then [u.deposited, u.opening, 0, 0] else [u.opening + u.deposited, 0, 0, 0],
    journal := [JournalEntry(1, Deposited, HolderId(h), u.deposited)])
  }

  // ---------- Reaching it ----------

  lemma {:induction false} OpenedAssets(h: Hashes, s0: State, s1: State, s2: State)
    requires FirstAsset(h) != OtherAsset(h) && s0 == Init(s0.networkId)
    requires s1 == s0.(assets := [FirstAsset(h)]) && s2 == s0.(assets := [FirstAsset(h), OtherAsset(h)])
    ensures AddAsset(h, s0, "X") == Posted(Ok, s1) && AddAsset(h, s1, "Y") == Posted(Ok, s2)
  {
    assert s1.assets == [] + [FirstAsset(h)] && s2.assets == [FirstAsset(h)] + [OtherAsset(h)];
  }

  lemma {:induction false} OpenedRecords(h: Hashes, s2: State, s3: State, s4: State)
    requires s2 == Init(s2.networkId).(assets := [FirstAsset(h), OtherAsset(h)])
    requires s3 == s2.(accounts := [Holder(h, 0)]) && s4 == s3.(vaults := [FirstVault(h)])
    ensures AddAccount(h, s2, "a") == Posted(Ok, s3) && AddVault(h, s3, "p", FirstAsset(h), 0) == Posted(Ok, s4)
  {
    assert s3.accounts == [] + [NewAccount(HolderId(h), h.identity("a").1)] && s4.vaults == [] + [FirstVault(h)];
    assert s3.assets[0] == FirstAsset(h);
    assert AssetAt(s3.assets, FirstAsset(h)) == Some(0);
    assert s3.issued[0 := 0] == s3.issued;
  }

  lemma {:induction false} SecondColumn(h: Hashes, u: Setup, assets: AssetList)
    requires FirstAsset(h) != OtherAsset(h) && assets == [FirstAsset(h), OtherAsset(h)]
    ensures AssetAt(assets, FirstAsset(h)) == Some(0)
    ensures AssetAt(assets, SecondVaultAsset(h, u)) == Some(if u.foreign then 1 else 0)
  {
    assert assets[0] == FirstAsset(h) && assets[1] == OtherAsset(h);
  }

  lemma {:induction false} StockedReached(h: Hashes, u: Setup)
    requires Fine(h, u)
    ensures AddVault(h, Opened(h, u), "w", SecondVaultAsset(h, u), u.opening) == Posted(Ok, Stocked(h, u))
  {
    var s, t := Opened(h, u), Stocked(h, u);
    SecondColumn(h, u, s.assets);
    assert t.vaults == s.vaults + [SecondVault(h, u)];
    assert s.issued == [0, 0, 0, 0];
    assert t.issued == s.issued[(if u.foreign then 1 else 0) := u.opening];
  }

  lemma {:induction false} VaultsFound(h: Hashes, u: Setup, s: State)
    requires Fine(h, u) && s.vaults == [FirstVault(h), SecondVault(h, u)]
    ensures VaultAt(s.vaults, FirstVaultId(h)) == Some(0) && VaultAt(s.vaults, SecondVaultId(h, u)) == Some(1)
    ensures VaultAt(s.vaults, SinkId(h, u)) == Some(if u.intoSecond then 1 else 0)
  {
    assert s.vaults[0].id == FirstVaultId(h) && s.vaults[1].id == SecondVaultId(h, u);
  }

  lemma {:induction false} LanedReached(h: Hashes, u: Setup)
    requires Fine(h, u)
    ensures AddLane(h, Stocked(h, u), "l", FirstAsset(h), FirstVaultId(h), SinkId(h, u), HolderId(h), Standard, 0,
                    5000) == Posted(Ok, Laned(h, u))
  {
    var s := Stocked(h, u);
    SecondColumn(h, u, s.assets);
    VaultsFound(h, u, s);
    assert s.accounts[0].active && s.accounts[0].id == HolderId(h);
    assert AccountAt(s.accounts, HolderId(h)) == Some(0);
    assert Laned(h, u).lanes == [] + [TheLane(h, u)];
  }

  lemma {:induction false} BuiltReached(h: Hashes, u: Setup)
    requires Fine(h, u)
    ensures Deposit(Laned(h, u), HolderId(h), FirstAsset(h), u.deposited) == Posted(Ok, Built(h, u))
    ensures DepositFits(Laned(h, u), HolderId(h), FirstAsset(h), u.deposited)
  {
    var s, t := Laned(h, u), Built(h, u);
    SecondColumn(h, u, s.assets);
    assert s.accounts[0].active && s.accounts[0].id == HolderId(h);
    assert AccountAt(s.accounts, HolderId(h)) == Some(0);
    assert s.accounts[0].balances[0 := u.deposited] == [u.deposited, 0, 0, 0];
    assert t.accounts == WithBalance(s.accounts, 0, 0, u.deposited);
    assert t.issued == s.issued[0 := s.issued[0] + u.deposited];
    assert t.journal == [] + [JournalEntry(1, Deposited, HolderId(h), u.deposited)];
  }

  lemma {:induction false} OpenedReached(h: Hashes, u: Setup)
    requires Fine(h, u)
    ensures RunFrom(h, Init(u.networkId),
                    [CAddAsset("X"), CAddAsset("Y"), CAddAccount("a"), CAddVault("p", FirstAsset(h), 0)])
         == Opened(h, u)
    ensures Inv(Opened(h, u))
  {
    var s0 := Init(u.networkId);
    var s1, s2 := s0.(assets := [FirstAsset(h)]), s0.(assets := [FirstAsset(h), OtherAsset(h)]);
    var s3 := s2.(accounts := [Holder(h, 0)]);
    OpenedAssets(h, s0, s1, s2);
    OpenedRecords(h, s2, s3, Opened(h, u));
    FourSteps(h, s0, s1, s2, s3, Opened(h, u));
  }

  lemma {:induction false} FourSteps(h: Hashes, s0: State, s1: State, s2: State, s3: State, s4: State)
    requires s0 == Init(s0.networkId)
    requires AddAsset(h, s0, "X") == Posted(Ok, s1) && AddAsset(h, s1, "Y") == Posted(Ok, s2)
    requires AddAccount(h, s2, "a") == Posted(Ok, s3) && AddVault(h, s3, "p", FirstAsset(h), 0) == Posted(Ok, s4)
    ensures RunFrom(h, s0, [CAddAsset("X"), CAddAsset("Y"), CAddAccount("a"), CAddVault("p", FirstAsset(h), 0)]) == s4
    ensures Inv(s4)
  {
    RunNothing(h, s0);
    InitInv(s0.networkId);
    hide *;
    var one := [CAddAsset("X")];
    var two := one + [CAddAsset("Y")];
    var three := two + [CAddAccount("a")];
    assert [CAddAsset("X"), CAddAsset("Y"), CAddAccount("a"), CAddVault("p", FirstAsset(h), 0)]
        == three + [CAddVault("p", FirstAsset(h), 0)];
    assert [] + one == one;
    RunAppend(h, s0, [], CAddAsset("X"));
    RunAppend(h, s0, one, CAddAsset("Y"));
    RunAppend(h, s0, two, CAddAccount("a"));
    RunAppend(h, s0, three, CAddVault("p", FirstAsset(h), 0));
    StepDispatch(h, s0, CAddAsset("X"));
    StepDispatch(h, s1, CAddAsset("Y"));
    StepDispatch(h, s2, CAddAccount("a"));
    StepDispatch(h, s3, CAddVault("p", FirstAsset(h), 0));
    AddAssetKeepsInv(h, s0, "X");
    AddAssetKeepsInv(h, s1, "Y");
    AddAccountKeepsInv(h, s2, "a");
    AddVaultKeepsInv(h, s3, "p", FirstAsset(h), 0);
  }

  /** The seven commands all succeed and lead to the catalogue, which is valid when the lane's sink holds its asset. */
  lemma {:induction false} BuildingRuns(h: Hashes, u: Setup)
    requires Fine(h, u)
    ensures RunFrom(h, Init(u.networkId), Building(h, u)) == Built(h, u)
    ensures !u.foreign || !u.intoSecond ==> Inv(Built(h, u))
  {
    OpenedReached(h, u);
    StockedReached(h, u);
    LanedReached(h, u);
    BuiltReached(h, u);
    SinkHolds(h, u);
    hide RunFrom, Inv, Opened, Stocked, Laned, Built, AddVault, AddLane, Deposit, DepositFits, Step, Admissible,
      HasVault, Init, Fine, AdmissibleFrom, FirstAsset, OtherAsset, HolderId, FirstVaultId, SecondVaultId, LaneId,
      SecondVaultAsset, SinkId;
    var four := [CAddAsset("X"), CAddAsset("Y"), CAddAccount("a"), CAddVault("p", FirstAsset(h), 0)];
    var c5 := CAddVault("w", SecondVaultAsset(h, u), u.opening);
    var c6 := CAddLane("l", FirstAsset(h), FirstVaultId(h), SinkId(h, u), HolderId(h), Standard, 0, 5000);
    var c7 := CDeposit(HolderId(h), FirstAsset(h), u.deposited);
    ThreeMore(h, Init(u.networkId), four, c5, c6, c7, Opened(h, u), Stocked(h, u), Laned(h, u));
    AddVaultKeepsInv(h, Opened(h, u), "w", SecondVaultAsset(h, u), u.opening);
    AddLaneKeepsInvIff(h, Stocked(h, u), "l", FirstAsset(h), FirstVaultId(h), SinkId(h, u), HolderId(h), Standard, 0,
                       5000);
    if !u.foreign || !u.intoSecond {
      DepositKeepsInvIff(Laned(h, u), HolderId(h), FirstAsset(h), u.deposited);
    }
  }

  lemma {:induction false} SinkHolds(h: Hashes, u: Setup)
    requires Fine(h, u)
    ensures HasVault(Stocked(h, u).vaults, SinkId(h, u), FirstAsset(h)) <==> !u.foreign || !u.intoSecond
  {
    VaultsFound(h, u, Stocked(h, u));
  }

  lemma {:induction false} ThreeMore(h: Hashes, s0: State, four: seq<Command>, c5: Command, c6: Command, c7: Command,
                                     s4: State, s5: State, s6: State)
    requires RunFrom(h, s0, four) == s4
    requires c5.CAddVault? && AddVault(h, s4, c5.vaultName, c5.vaultAsset, c5.initial).after == s5
    requires c6.CAddLane? && AddLane(h, s5, c6.laneName, c6.laneAsset, c6.source, c6.sink, c6.terminal, c6.laneClass,
                                     c6.operatorFeeBps, c6.reserveBps).after == s6
    requires c7.CDeposit?
    ensures RunFrom(h, s0, four + [c5] + [c6] + [c7]) == Deposit(s6, c7.account, c7.asset, c7.amount).after
  {
    hide *;
    RunAppend(h, s0, four, c5);
    RunAppend(h, s0, four + [c5], c6);
    RunAppend(h, s0, four + [c5] + [c6], c7);
    StepDispatch(h, s4, c5);
    StepDispatch(h, s5, c6);
    StepDispatch(h, s6, c7);
  }

  // ---------- Intents ----------

  function Along(h: Hashes, from: Digest, to: Digest, amount: Amount): Hop {
    Hop(LaneId(h), from, to, HolderId(h), amount, 0, 0)
  }

  function Wanted(h: Hashes, u: Setup, gross: Amount, hops: seq<Hop>, minNet: Amount, deadline: Amount): Terms {
    Terms(u.networkId, FirstAsset(h), HolderId(h), FirstAsset(h), gross, 0, deadline, "",
          Plan(LaneId(h), HolderId(h), HolderId(h), HolderId(h), hops, minNet, BPS, 0, 0))
  }

  /** The payer signs the terms with its own key. */
  function Sign(h: Hashes, terms: Terms): SignedIntent {
    SignedIntent(terms, Signature(HolderId(h), h.seal(h.identity("a").1, terms)))
  }

  /** A hop between vaults of the first asset. */
  predicate Drivable(h: Hashes, u: Setup, gross: Amount, hop: Hop) {
    && hop.lane == LaneId(h) && hop.weightBps == 0 && hop.amountHint <= gross
    && (hop.fromVault == FirstVaultId(h) || (!u.foreign && hop.fromVault == SecondVaultId(h, u)))
    && (hop.toVault == FirstVaultId(h) || (!u.foreign && hop.toVault == SecondVaultId(h, u)))
  }

  lemma {:induction false} HopAdmitted(h: Hashes, u: Setup, terms: Terms, hop: Hop)
    requires Fine(h, u) && terms.assetId == FirstAsset(h) && Drivable(h, u, terms.gross, hop)
    ensures HopStatus(Built(h, u), terms, hop) == Ok
  {
    var s := Built(h, u);
    VaultsFound(h, u, s);
    assert s.lanes[0].active && s.lanes[0].id == LaneId(h);
    assert LaneAt(s.lanes, LaneId(h)) == Some(0);
  }

  lemma {:induction false} AllHopsAdmitted(h: Hashes, u: Setup, terms: Terms, hops: seq<Hop>)
    requires Fine(h, u) && terms.assetId == FirstAsset(h)
    requires forall i | 0 <= i < |hops| :: Drivable(h, u, terms.gross, hops[i])
    ensures HopsStatus(Built(h, u), terms, hops) == Ok
  {
    hide HopStatus;
    forall i | 0 <= i < |hops|
      ensures HopStatus(Built(h, u), terms, hops[i]) == Ok
    {
      HopAdmitted(h, u, terms, hops[i]);
    }
  }

  lemma {:induction false} PlanAdmitted(h: Hashes, u: Setup, terms: Terms)
    requires Fine(h, u) && terms.assetId == FirstAsset(h) && 0 < |terms.plan.hops| <= MAX_ROUTE_HOPS
    requires terms.plan.settlementLane == LaneId(h)
             && terms.plan.beneficiary == terms.plan.operatorAccount == HolderId(h)
    requires terms.plan.maxFeeBps == BPS
    requires forall i | 0 <= i < |terms.plan.hops| :: Drivable(h, u, terms.gross, terms.plan.hops[i])
    ensures PlanStatus(Built(h, u), terms) == Ok
  {
    var s := Built(h, u);
    AllHopsAdmitted(h, u, terms, terms.plan.hops);
    assert s.accounts[0].active && s.accounts[0].id == HolderId(h) && s.lanes[0].active && s.lanes[0].id == LaneId(h);
    assert AccountAt(s.accounts, HolderId(h)) == Some(0) && LaneAt(s.lanes, LaneId(h)) == Some(0);
    hide HopsStatus, Drivable, AccountAt, LaneAt;
  }

  lemma {:induction false} Admitted(h: Hashes, u: Setup, gross: Amount, hops: seq<Hop>, minNet: Amount,
                                    deadline: Amount)
    requires Fine(h, u) && gross <= u.deposited && 1 <= deadline && 0 < |hops| <= MAX_ROUTE_HOPS
    requires forall i | 0 <= i < |hops| :: Drivable(h, u, gross, hops[i])
    ensures AdmissionStatus(h, Built(h, u), Sign(h, Wanted(h, u, gross, hops, minNet, deadline))) == Ok
  {
    var s, terms := Built(h, u), Wanted(h, u, gross, hops, minNet, deadline);
    PlanAdmitted(h, u, terms);
    SecondColumn(h, u, s.assets);
    assert s.accounts[0].active && s.accounts[0].id == HolderId(h);
    assert AccountAt(s.accounts, HolderId(h)) == Some(0);
    hide PlanStatus, AccountAt, AssetAt, Drivable;
  }

  // ---------- A deposit beyond the supply ----------

  /** The second vault opens with everything that can be issued, and nothing is deposited. */
  function Exhausted(networkId: U32): Setup {
    Setup(networkId, false, U64_MAX, false, 0)
  }

  /** One more unit deposited is refused with a policy error, but stays in the account. */
  lemma {:induction false} OverdepositExample(h: Hashes, networkId: U32)
    requires Fine(h, Exhausted(networkId))
    ensures var s := Built(h, Exhausted(networkId));
            var o := Deposit(s, HolderId(h), FirstAsset(h), 1);
            && RunFrom(h, Init(networkId), Building(h, Exhausted(networkId))) == s && Inv(s)
            && o.status == ErrPolicy && !Conserved(o.after)
            && BalanceOf(s, HolderId(h), FirstAsset(h)) == 0 && BalanceOf(o.after, HolderId(h), FirstAsset(h)) == 1
  {
    var u := Exhausted(networkId);
    var s := Built(h, u);
    BuildingRuns(h, u);
    SecondColumn(h, u, s.assets);
    assert s.accounts[0].active && s.accounts[0].id == HolderId(h);
    assert AccountAt(s.accounts, HolderId(h)) == Some(0);
    hide Inv, Conserved, RunFrom, Building;
    DepositLeaks(s, HolderId(h), FirstAsset(h), 1);
    var after := Deposit(s, HolderId(h), FirstAsset(h), 1).after.accounts;
    assert after == WithBalance(s.accounts, 0, 0, 1);
    assert after[0].active && after[0].id == HolderId(h);
    assert AccountAt(after, HolderId(h)) == Some(0);
  }

  // ---------- A reserve call that strands pending amounts ----------

  const QUARTER: Amount := 0x4000_0000_0000_0000

  function Plainly(networkId: U32, deposited: Amount): Setup {
    Setup(networkId, false, 0, false, deposited)
  }

  /** The vaults with this much pending from the first to the second. */
  function Loaded(h: Hashes, u: Setup, x: Amount): seq<Vault> {
    [FirstVault(h).(pendingOut := x), SecondVault(h, u).(pendingIn := x)]
  }

  function QuarterHop(h: Hashes, u: Setup): Hop {
    Along(h, FirstVaultId(h), SecondVaultId(h, u), QUARTER)
  }

  lemma {:induction false} QuarterAdds(h: Hashes, u: Setup, x: Amount)
    requires Fine(h, u)
    ensures UpdateHop(Loaded(h, u, x), QuarterHop(h, u), false)
         == if x + QUARTER <= U64_MAX then Posted(Ok, Loaded(h, u, x + QUARTER))
            else Posted(ErrState, Loaded(h, u, x))
  {
    var vaults := Loaded(h, u, x);
    assert vaults[0].active && vaults[0].id == FirstVaultId(h) && vaults[1].active
           && vaults[1].id == SecondVaultId(h, u);
    assert VaultAt(vaults, FirstVaultId(h)) == Some(0) && VaultAt(vaults, SecondVaultId(h, u)) == Some(1);
    var r := UpdateHop(vaults, QuarterHop(h, u), false);
    if x + QUARTER <= U64_MAX {
      assert r.after == Loaded(h, u, x + QUARTER);
    }
  }

  lemma {:induction false} QuartersStop(h: Hashes, u: Setup)
    requires Fine(h, u)
    ensures var g := QuarterHop(h, u);
            UpdateRoutePending(Loaded(h, u, 0), [g, g, g, g], false) == Posted(ErrState, Loaded(h, u, 3 * QUARTER))
  {
    var g := QuarterHop(h, u);
    hide UpdateHop, Loaded, QuarterHop, Fine;
    QuarterAdds(h, u, 0);
    QuarterAdds(h, u, QUARTER);
    QuarterAdds(h, u, 2 * QUARTER);
    QuarterAdds(h, u, 3 * QUARTER);
    assert [g, g, g, g][1..] == [g, g, g] && [g, g, g][1..] == [g, g] && [g, g][1..] == [g];
    assert UpdateRoutePending(Loaded(h, u, 3 * QUARTER), [g], false) == Posted(ErrState, Loaded(h, u, 3 * QUARTER));
    assert UpdateRoutePending(Loaded(h, u, 2 * QUARTER), [g, g], false) == Posted(ErrState, Loaded(h, u, 3 * QUARTER));
    assert UpdateRoutePending(Loaded(h, u, QUARTER), [g, g, g], false) == Posted(ErrState, Loaded(h, u, 3 * QUARTER));
  }

  function QuarterIntent(h: Hashes, u: Setup): SignedIntent {
    var g := QuarterHop(h, u);
    Sign(h, Wanted(h, u, QUARTER, [g, g, g, g], 0, 10))
  }

  lemma ReserveOverflows(h: Hashes, s: State, signed: SignedIntent, vaults: seq<Vault>)
    requires AdmissionStatus(h, s, signed) == Ok
    requires UpdateRoutePending(s.vaults, signed.terms.plan.hops, false) == Posted(ErrState, vaults)
    ensures Reserve(h, s, signed) == Posted(ErrState, s.(vaults := vaults))
  {
    hide AdmissionStatus, UpdateRoutePending;
  }

  /** One quarter of the 64-bit range is deposited, and an intent for it signed, over a route of four hops that each
      carry it. The fourth hop overflows, the call is refused - and three quarters stay pending at the first vault,
      where nothing is owed. */
  lemma {:induction false} StrandedExample(h: Hashes, networkId: U32)
    requires Fine(h, Plainly(networkId, QUARTER))
    ensures var u := Plainly(networkId, QUARTER);
            var s, signed := Built(h, u), QuarterIntent(h, u);
            && RunFrom(h, Init(networkId), Building(h, u)) == s && Inv(s)
            && Strands(h, s, signed)
            && Reserve(h, s, signed) == Posted(ErrState, s.(vaults := Loaded(h, u, 3 * QUARTER)))
            && s.vaults == Loaded(h, u, 0) && s.reservations == []
  {
    var u := Plainly(networkId, QUARTER);
    var s, g := Built(h, u), QuarterHop(h, u);
    BuildingRuns(h, u);
    Admitted(h, u, QUARTER, [g, g, g, g], 0, 10);
    QuartersStop(h, u);
    assert s.vaults == Loaded(h, u, 0);
    hide Inv, AdmissionStatus, UpdateRoutePending, Reserve, RunFrom, Building, Sign, Commits;
    ReserveOverflows(h, s, QuarterIntent(h, u), Loaded(h, u, 3 * QUARTER));
    ReserveUnchangedIff(h, s, QuarterIntent(h, u));
    assert s.vaults[0] != Loaded(h, u, 3 * QUARTER)[0];
  }

  /** Whatever happens afterwards, they stay. */
  lemma {:induction false} StrandedForGood(h: Hashes, networkId: U32, commands: seq<Command>)
    requires Fine(h, Plainly(networkId, QUARTER))
    requires var u := Plainly(networkId, QUARTER);
             AdmissibleFrom(h, Reserve(h, Built(h, u), QuarterIntent(h, u)).after, commands)
    ensures var u := Plainly(networkId, QUARTER);
            var t := RunFrom(h, Reserve(h, Built(h, u), QuarterIntent(h, u)).after, commands);
            && |t.vaults| > 0
            && t.vaults[0].pendingOut >= 3 * QUARTER + Sum(t.reservations, OwedOut(t.vaults[0].id))
  {
    var u := Plainly(networkId, QUARTER);
    StrandedExample(h, networkId);
    hide Inv, RunFrom, AdmissibleFrom, Building, Reserve, QuarterIntent, Fine, Strands, AdmissionStatus;
    ReserveOutcomes(h, Built(h, u), QuarterIntent(h, u));
    StrandedOnce(h, Reserve(h, Built(h, u), QuarterIntent(h, u)).after, commands);
  }

  lemma {:induction false} StrandedOnce(h: Hashes, s: State, commands: seq<Command>)
    requires Inv(s) && AdmissibleFrom(h, s, commands) && s.reservations == []
    requires |s.vaults| > 0 && s.vaults[0].pendingOut == 3 * QUARTER
    ensures var t := RunFrom(h, s, commands);
            && |t.vaults| > 0
            && t.vaults[0].pendingOut >= 3 * QUARTER + Sum(t.reservations, OwedOut(t.vaults[0].id))
  {
    var t := RunFrom(h, s, commands);
    hide Inv, RunFrom, AdmissibleFrom;
    RunKeepsExcess(h, s, commands);
    assert ExcessGrowsAt(s, t, 0);
  }

  // ---------- A reservation that never closes ----------

  function IdleHop(h: Hashes): Hop {
    Along(h, FirstVaultId(h), FirstVaultId(h), 0)
  }

  /** Two units over a route that carries nothing. */
  function SmallIntent(h: Hashes, u: Setup, minNet: Amount, deadline: Amount): SignedIntent {
    Sign(h, Wanted(h, u, 2, [IdleHop(h)], minNet, deadline))
  }

  lemma {:induction false} IdleAdds(h: Hashes, u: Setup)
    requires Fine(h, u)
    ensures UpdateRoutePending(Built(h, u).vaults, [IdleHop(h)], false) == Posted(Ok, Built(h, u).vaults)
  {
    var vaults := Built(h, u).vaults;
    VaultsFound(h, u, Built(h, u));
    var after := UpdateHop(vaults, IdleHop(h), false);
    assert after.after == vaults;
    assert [IdleHop(h)][1..] == [];
  }

  /** From the catalogue with a sound lane the small intent is reserved. */
  lemma {:induction false} SmallReserved(h: Hashes, u: Setup, minNet: Amount, deadline: Amount)
    requires Fine(h, u) && u.deposited == 2 && (!u.foreign || !u.intoSecond) && 1 <= deadline
    ensures var signed := SmallIntent(h, u, minNet, deadline);
            var o, reservation := Reserve(h, Built(h, u), signed), NewReservation(h, signed.terms, 1);
            && o.status == Ok && Inv(o.after)
            && o.after.reservations == [reservation] && Open(o.after, 0)
            && o.after.lanes == [TheLane(h, u)] && |o.after.journal| == 2 && o.after.receipts == []
            && o.after.vaults == Built(h, u).vaults && o.after.assets == [FirstAsset(h), OtherAsset(h)]
            && PaidOut(o.after, HolderId(h))
  {
    var s, signed := Built(h, u), SmallIntent(h, u, minNet, deadline);
    var o, reservation := Reserve(h, s, signed), NewReservation(h, signed.terms, 1);
    BuildingRuns(h, u);
    Admitted(h, u, 2, [IdleHop(h)], minNet, deadline);
    IdleAdds(h, u);
    hide Inv, AdmissionStatus, UpdateRoutePending, Reserve, ReservationOk, Reserves, Fine, RunFrom, Building;
    ReserveOutcomes(h, s, signed);
    AdmittedRoute(h, s, signed);
    OkNamesAsset(s, reservation);
    SmallAfter(s, o.after, reservation);
    SecondColumn(h, u, s.assets);
    LastSpent(s, o.after, reservation);
  }

  /** The only account holds nothing of the first asset. */
  predicate PaidOut(s: State, account: Digest) {
    |s.accounts| == 1 && s.accounts[0].active && s.accounts[0].id == account && s.accounts[0].balances[0] == 0
  }

  lemma {:induction false} LastSpent(s: State, t: State, reservation: Reservation)
    requires AssetAt(s.assets, reservation.assetId) == Some(0) && Reserves(s, t, reservation)
    requires |s.accounts| == 1 && s.accounts[0].active && s.accounts[0].id == reservation.payer
    requires s.accounts[0].balances[0] == reservation.gross
    ensures PaidOut(t, reservation.payer) && t.assets == s.assets
  {
    assert AccountReserves(s.accounts[0], t.accounts[0], 0, reservation.payer, reservation.gross);
    hide Raised, Routed;
  }

  lemma {:induction false} SmallAfter(s: State, t: State, reservation: Reservation)
    requires AssetAt(s.assets, reservation.assetId).Some? && Reserves(s, t, reservation)
             && reservation.state == Reserved
    requires s.reservations == [] && |s.journal| == 1
    requires Routed(s.vaults, reservation.plan.hops) && Silent(reservation.plan.hops)
    ensures t.reservations == [reservation] && Open(t, 0)
    ensures t.lanes == s.lanes && |t.journal| == 2 && t.receipts == s.receipts && t.vaults == s.vaults
  {
    RaisedUnchangedIff(s.vaults, t.vaults, reservation.plan.hops);
  }

  /** The reserve call as one more command of the run. */
  lemma {:induction false} OneMore(h: Hashes, u: Setup, signed: SignedIntent)
    requires Fine(h, u)
    ensures RunFrom(h, Init(u.networkId), Building(h, u) + [CReserve(signed)]) == Reserve(h, Built(h, u), signed).after
  {
    BuildingRuns(h, u);
    hide *;
    RunAppend(h, Init(u.networkId), Building(h, u), CReserve(signed));
    StepDispatch(h, Built(h, u), CReserve(signed));
  }

  /** Reserved without a last epoch, inside its settlement window, for more net than there is gross: no run ever closes
      it, and its two units stay locked. */
  lemma {:induction false} StuckExample(h: Hashes, networkId: U32)
    requires Fine(h, Plainly(networkId, 2))
    ensures var u := Plainly(networkId, 2);
            var s := RunFrom(h, Init(networkId), Building(h, u) + [CReserve(SmallIntent(h, u, U64_MAX, U64_MAX))]);
            && Inv(s) && Open(s, 0) && s.reservations[0].gross == 2 && NeverCloses(h, s, 0)
  {
    var u := Plainly(networkId, 2);
    var s := Reserve(h, Built(h, u), SmallIntent(h, u, U64_MAX, U64_MAX)).after;
    SmallReserved(h, u, U64_MAX, U64_MAX);
    OneMore(h, u, SmallIntent(h, u, U64_MAX, U64_MAX));
    PlainLane(s, TheLane(h, u), LaneId(h));
    hide Inv, Reserve, NeverCloses, RunFrom, PlainNet;
    assert Stuck(s, s.reservations[0]) by {
      NetBelowGross(s, s.reservations[0]);
    }
    NeverClosesIff(h, s, 0);
  }

  lemma {:induction false} PlainLane(s: State, lane: Lane, id: Digest)
    requires s.lanes == [lane] && lane.active && lane.id == id && lane.laneClass == Standard
    ensures LaneAt(s.lanes, id) == Some(0)
    ensures forall reservation: Reservation | reservation.plan.settlementLane == id :: Plain(s, reservation)
  {
    assert s.lanes[0].active && s.lanes[0].id == id;
  }

  lemma {:induction false} NetBelowGross(s: State, reservation: Reservation)
    requires Plain(s, reservation)
    ensures NetOf(s, reservation) <= reservation.gross
  {
  }

  // ---------- A lane with a foreign sink ----------

  /** The second vault holds the other asset, opens with this much, and takes the lane's reserve fees. */
  function Foreignly(networkId: U32, opening: Amount): Setup {
    Setup(networkId, true, opening, true, 2)
  }

  lemma {:induction false} OtherSink(h: Hashes, u: Setup)
    requires Fine(h, u)
    ensures WithSink(Built(h, u), 0, FirstVaultId(h)) == Built(h, u.(intoSecond := false))
  {
    assert Built(h, u).lanes[0 := TheLane(h, u).(sinkVault := FirstVaultId(h))]
        == [TheLane(h, u.(intoSecond := false))];
  }

  /** The ledger with the small intent reserved, over the foreign sink. */
  function ForeignlyReserved(h: Hashes, u: Setup): State
    requires Fine(h, u)
  {
    Reserve(h, Built(h, u), SmallIntent(h, u, 0, 10)).after
  }

  lemma {:induction false} ForeignReserved(h: Hashes, u: Setup)
    requires Fine(h, u) && u == Foreignly(u.networkId, u.opening)
    ensures var t, v := ForeignlyReserved(h, u), u.(intoSecond := false);
            && ValidButForSinks(t)
            && WithSink(t, 0, FirstVaultId(h)) == ForeignlyReserved(h, v)
            && t.lanes == [TheLane(h, u)] && t.vaults == Built(h, u).vaults
            && t.assets == [FirstAsset(h), OtherAsset(h)] && PaidOut(t, HolderId(h))
            && |t.reservations| == 1 && t.reservations == ForeignlyReserved(h, v).reservations
            && |t.journal| == 2 && t.receipts == []
  {
    var v := u.(intoSecond := false);
    SmallReserved(h, v, 0, 10);
    OtherSink(h, u);
    hide Inv, Reserve, Sound, Conserved, PendingCovers;
    ReserveIgnoresSink(h, Built(h, u), 0, FirstVaultId(h), SmallIntent(h, u, 0, 10));
    OneMore(h, u, SmallIntent(h, u, 0, 10));
    RunSound(h, u.networkId, Building(h, u) + [CReserve(SmallIntent(h, u, 0, 10))]);
    ElsewhereValid(ForeignlyReserved(h, u), FirstVaultId(h));
  }

  /** A sound ledger whose one lane would do with another sink. */
  lemma {:induction false} ElsewhereValid(t: State, sink: Digest)
    requires Sound(t) && |t.lanes| == 1 && Inv(WithSink(t, 0, sink))
    ensures ValidButForSinks(t)
  {
    var s := WithSink(t, 0, sink);
    hide CatalogOk, ReservationsOk, NoncesCount, Sound, Sum;
    forall k | 0 <= k < |t.assets|
      ensures Observed(t, k) == t.issued[k]
    {
      assert Observed(s, k) == s.issued[k];
    }
  }

  /** Its reservation can be quoted: one unit is the reserve fee, the other the net amount. */
  lemma {:induction false} ForeignQuoted(h: Hashes, u: Setup, epoch: Amount)
    requires Fine(h, u) && u == Foreignly(u.networkId, u.opening) && epoch <= 10
    ensures var t := ForeignlyReserved(h, u);
            && |t.reservations| == 1
            && var q := SettlementQuote(h, t, t.reservations[0].id, epoch);
            q.Success? && q.value.lane == LaneId(h) && q.value.reserveFee == 1 && q.value.net == 1
  {
    var t, v := ForeignlyReserved(h, u), ForeignlyReserved(h, u.(intoSecond := false));
    ForeignReserved(h, u);
    SmallReserved(h, u.(intoSecond := false), 0, 10);
    PlainLane(v, TheLane(h, u.(intoSecond := false)), LaneId(h));
    hide Inv, ForeignlyReserved, SettlementQuote, Fine, Built;
    SmallQuoted(h, v, u.(intoSecond := false), epoch);
    QuoteIgnoresSink(h, t, 0, FirstVaultId(h), v.reservations[0].id, epoch);
  }

  lemma {:induction false} SmallQuoted(h: Hashes, v: State, u: Setup, epoch: Amount)
    requires Inv(v) && Open(v, 0) && epoch <= 10
    requires v.reservations[0] == NewReservation(h, SmallIntent(h, u, 0, 10).terms, 1)
    requires v.lanes == [TheLane(h, u)] && LaneAt(v.lanes, LaneId(h)) == Some(0)
    ensures var q := SettlementQuote(h, v, v.reservations[0].id, epoch);
            q.Success? && q.value.lane == LaneId(h) && q.value.reserveFee == 1 && q.value.net == 1
  {
    var reservation := v.reservations[0];
    FloorUnique(0, BPS, 0);
    FloorUnique(10000, BPS, 1);
    assert PlainNet(TheLane(h, u), 2) == 1;
    hide Inv, SettlementQuote;
    QuotedIff(h, v, 0, epoch);
    SettlesAsPublished(h, v, 0, epoch);
    QuoteOfOpen(v, 0, epoch);
    QuotedLane(h, v, 0, epoch);
  }

  lemma {:induction false} QuotedLane(h: Hashes, s: State, r: nat, epoch: Amount)
    requires r < |s.reservations| && ReservationAt(s.reservations, s.reservations[r].id) == Some(r)
    requires SettlementQuote(h, s, s.reservations[r].id, epoch).Success?
    ensures var q := SettlementQuote(h, s, s.reservations[r].id, epoch).value;
            q.lane == s.reservations[r].plan.settlementLane && q.gross == s.reservations[r].gross
  {
    hide QuoteSettlement, Compact;
    QuoteIsSound(s, s.reservations[r], Compact(h.plan, s.reservations[r].plan).value);
  }

  /** What the example's settlement ends in, by how much the sink holds. */
  ghost predicate EndsBadly(h: Hashes, t: State, o: Outcome, opening: Amount) {
    && !Conserved(o.after)
    && (opening < U64_MAX ==> o.status == ErrState && |o.after.receipts| == |t.receipts| + 1)
    && (opening == U64_MAX ==>
          && o.status == ErrPolicy && o.after.reservations == t.reservations && o.after.receipts == t.receipts
          && BalanceOf(o.after, HolderId(h), FirstAsset(h)) > BalanceOf(t, HolderId(h), FirstAsset(h)))
  }

  /** Over a foreign sink with room the settlement commits, reports a state error, and money has changed its asset. Over
      a full one it stops halfway: the account has been paid, but the reservation is still open. */
  lemma {:induction false} ForeignSinkExample(h: Hashes, networkId: U32, opening: Amount, epoch: Amount)
    requires Fine(h, Foreignly(networkId, opening)) && epoch <= 10
    ensures var u := Foreignly(networkId, opening);
            var t := ForeignlyReserved(h, u);
            && RunFrom(h, Init(networkId), Building(h, u) + [CReserve(SmallIntent(h, u, 0, 10))]) == t
            && ValidButForSinks(t) && Open(t, 0)
            && EndsBadly(h, t, Settle(h, t, t.reservations[0].id, epoch), opening)
  {
    var u := Foreignly(networkId, opening);
    OneMore(h, u, SmallIntent(h, u, 0, 10));
    ForeignReserved(h, u);
    ForeignSettled(h, u, epoch);
    hide RunFrom, Building, EndsBadly, ValidButForSinks, Settle, SmallIntent, Reserve;
  }

  lemma {:induction false} ForeignSettled(h: Hashes, u: Setup, epoch: Amount)
    requires Fine(h, u) && u == Foreignly(u.networkId, u.opening) && epoch <= 10
    ensures var t := ForeignlyReserved(h, u);
            Open(t, 0) && EndsBadly(h, t, Settle(h, t, t.reservations[0].id, epoch), u.opening)
  {
    var t := ForeignlyReserved(h, u);
    ForeignReserved(h, u);
    ForeignQuoted(h, u, epoch);
    SinkFound(h, u, t);
    OnlyReservation(t);
    TermsReserved(h, u);
    hide *;
    ForeignEnds(h, t, epoch, u.opening);
  }

  lemma OnlyReservation(t: State)
    requires |t.reservations| == 1
    ensures ReservationAt(t.reservations, t.reservations[0].id) == Some(0)
  {
    assert t.reservations[0].id == t.reservations[0].id;
  }

  lemma {:induction false} TermsReserved(h: Hashes, u: Setup)
    requires Fine(h, u) && u == Foreignly(u.networkId, u.opening)
    ensures var t := ForeignlyReserved(h, u);
            && Open(t, 0) && t.reservations[0].assetId == FirstAsset(h)
            && t.reservations[0].plan.operatorAccount == HolderId(h)
            && t.reservations[0].plan.beneficiary == HolderId(h) && t.reservations[0].gross == 2
            && AssetsOk(t.assets) && AccountAt(t.accounts, HolderId(h)).Some? && |t.journal| == 2
  {
    var v := u.(intoSecond := false);
    SmallReserved(h, v, 0, 10);
    ForeignReserved(h, u);
    var r := ForeignlyReserved(h, v);
    InvParts(r);
    assert ReservationOk(r, r.reservations[0]);
    hide Inv, Reserve;
  }

  lemma SmallSilent(h: Hashes, u: Setup)
    requires Fine(h, u) && u == Foreignly(u.networkId, u.opening)
    ensures |ForeignlyReserved(h, u).reservations| == 1 && Silent(ForeignlyReserved(h, u).reservations[0].plan.hops)
  {
    SmallReserved(h, u.(intoSecond := false), 0, 10);
    ForeignReserved(h, u);
    hide Inv, Reserve;
  }

  lemma {:induction false} ForeignEnds(h: Hashes, t: State, epoch: Amount, opening: Amount)
    requires ValidButForSinks(t) && Open(t, 0) && ReservationAt(t.reservations, t.reservations[0].id) == Some(0)
    requires LaneAt(t.lanes, LaneId(h)).Some?
    requires var sink := VaultAt(t.vaults, t.lanes[LaneAt(t.lanes, LaneId(h)).value].sinkVault);
             && sink.Some? && t.vaults[sink.value].assetId != FirstAsset(h) && t.vaults[sink.value].balance == opening
    requires AssetsOk(t.assets) && AccountAt(t.accounts, HolderId(h)).Some? && |t.journal| == 2
    requires t.reservations[0].assetId == FirstAsset(h) && t.reservations[0].plan.beneficiary == HolderId(h)
    requires var q := SettlementQuote(h, t, t.reservations[0].id, epoch);
             q.Success? && q.value.lane == LaneId(h) && q.value.reserveFee == 1 && q.value.net == 1
    ensures EndsBadly(h, t, Settle(h, t, t.reservations[0].id, epoch), opening)
  {
    var o, quote := Settle(h, t, t.reservations[0].id, epoch), SettlementQuote(h, t, t.reservations[0].id, epoch).value;
    var receipt := ReceiptFor(h, t, t.reservations[0].id, epoch);
    assert 0 < |t.reservations|;
    hide *;
    QuotedBeneficiary(h, t, 0, epoch);
    ForeignSinkOutcomes(h, t, t.reservations[0].id, epoch);
    SinkMet(h, t, quote, opening);
    if SinkTakes(t, quote) {
      BadCommit(h, t, o, quote, receipt, opening);
    } else {
      HalfwayPays(t, o, 0, quote, HolderId(h));
      BadStop(h, t, o, quote, opening);
    }
  }

  lemma SinkMet(h: Hashes, t: State, quote: Quote, opening: Amount)
    requires Payable(t, 0, quote) && quote.lane == LaneId(h) && quote.reserveFee == 1
    requires t.reservations[0].assetId == FirstAsset(h)
    requires var sink := VaultAt(t.vaults, t.lanes[LaneAt(t.lanes, LaneId(h)).value].sinkVault);
             && sink.Some? && t.vaults[sink.value].assetId != FirstAsset(h) && t.vaults[sink.value].balance == opening
    ensures SinkTakes(t, quote) <==> opening < U64_MAX
    ensures !FeeStays(t, 0, quote)
  {
    hide Payable, LaneAt, VaultAt;
  }

  lemma BadCommit(h: Hashes, t: State, o: Outcome, quote: Quote, receipt: Receipt, opening: Amount)
    requires Payable(t, 0, quote) && Settles(t, o.after, 0, quote, receipt)
    requires opening < U64_MAX && !Conserved(o.after) && |t.journal| == 2
    requires o.status == if |t.journal| >= MAX_JOURNAL then ErrCapacity else ErrState
    ensures EndsBadly(h, t, o, opening)
  {
    hide Payable, Conserved, AccountsGain, VaultsClear, LaneAt, VaultAt, AccountAt, BalanceOf;
  }

  lemma BadStop(h: Hashes, t: State, o: Outcome, quote: Quote, opening: Amount)
    requires Payable(t, 0, quote) && StopsAt(t, o, 0, quote, SinkRefused) && t.reservations[0].assetId == FirstAsset(h)
    requires quote.net == 1 && opening == U64_MAX
    requires Conserved(o.after) <==> quote.net + quote.operatorFee == 0
    requires BalanceOf(o.after, HolderId(h), t.reservations[0].assetId)
          >= BalanceOf(t, HolderId(h), t.reservations[0].assetId) + quote.net
    ensures EndsBadly(h, t, o, opening)
  {
    hide Payable, Conserved, AccountsGain, VaultsClear, SameBooks, BalanceOf;
  }

  lemma {:induction false} QuotedBeneficiary(h: Hashes, s: State, r: nat, epoch: Amount)
    requires r < |s.reservations| && ReservationAt(s.reservations, s.reservations[r].id) == Some(r)
    requires SettlementQuote(h, s, s.reservations[r].id, epoch).Success?
    ensures SettlementQuote(h, s, s.reservations[r].id, epoch).value.beneficiary == s.reservations[r].plan.beneficiary
  {
    hide QuoteSettlement, Compact;
    QuoteIsSound(s, s.reservations[r], Compact(h.plan, s.reservations[r].plan).value);
  }

  lemma {:induction false} SinkFound(h: Hashes, u: Setup, t: State)
    requires Fine(h, u) && u == Foreignly(u.networkId, u.opening)
    requires t.lanes == [TheLane(h, u)] && t.vaults == Built(h, u).vaults
    ensures LaneAt(t.lanes, LaneId(h)) == Some(0) && FirstAsset(h) != OtherAsset(h)
    ensures var sink := VaultAt(t.vaults, t.lanes[0].sinkVault);
            sink.Some? && t.vaults[sink.value].assetId == OtherAsset(h) && t.vaults[sink.value].balance == u.opening
  {
    VaultsFound(h, u, t);
    assert t.lanes[0].active && t.lanes[0].id == LaneId(h);
  }

  lemma {:induction false} HalfwayPays(s: State, o: Outcome, r: nat, quote: Quote, account: Digest)
    requires AssetsOk(s.assets) && Open(s, r) && StopsAt(s, o, r, quote, SinkRefused) && quote.beneficiary == account
    requires AccountAt(s.accounts, account).Some?
    ensures BalanceOf(o.after, account, s.reservations[r].assetId)
         >= BalanceOf(s, account, s.reservations[r].assetId) + quote.net
  {
    hide AccountsGain, VaultsClear, BalanceOf, SameBooks;
    GainMovesBalance(s, o.after, Column(s, r), Payout(s.reservations[r], quote), account, s.reservations[r].assetId);
  }

  /** Over the full sink every further call pays the account one unit more, with nothing left behind for it: it ends up
      with as many units as there were calls, of an asset of which two were ever issued. */
  lemma {:induction false} PaidAgainExample(h: Hashes, networkId: U32, n: Amount, epoch: Amount)
    requires Fine(h, Foreignly(networkId, U64_MAX)) && epoch <= 10
    ensures var s := ForeignlyReserved(h, Foreignly(networkId, U64_MAX));
            && |s.reservations| == 1
            && var t := RunFrom(h, s, Times(n, CSettle(s.reservations[0].id, epoch)));
            && BalanceOf(t, HolderId(h), FirstAsset(h)) == n
            && t.issued == s.issued && t.reservations == s.reservations && t.receipts == []
  {
    var u := Foreignly(networkId, U64_MAX);
    var s := ForeignlyReserved(h, u);
    ForeignReserved(h, u);
    ForeignQuoted(h, u, epoch);
    SinkFound(h, u, s);
    OnlyReservation(s);
    TermsReserved(h, u);
    SmallSilent(h, u);
    hide *;
    PaidEachTime(h, s, SettlementQuote(h, s, s.reservations[0].id, epoch).value, n, epoch);
  }

  /** A quote over the small reservation, and the sink it meets. */
  predicate SmallQuote(h: Hashes, s: State, quote: Quote) {
    && Open(s, 0) && s.reservations[0].gross == 2 && s.reservations[0].assetId == FirstAsset(h)
    && s.reservations[0].plan.operatorAccount == s.reservations[0].plan.beneficiary == HolderId(h)
    && quote.lane == LaneId(h) && quote.reserveFee == 1 && quote.net == 1 && LaneAt(s.lanes, LaneId(h)).Some?
    && var sink := VaultAt(s.vaults, s.lanes[LaneAt(s.lanes, LaneId(h)).value].sinkVault);
    sink.Some? && s.vaults[sink.value].balance == U64_MAX
  }

  lemma {:induction false} SmallStops(h: Hashes, s: State, quote: Quote, epoch: Amount)
    requires ValidButForSinks(s) && SmallQuote(h, s, quote) && Silent(s.reservations[0].plan.hops)
    requires ReservationAt(s.reservations, s.reservations[0].id) == Some(0)
    requires SettlementQuote(h, s, s.reservations[0].id, epoch) == Success(quote)
    ensures StopsEmptyHanded(h, s, 0, quote, epoch)
    ensures Payout(s.reservations[0], quote)(HolderId(h)) == 1
  {
    SoundParts(s);
    QuotedBeneficiary(h, s, 0, epoch);
    AcceptedQuote(h, s, s.reservations[0].id, epoch);
    OnlySinksRefuse(s, 0, quote);
    hide ValidButForSinks, SettlementQuote, Silent, Payable, EndOf, LaneAt, VaultAt, AssetsOk, AccountsOk, VaultsOk,
      ColumnsOk, CatalogOk, LanesSound, LanesKnown, ReservationsOk, DistinctReservations, NoncesCount, VaultAssetsOk;
  }

  lemma {:induction false} OnlyHolder(s: State, asset: Digest, account: Digest)
    requires |s.assets| > 0 && s.assets[0] == asset && PaidOut(s, account)
    ensures AssetAt(s.assets, asset) == Some(0) && BalanceOf(s, account, asset) == 0
    ensures AccountAt(s.accounts, account) == Some(0)
  {
  }

  lemma {:induction false} PaymentsFitOne(s: State, account: Digest, payout: Digest -> nat, n: Amount)
    requires PaidOut(s, account) && payout(account) == 1
    ensures PaymentsFit(s.accounts, 0, payout, n) && Scaled(n, payout)(account) == n
  {
  }

  lemma {:induction false} PaidEachTime(h: Hashes, s: State, quote: Quote, n: Amount, epoch: Amount)
    requires ValidButForSinks(s) && SmallQuote(h, s, quote) && Silent(s.reservations[0].plan.hops)
    requires ReservationAt(s.reservations, s.reservations[0].id) == Some(0)
    requires |s.assets| > 0 && s.assets[0] == FirstAsset(h) && PaidOut(s, HolderId(h))
    requires SettlementQuote(h, s, s.reservations[0].id, epoch) == Success(quote)
    ensures var t := RunFrom(h, s, Times(n, CSettle(s.reservations[0].id, epoch)));
            && BalanceOf(t, HolderId(h), FirstAsset(h)) == n
            && t == s.(accounts := t.accounts)
  {
    var payout := Payout(s.reservations[0], quote);
    var t := RunFrom(h, s, Times(n, CSettle(s.reservations[0].id, epoch)));
    assert Sound(s) && s.reservations[0].assetId == FirstAsset(h);
    hide *;
    SoundParts(s);
    SmallStops(h, s, quote, epoch);
    OnlyHolder(s, FirstAsset(h), HolderId(h));
    PaymentsFitOne(s, HolderId(h), payout, n);
    FirstColumn(s);
    HalfwayPaysAgain(h, s, 0, quote, n, epoch);
    PaidShows(s, t, 0, quote, n);
    GainMovesBalance(s, t, 0, Scaled(n, payout), HolderId(h), FirstAsset(h));
  }

  lemma FirstColumn(s: State)
    requires Open(s, 0) && AssetAt(s.assets, s.reservations[0].assetId) == Some(0)
    ensures Column(s, 0) == 0
  {
  }

  lemma PaidShows(s: State, t: State, r: nat, quote: Quote, n: nat)
    requires Open(s, r) && PaidTimes(s, t, r, quote, n)
    ensures AccountsGain(s.accounts, t.accounts, Column(s, r), Scaled(n, Payout(s.reservations[r], quote)))
    ensures t == s.(accounts := t.accounts)
  {
  }
}
