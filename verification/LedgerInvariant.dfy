/** The joint invariant of a ledger: what holds between its records after every admissible operation. */
module LedgerInvariant {
  import opened Amounts
  import opened Digests
  import opened Sums
  import opened Routes
  import opened LedgerTypes

  // ---------- Catalogue ----------

  predicate AssetsOk(assets: AssetList) {
    forall i, j | 0 <= i < j < |assets| :: assets[i] != assets[j]
  }

  /** Columns of assets that do not exist yet are empty. */
  predicate EmptyBeyond(columns: Columns, n: nat) {
    forall k | n <= k < MAX_ASSETS :: columns[k] == 0
  }

  predicate AccountsOk(accounts: seq<Account>) {
    && |accounts| <= MAX_ACCOUNTS
    && (forall i | 0 <= i < |accounts| :: accounts[i].active)
    && (forall i, j | 0 <= i < j < |accounts| :: accounts[i].id != accounts[j].id)
  }

  predicate ColumnsOk(assets: AssetList, accounts: seq<Account>, issued: Columns) {
    && EmptyBeyond(issued, |assets|)
    && forall i {:trigger EmptyBeyond(accounts[i].balances, |assets|)} | 0 <= i < |accounts| ::
         EmptyBeyond(accounts[i].balances, |assets|)
  }

  predicate VaultsOk(vaults: seq<Vault>) {
    && |vaults| <= MAX_VAULTS
    && (forall i | 0 <= i < |vaults| :: vaults[i].active)
    && (forall i, j | 0 <= i < j < |vaults| :: vaults[i].id != vaults[j].id)
  }

  predicate HasVault(vaults: seq<Vault>, id: Digest, assetId: Digest) {
    VaultAt(vaults, id).Some? && vaults[VaultAt(vaults, id).value].assetId == assetId
  }

  predicate VaultAssetsOk(assets: AssetList, vaults: seq<Vault>) {
    forall i {:trigger AssetAt(assets, vaults[i].assetId)} | 0 <= i < |vaults| ::
      AssetAt(assets, vaults[i].assetId).Some?
  }

  /** A lane's sink holds the lane's asset: settlement pays the reserve fee there. */
  predicate LaneOk(s: State, lane: Lane) {
    && lane.active
    && lane.operatorFeeBps + lane.reserveBps <= BPS
    && AssetAt(s.assets, lane.assetId).Some?
    && VaultAt(s.vaults, lane.sourceVault).Some?
    && HasVault(s.vaults, lane.sinkVault, lane.assetId)
    && AccountAt(s.accounts, lane.terminalAccount).Some?
  }

  predicate LanesOk(s: State) {
    && |s.lanes| <= MAX_LANES
    && (forall i {:trigger LaneOk(s, s.lanes[i])} | 0 <= i < |s.lanes| :: LaneOk(s, s.lanes[i]))
    && (forall i, j | 0 <= i < j < |s.lanes| :: s.lanes[i].id != s.lanes[j].id)
  }

  /** Every lane is in an asset there is. */
  predicate LanesKnown(s: State) {
    forall l {:trigger s.lanes[l]} | 0 <= l < |s.lanes| :: AssetAt(s.assets, s.lanes[l].assetId).Some?
  }

  lemma LanesOkKnown(s: State)
    requires LanesOk(s)
    ensures LanesKnown(s)
  {
    assert forall l | 0 <= l < |s.lanes| :: LaneOk(s, s.lanes[l]);
  }

  // ---------- Reservations ----------

  predicate HopOk(s: State, assetId: Digest, gross: Amount, hop: Hop) {
    && LaneAt(s.lanes, hop.lane).Some? && s.lanes[LaneAt(s.lanes, hop.lane).value].assetId == assetId
    && HasVault(s.vaults, hop.fromVault, assetId)
    && HasVault(s.vaults, hop.toVault, assetId)
    && hop.weightBps <= BPS && hop.amountHint <= gross
  }

  predicate HopsOk(s: State, assetId: Digest, gross: Amount, hops: seq<Hop>) {
    && 0 < |hops| <= MAX_ROUTE_HOPS
    && forall i {:trigger HopOk(s, assetId, gross, hops[i])} | 0 <= i < |hops| :: HopOk(s, assetId, gross, hops[i])
  }

  predicate SettlementLaneOk(s: State, assetId: Digest, plan: Plan) {
    && LaneAt(s.lanes, plan.settlementLane).Some?
    && var lane := s.lanes[LaneAt(s.lanes, plan.settlementLane).value];
    && lane.assetId == assetId && lane.terminalAccount == plan.beneficiary
    && lane.operatorFeeBps + lane.reserveBps <= plan.maxFeeBps
  }

  predicate ReservationOk(s: State, reservation: Reservation) {
    && AssetAt(s.assets, reservation.assetId).Some?
    && AccountAt(s.accounts, reservation.payer).Some?
    && AccountAt(s.accounts, reservation.plan.beneficiary).Some?
    && AccountAt(s.accounts, reservation.plan.operatorAccount).Some?
    && HopsOk(s, reservation.assetId, reservation.gross, reservation.plan.hops)
    && SettlementLaneOk(s, reservation.assetId, reservation.plan)
    && reservation.reservedEpoch <= reservation.deadline
  }

  predicate DistinctReservations(reservations: seq<Reservation>) {
    && |reservations| <= MAX_RESERVATIONS
    && forall i, j | 0 <= i < j < |reservations| ::
         reservations[i].id != reservations[j].id && reservations[i].intentId != reservations[j].intentId
  }

  predicate ReservationsOk(s: State) {
    && DistinctReservations(s.reservations)
    && forall r {:trigger ReservationOk(s, s.reservations[r])} | 0 <= r < |s.reservations| ::
         ReservationOk(s, s.reservations[r])
  }

  // ---------- Totals ----------

  /** Accounts, vaults and open reservations hold exactly what was issued, asset by asset, as integers. */
  predicate Conserved(s: State) {
    forall k {:trigger Observed(s, k)} | 0 <= k < |s.assets| :: Observed(s, k) == s.issued[k]
  }

  /** A vault's pending amounts cover what open reservations still promise. */
  predicate Covered(vault: Vault, reservations: seq<Reservation>) {
    && Sum(reservations, OwedOut(vault.id)) <= vault.pendingOut
    && Sum(reservations, OwedIn(vault.id)) <= vault.pendingIn
  }

  predicate PendingCovers(vaults: seq<Vault>, reservations: seq<Reservation>) {
    forall v {:trigger Covered(vaults[v], reservations)} | 0 <= v < |vaults| :: Covered(vaults[v], reservations)
  }

  function PaidBy(account: Digest): Reservation -> nat {
    (reservation: Reservation) => if reservation.payer == account then 1 else 0
  }

  predicate NoncesCount(accounts: seq<Account>, reservations: seq<Reservation>) {
    forall i {:trigger PaidBy(accounts[i].id)} | 0 <= i < |accounts| ::
      accounts[i].intentNonce == Sum(reservations, PaidBy(accounts[i].id))
  }

  // ---------- Receipts ----------

  function IsSettled(): Reservation -> nat {
    (reservation: Reservation) => if reservation.state == Settled then 1 else 0
  }

  /** The receipt is the record of this settled reservation, and splits its gross amount exactly. */
  predicate Records(receipt: Receipt, reservation: Reservation) {
    && reservation.id == receipt.reservationId
    && reservation.state == Settled
    && receipt.gross == reservation.gross
    && receipt.gross == receipt.net + receipt.operatorFee + receipt.reserveFee
    && reservation.plan.minNet <= receipt.net
    && reservation.plan.settleAfter <= receipt.epoch <= reservation.deadline
    && receipt.beneficiary == reservation.plan.beneficiary
    && receipt.lane == reservation.plan.settlementLane
  }

  predicate Recorded(reservations: seq<Reservation>, receipt: Receipt) {
    var r := ReservationAt(reservations, receipt.reservationId);
    r.Some? && Records(receipt, reservations[r.value])
  }

  predicate AllRecorded(reservations: seq<Reservation>, receipts: seq<Receipt>) {
    forall i {:trigger Recorded(reservations, receipts[i])} | 0 <= i < |receipts| :: Recorded(reservations, receipts[i])
  }

  /** Receipts and settled reservations are in bijection. */
  predicate ReceiptsOk(reservations: seq<Reservation>, receipts: seq<Receipt>) {
    && |receipts| == Sum(reservations, IsSettled())
    && AllRecorded(reservations, receipts)
    && (forall i, j | 0 <= i < j < |receipts| :: receipts[i].reservationId != receipts[j].reservationId)
  }

  predicate CatalogOk(s: State) {
    && AssetsOk(s.assets)
    && AccountsOk(s.accounts)
    && ColumnsOk(s.assets, s.accounts, s.issued)
    && VaultsOk(s.vaults)
    && VaultAssetsOk(s.assets, s.vaults)
    && LanesOk(s)
  }

  predicate Inv(s: State) {
    && CatalogOk(s)
    && ReservationsOk(s)
    && Conserved(s)
    && PendingCovers(s.vaults, s.reservations)
    && NoncesCount(s.accounts, s.reservations)
    && ReceiptsOk(s.reservations, s.receipts)
    && |s.journal| <= MAX_JOURNAL
  }

  /** The parts of the invariant that proofs about single operations start from. */
  lemma InvParts(s: State)
    requires Inv(s)
    ensures AssetsOk(s.assets) && AccountsOk(s.accounts) && VaultsOk(s.vaults) && LanesOk(s)
    ensures ColumnsOk(s.assets, s.accounts, s.issued)
    ensures ReservationsOk(s) && DistinctReservations(s.reservations)
    ensures ReceiptsOk(s.reservations, s.receipts) && AllRecorded(s.reservations, s.receipts)
    ensures NoncesCount(s.accounts, s.reservations) && LanesKnown(s)
  {
    LanesOkKnown(s);
  }

  // ---------- The catalogue only grows ----------

  predicate SameAccount(a: Account, b: Account) {
    a.id == b.id && a.verifier == b.verifier && a.active == b.active
  }

  predicate SameVault(a: Vault, b: Vault) {
    a.id == b.id && a.assetId == b.assetId && a.active == b.active
  }

  predicate AccountsExtend(a: seq<Account>, b: seq<Account>) {
    |a| <= |b| && forall i {:trigger SameAccount(a[i], b[i])} | 0 <= i < |a| :: SameAccount(a[i], b[i])
  }

  predicate VaultsExtend(a: seq<Vault>, b: seq<Vault>) {
    |a| <= |b| && forall i {:trigger SameVault(a[i], b[i])} | 0 <= i < |a| :: SameVault(a[i], b[i])
  }

  predicate Extends(s: State, t: State) {
    && s.assets <= t.assets
    && AccountsExtend(s.accounts, t.accounts)
    && VaultsExtend(s.vaults, t.vaults)
    && s.lanes <= t.lanes
  }

  lemma {:induction false} AssetStays(a: AssetList, b: AssetList, id: Digest)
    requires a <= b && AssetAt(a, id).Some?
    ensures AssetAt(b, id) == AssetAt(a, id)
  {
    var k := AssetAt(a, id).value;
    assert b[k] == id;
    assert AssetAt(b, id).value <= k;
  }

  lemma {:induction false} AccountStays(a: seq<Account>, b: seq<Account>, id: Digest)
    requires AccountsExtend(a, b) && AccountAt(a, id).Some?
    ensures AccountAt(b, id) == AccountAt(a, id)
  {
    var i := AccountAt(a, id).value;
    forall j | 0 <= j <= i
      ensures b[j].active == a[j].active && b[j].id == a[j].id
    {
      assert SameAccount(a[j], b[j]);
    }
    assert SameAccount(a[i], b[i]);
  }

  lemma {:induction false} VaultStays(a: seq<Vault>, b: seq<Vault>, id: Digest)
    requires VaultsExtend(a, b) && VaultAt(a, id).Some?
    ensures VaultAt(b, id) == VaultAt(a, id)
    ensures forall assetId :: HasVault(a, id, assetId) ==> HasVault(b, id, assetId)
  {
    var i := VaultAt(a, id).value;
    forall j | 0 <= j <= i
      ensures b[j].active == a[j].active && b[j].id == a[j].id
    {
      assert SameVault(a[j], b[j]);
    }
    assert SameVault(a[i], b[i]);
  }

  lemma {:induction false} LaneStays(a: seq<Lane>, b: seq<Lane>, id: Digest)
    requires a <= b && LaneAt(a, id).Some?
    ensures LaneAt(b, id) == LaneAt(a, id) && b[LaneAt(b, id).value] == a[LaneAt(a, id).value]
  {
    var i := LaneAt(a, id).value;
    assert b[i] == a[i];
  }

  lemma {:induction false} LaneOkStays(s: State, t: State, lane: Lane)
    requires Extends(s, t) && LaneOk(s, lane)
    ensures LaneOk(t, lane)
  {
    AssetStays(s.assets, t.assets, lane.assetId);
    VaultStays(s.vaults, t.vaults, lane.sourceVault);
    VaultStays(s.vaults, t.vaults, lane.sinkVault);
    AccountStays(s.accounts, t.accounts, lane.terminalAccount);
  }

  lemma {:induction false} HopOkStays(s: State, t: State, assetId: Digest, gross: Amount, hop: Hop)
    requires Extends(s, t) && HopOk(s, assetId, gross, hop)
    ensures HopOk(t, assetId, gross, hop)
  {
    LaneStays(s.lanes, t.lanes, hop.lane);
    VaultStays(s.vaults, t.vaults, hop.fromVault);
    VaultStays(s.vaults, t.vaults, hop.toVault);
  }

  lemma {:induction false} ReservationOkStays(s: State, t: State, reservation: Reservation)
    requires Extends(s, t) && ReservationOk(s, reservation)
    ensures ReservationOk(t, reservation)
  {
    var plan := reservation.plan;
    AssetStays(s.assets, t.assets, reservation.assetId);
    AccountStays(s.accounts, t.accounts, reservation.payer);
    AccountStays(s.accounts, t.accounts, plan.beneficiary);
    AccountStays(s.accounts, t.accounts, plan.operatorAccount);
    LaneStays(s.lanes, t.lanes, plan.settlementLane);
    forall i | 0 <= i < |plan.hops|
      ensures HopOk(t, reservation.assetId, reservation.gross, plan.hops[i])
    {
      HopOkStays(s, t, reservation.assetId, reservation.gross, plan.hops[i]);
    }
  }

  // ---------- Identifiers determine positions ----------

  lemma {:induction false} AccountFound(accounts: seq<Account>, i: nat)
    requires AccountsOk(accounts) && i < |accounts|
    ensures AccountAt(accounts, accounts[i].id) == Some(i)
  {
  }

  lemma {:induction false} VaultFound(vaults: seq<Vault>, v: nat)
    requires VaultsOk(vaults) && v < |vaults|
    ensures VaultAt(vaults, vaults[v].id) == Some(v)
  {
  }

  lemma {:induction false} ReservationFound(reservations: seq<Reservation>, r: nat)
    requires DistinctReservations(reservations) && r < |reservations|
    ensures ReservationAt(reservations, reservations[r].id) == Some(r)
  {
  }
}
