/** The records a ledger holds, its observable totals and its lookups (include/meridian/ledger.h). */
module LedgerTypes {
  import opened Amounts
  import opened Digests
  import opened Sums
  import opened Routes

  const MAX_ASSETS: int := 4
  const MAX_ACCOUNTS: int := 16
  const MAX_VAULTS: int := 16
  const MAX_LANES: int := 16
  const MAX_RESERVATIONS: int := 32
  const MAX_RECEIPTS: int := 32
  const MAX_JOURNAL: int := 96

  /** One amount per asset slot. */
  type Columns = c: seq<Amount> | |c| == 4 witness [0, 0, 0, 0]

  type AssetList = a: seq<Digest> | |a| <= 4

  type Memo = m: string | |m| <= 63 && '\0' !in m

  datatype Account = Account(id: Digest, verifier: Digest, balances: Columns, intentNonce: Amount, active: bool)

  datatype Vault = Vault(
    id: Digest, assetId: Digest, balance: Amount, pendingOut: Amount, pendingIn: Amount, active: bool)

  datatype LaneClass = Standard | Priority | Rebalance | Recovery

  datatype Lane = Lane(
    id: Digest, assetId: Digest, sourceVault: Digest, sinkVault: Digest, terminalAccount: Digest,
    laneClass: LaneClass, operatorFeeBps: U32, reserveBps: U32, active: bool)

  datatype ReservationState = Reserved | Settled | Cancelled

  datatype Reservation = Reservation(
    id: Digest, intentId: Digest, payer: Digest, assetId: Digest, gross: Amount, plan: Plan,
    routeDigest: Digest, deadline: Amount, reservedEpoch: Amount, state: ReservationState)

  datatype Receipt = Receipt(
    id: Digest, reservationId: Digest, lane: Digest, beneficiary: Digest, routeDigest: Digest,
    gross: Amount, net: Amount, operatorFee: Amount, reserveFee: Amount, epoch: Amount)

  datatype Event = Deposited | ReservedIntent | SettledReservation | CancelledReservation

  datatype JournalEntry = JournalEntry(epoch: Amount, event: Event, subject: Digest, amount: Amount)

  datatype Terms = Terms(
    networkId: U32, intentId: Digest, payer: Digest, assetId: Digest, gross: Amount, payerNonce: Amount,
    deadline: Amount, memo: Memo, plan: Plan)

  datatype Signature = Signature(signer: Digest, authenticator: Digest)

  datatype SignedIntent = SignedIntent(terms: Terms, signature: Signature)

  /** The hash functions, left uninterpreted: nothing is assumed about them beyond being functions. */
  datatype Hashes = Hashes(
    asset: string -> Digest,
    identity: string -> (Digest, Digest),
    vault: (string, Digest) -> Digest,
    lane: (string, Digest) -> Digest,
    plan: Plan -> Digest,
    reservation: (Digest, Digest) -> Digest,
    receipt: Receipt -> Digest,
    seal: (Digest, Terms) -> Digest)

  datatype State = State(
    networkId: U32, epoch: Amount, assets: AssetList, accounts: seq<Account>, vaults: seq<Vault>,
    lanes: seq<Lane>, reservations: seq<Reservation>, receipts: seq<Receipt>, journal: seq<JournalEntry>,
    issued: Columns)

  function Init(networkId: U32): State {
    State(networkId, 1, [], [], [], [], [], [], [], [0, 0, 0, 0])
  }

  // ---------- Lookups: the first active record with the id ----------

  function AssetIs(id: Digest): Digest -> bool {
    (asset: Digest) => asset == id
  }

  function AccountIs(id: Digest): Account -> bool {
    (account: Account) => account.active && account.id == id
  }

  function VaultIs(id: Digest): Vault -> bool {
    (vault: Vault) => vault.active && vault.id == id
  }

  function LaneIs(id: Digest): Lane -> bool {
    (lane: Lane) => lane.active && lane.id == id
  }

  function ReservationIs(id: Digest): Reservation -> bool {
    (reservation: Reservation) => reservation.id == id
  }

  function AssetAt(assets: AssetList, id: Digest): (r: Option<nat>)
    ensures r.Some? ==> r.value < |assets| && assets[r.value] == id && forall j | 0 <= j < r.value :: assets[j] != id
    ensures r.None? ==> forall j | 0 <= j < |assets| :: assets[j] != id
  {
    IndexOf(assets, AssetIs(id))
  }

  function AccountAt(accounts: seq<Account>, id: Digest): (r: Option<nat>)
    ensures r.Some? ==> r.value < |accounts| && accounts[r.value].active && accounts[r.value].id == id
    ensures r.Some? ==> forall j | 0 <= j < r.value :: !(accounts[j].active && accounts[j].id == id)
    ensures r.None? ==> forall j | 0 <= j < |accounts| :: !(accounts[j].active && accounts[j].id == id)
  {
    IndexOf(accounts, AccountIs(id))
  }

  function VaultAt(vaults: seq<Vault>, id: Digest): (r: Option<nat>)
    ensures r.Some? ==> r.value < |vaults| && vaults[r.value].active && vaults[r.value].id == id
    ensures r.Some? ==> forall j | 0 <= j < r.value :: !(vaults[j].active && vaults[j].id == id)
    ensures r.None? ==> forall j | 0 <= j < |vaults| :: !(vaults[j].active && vaults[j].id == id)
  {
    IndexOf(vaults, VaultIs(id))
  }

  function LaneAt(lanes: seq<Lane>, id: Digest): (r: Option<nat>)
    ensures r.Some? ==> r.value < |lanes| && lanes[r.value].active && lanes[r.value].id == id
    ensures r.Some? ==> forall j | 0 <= j < r.value :: !(lanes[j].active && lanes[j].id == id)
    ensures r.None? ==> forall j | 0 <= j < |lanes| :: !(lanes[j].active && lanes[j].id == id)
  {
    IndexOf(lanes, LaneIs(id))
  }

  function ReservationAt(reservations: seq<Reservation>, id: Digest): (r: Option<nat>)
    ensures r.Some? ==> r.value < |reservations| && reservations[r.value].id == id
    ensures r.Some? ==> forall j | 0 <= j < r.value :: reservations[j].id != id
    ensures r.None? ==> forall j | 0 <= j < |reservations| :: reservations[j].id != id
  {
    IndexOf(reservations, ReservationIs(id))
  }

  predicate IntentKnown(reservations: seq<Reservation>, intentId: Digest) {
    exists j | 0 <= j < |reservations| :: reservations[j].intentId == intentId
  }

  function BalanceOf(s: State, accountId: Digest, assetId: Digest): Amount {
    var k, i := AssetAt(s.assets, assetId), AccountAt(s.accounts, accountId);
    if k.None? || i.None? then 0 else s.accounts[i.value].balances[k.value]
  }

  // ---------- Totals ----------

  function BalanceIn(k: nat): Account -> nat
    requires k < MAX_ASSETS
  {
    (account: Account) => account.balances[k]
  }

  function HeldAs(assetId: Digest): Vault -> nat {
    (vault: Vault) => if vault.active && vault.assetId == assetId then vault.balance else 0
  }

  function LockedAs(assetId: Digest): Reservation -> nat {
    (reservation: Reservation) =>
      if reservation.state == Reserved && reservation.assetId == assetId then reservation.gross else 0
  }

  /** Everything the ledger holds of an asset, as a mathematical integer. */
  function Observed(s: State, k: nat): nat
    requires k < |s.assets|
  {
    Sum(s.accounts, BalanceIn(k)) + Sum(s.vaults, HeldAs(s.assets[k])) + Sum(s.reservations, LockedAs(s.assets[k]))
  }

  /** The ledger's own check: its total is a wrapping 64-bit sum. */
  predicate ConservationOk(s: State, assetId: Digest) {
    var k := AssetAt(s.assets, assetId);
    k.Some? && Wrap64(Observed(s, k.value)) == s.issued[k.value]
  }

  /** What open reservations still promise to take out of, or bring into, a vault. */
  function OwedOut(vault: Digest): Reservation -> nat {
    (reservation: Reservation) =>
      if reservation.state == Reserved then Sum(reservation.plan.hops, HopOut(vault)) else 0
  }

  function OwedIn(vault: Digest): Reservation -> nat {
    (reservation: Reservation) =>
      if reservation.state == Reserved then Sum(reservation.plan.hops, HopIn(vault)) else 0
  }
}
