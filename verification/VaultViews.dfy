/** What the ledger publishes about a vault (src/ledger.c). */
module VaultViews {
  import opened Amounts
  import opened Digests
  import opened Sums
  import opened Routes
  import opened LedgerTypes
  import opened LedgerInvariant
  import opened Counting

  datatype VaultView = VaultView(
    id: Digest, assetId: Digest, balance: Amount, pendingIn: Amount, pendingOut: Amount, available: Amount,
    outbound: nat, inbound: nat)

  function Source(): Lane -> Digest {
    (lane: Lane) => lane.sourceVault
  }

  function SinkEnd(): Lane -> Digest {
    (lane: Lane) => lane.sinkVault
  }

  /** Whether an active lane has this vault at the given end. */
  function EndsAt(end: Lane -> Digest, vault: Digest): Lane -> nat {
    (lane: Lane) => if lane.active && end(lane) == vault then 1 else 0
  }

  function LanesAt(end: Lane -> Digest, lanes: seq<Lane>): Vault -> nat {
    (vault: Vault) => Sum(lanes, EndsAt(end, vault.id))
  }

  function ViewOf(vaults: seq<Vault>, lanes: seq<Lane>, id: Digest): Result<VaultView> {
    match VaultAt(vaults, id)
    case None => Failure(ErrNotFound)
    case Some(v) =>
      var vault := vaults[v];
      Success(VaultView(vault.id, vault.assetId, vault.balance, vault.pendingIn, vault.pendingOut,
                        if vault.pendingOut > vault.balance then 0 else vault.balance - vault.pendingOut,
                        Sum(lanes, EndsAt(Source(), id)), Sum(lanes, EndsAt(SinkEnd(), id))))
  }

  lemma {:induction false} SameIdSameVault(vaults: seq<Vault>, v: nat, id: Digest)
    requires VaultsOk(vaults) && v < |vaults| && VaultAt(vaults, id).Some?
    ensures vaults[v].id == id <==> v == VaultAt(vaults, id).value
  {
    VaultFound(vaults, v);
  }

  lemma {:induction false} OneLane(end: Lane -> Digest, lane: Lane, vault: Vault)
    requires lane.active
    ensures LanesAt(end, [lane])(vault) == if vault.id == end(lane) then 1 else 0
  {
    assert [lane] == [] + [lane];
    SumAppend([], lane, EndsAt(end, vault.id));
  }

  lemma {:induction false} OneVaultHasEnd(vaults: seq<Vault>, end: Lane -> Digest, lane: Lane)
    requires VaultsOk(vaults) && lane.active && VaultAt(vaults, end(lane)).Some?
    ensures Sum(vaults, LanesAt(end, [lane])) == 1
  {
    hide *;
    var w := VaultAt(vaults, end(lane)).value;
    forall v | 0 <= v < |vaults|
      ensures LanesAt(end, [lane])(vaults[v]) == if v == w then 1 else 0
    {
      OneLane(end, lane, vaults[v]);
      SameIdSameVault(vaults, v, end(lane));
    }
    SumOfIndicator(vaults, w, LanesAt(end, [lane]));
  }

  lemma {:induction false} LanesSplit(vaults: seq<Vault>, end: Lane -> Digest, front: seq<Lane>, last: Lane)
    ensures Sum(vaults, LanesAt(end, front + [last]))
         == Sum(vaults, LanesAt(end, front)) + Sum(vaults, LanesAt(end, [last]))
    decreases |vaults|
  {
    if |vaults| > 0 {
      var n := |vaults| - 1;
      LanesSplit(vaults[..n], end, front, last);
      SumConcat(front, [last], EndsAt(end, vaults[n].id));
    }
  }

  lemma {:induction false} EveryLaneEndsOnce(vaults: seq<Vault>, end: Lane -> Digest, lanes: seq<Lane>)
    requires VaultsOk(vaults)
    requires forall l | 0 <= l < |lanes| :: lanes[l].active && VaultAt(vaults, end(lanes[l])).Some?
    ensures Sum(vaults, LanesAt(end, lanes)) == |lanes|
    decreases |lanes|
  {
    if |lanes| == 0 {
      SumZero(vaults, LanesAt(end, lanes));
    } else {
      var front, last := lanes[..|lanes| - 1], Last(lanes);
      EveryLaneEndsOnce(vaults, end, front);
      OneVaultHasEnd(vaults, end, last);
      LanesSplit(vaults, end, front, last);
      assert front + [last] == lanes;
    }
  }

  /** Over all vaults of a valid ledger, the published lane counts see every lane once at its source and once at its
      sink. */
  lemma {:induction false} ViewsCountEveryLane(s: State)
    requires Inv(s)
    ensures Sum(s.vaults, LanesAt(Source(), s.lanes)) == |s.lanes|
    ensures Sum(s.vaults, LanesAt(SinkEnd(), s.lanes)) == |s.lanes|
    ensures forall v | 0 <= v < |s.vaults| ::
              var view := ViewOf(s.vaults, s.lanes, s.vaults[v].id);
              && view.Success?
              && view.value.outbound == LanesAt(Source(), s.lanes)(s.vaults[v])
              && view.value.inbound == LanesAt(SinkEnd(), s.lanes)(s.vaults[v])
              && view.value.available + Min(view.value.pendingOut, view.value.balance) == s.vaults[v].balance
  {
    InvParts(s);
    LanesEndSomewhere(s);
    hide *;
    EveryLaneEndsOnce(s.vaults, Source(), s.lanes);
    EveryLaneEndsOnce(s.vaults, SinkEnd(), s.lanes);
    forall v | 0 <= v < |s.vaults|
      ensures var view := ViewOf(s.vaults, s.lanes, s.vaults[v].id);
              && view.Success?
              && view.value.outbound == LanesAt(Source(), s.lanes)(s.vaults[v])
              && view.value.inbound == LanesAt(SinkEnd(), s.lanes)(s.vaults[v])
              && view.value.available + Min(view.value.pendingOut, view.value.balance) == s.vaults[v].balance
    {
      VaultFound(s.vaults, v);
      ViewIs(s.vaults, s.lanes, v);
    }
  }

  lemma LanesEndSomewhere(s: State)
    requires LanesOk(s)
    ensures forall l | 0 <= l < |s.lanes| :: s.lanes[l].active && VaultAt(s.vaults, Source()(s.lanes[l])).Some?
    ensures forall l | 0 <= l < |s.lanes| :: s.lanes[l].active && VaultAt(s.vaults, SinkEnd()(s.lanes[l])).Some?
  {
    assert forall l | 0 <= l < |s.lanes| :: LaneOk(s, s.lanes[l]);
  }

  lemma ViewIs(vaults: seq<Vault>, lanes: seq<Lane>, v: nat)
    requires v < |vaults| && VaultAt(vaults, vaults[v].id) == Some(v)
    ensures var view := ViewOf(vaults, lanes, vaults[v].id);
            && view.Success?
            && view.value.outbound == LanesAt(Source(), lanes)(vaults[v])
            && view.value.inbound == LanesAt(SinkEnd(), lanes)(vaults[v])
            && view.value.available + Min(view.value.pendingOut, view.value.balance) == vaults[v].balance
  {
  }

  /** The view carries the record's identity, balance and both pending amounts; available is what the balance leaves
      beyond the outgoing amount. */
  predicate Shows(vault: Vault, view: VaultView) {
    && view.id == vault.id && view.assetId == vault.assetId && view.balance == vault.balance
    && view.pendingIn == vault.pendingIn && view.pendingOut == vault.pendingOut
    && view.available == Max(0, vault.balance - vault.pendingOut)
  }

  /** The view of a vault of a valid ledger shows its record. What is available is never promised: it stays under the
      balance less all that open reservations still take out of the vault. */
  lemma {:induction false} ViewShowsRecord(s: State, v: nat)
    requires Inv(s) && v < |s.vaults|
    ensures var vault, view := s.vaults[v], ViewOf(s.vaults, s.lanes, s.vaults[v].id);
            && view.Success? && Shows(vault, view.value)
            && view.value.available <= Max(0, vault.balance - Sum(s.reservations, OwedOut(vault.id)))
  {
    InvParts(s);
    VaultFound(s.vaults, v);
    assert Covered(s.vaults[v], s.reservations);
    hide Inv, Sum;
  }

  lemma NoView(vaults: seq<Vault>, lanes: seq<Lane>, id: Digest)
    requires forall v | 0 <= v < |vaults| && vaults[v].active :: vaults[v].id != id
    ensures ViewOf(vaults, lanes, id) == Failure(ErrNotFound)
  {
    assert VaultAt(vaults, id).None?;
  }
}
