/** What adding and releasing the pending amounts of a route does to every vault. */
module PendingProofs {
  import opened Amounts
  import opened Digests
  import opened Sums
  import opened Routes
  import opened LedgerTypes
  import opened LedgerSteps
  import opened LedgerInvariant

  /** Same vault up to its pending amounts. */
  predicate SameBook(a: Vault, b: Vault) {
    SameVault(a, b) && a.balance == b.balance
  }

  /** `high` is `low` with the amounts of these hops pending on top. */
  predicate RaisedAt(low: Vault, high: Vault, hops: seq<Hop>) {
    && SameBook(low, high)
    && high.pendingOut == low.pendingOut + Sum(hops, HopOut(low.id))
    && high.pendingIn == low.pendingIn + Sum(hops, HopIn(low.id))
  }

  predicate Raised(low: seq<Vault>, high: seq<Vault>, hops: seq<Hop>) {
    && |low| == |high|
    && forall v {:trigger RaisedAt(low[v], high[v], hops)} | 0 <= v < |low| :: RaisedAt(low[v], high[v], hops)
  }

  /** Pending amounts only went up. */
  predicate Risen(low: seq<Vault>, high: seq<Vault>) {
    |low| == |high| && forall v | 0 <= v < |low| ::
      SameBook(low[v], high[v]) && low[v].pendingOut <= high[v].pendingOut && low[v].pendingIn <= high[v].pendingIn
  }

  predicate Routed(vaults: seq<Vault>, hops: seq<Hop>) {
    forall i | 0 <= i < |hops| :: VaultAt(vaults, hops[i].fromVault).Some? && VaultAt(vaults, hops[i].toVault).Some?
  }

  lemma {:induction false} RoutedStays(a: seq<Vault>, b: seq<Vault>, hops: seq<Hop>)
    requires Routed(a, hops) && VaultsExtend(a, b)
    ensures Routed(b, hops)
  {
    forall i | 0 <= i < |hops|
      ensures VaultAt(b, hops[i].fromVault).Some? && VaultAt(b, hops[i].toVault).Some?
    {
      VaultStays(a, b, hops[i].fromVault);
      VaultStays(a, b, hops[i].toVault);
    }
  }

  /** One hop added or released, seen from every vault. */
  lemma {:induction false} UpdateHopEffect(vaults: seq<Vault>, hop: Hop, release: bool)
    requires VaultsOk(vaults)
    requires VaultAt(vaults, hop.fromVault).Some? && VaultAt(vaults, hop.toVault).Some?
    ensures var r := UpdateHop(vaults, hop, release);
            && (r.status == Ok || r == Posted(ErrState, vaults))
            && (r.status == Ok && !release ==> Raised(vaults, r.after, [hop]))
            && (r.status == Ok && release ==> Raised(r.after, vaults, [hop]))
  {
    var r := UpdateHop(vaults, hop, release);
    if r.status == Ok {
      forall v | 0 <= v < |vaults|
        ensures if release then RaisedAt(r.after[v], vaults[v], [hop]) else RaisedAt(vaults[v], r.after[v], [hop])
      {
        SumSingle(hop, vaults[v].id);
        VaultFound(vaults, v);
      }
    }
  }

  lemma {:induction false} SumSingle(hop: Hop, vault: Digest)
    ensures Sum([hop], HopOut(vault)) == HopOut(vault)(hop) && Sum([hop], HopIn(vault)) == HopIn(vault)(hop)
  {
    assert [hop] == [] + [hop];
    SumAppend([], hop, HopOut(vault));
    SumAppend([], hop, HopIn(vault));
  }

  lemma {:induction false} RaisedChain(low: seq<Vault>, mid: seq<Vault>, high: seq<Vault>, xs: seq<Hop>, ys: seq<Hop>)
    requires Raised(low, mid, xs) && Raised(mid, high, ys)
    ensures Raised(low, high, xs + ys)
  {
    forall v | 0 <= v < |low|
      ensures RaisedAt(low[v], high[v], xs + ys)
    {
      assert RaisedAt(low[v], mid[v], xs) && RaisedAt(mid[v], high[v], ys);
      SumConcat(xs, ys, HopOut(low[v].id));
      SumConcat(xs, ys, HopIn(low[v].id));
    }
  }

  lemma {:induction false} RaisedIsRisen(low: seq<Vault>, high: seq<Vault>, hops: seq<Hop>)
    requires Raised(low, high, hops)
    ensures Risen(low, high)
  {
    forall v | 0 <= v < |low|
      ensures SameBook(low[v], high[v]) && low[v].pendingOut <= high[v].pendingOut
              && low[v].pendingIn <= high[v].pendingIn
    {
      assert RaisedAt(low[v], high[v], hops);
    }
  }

  lemma {:induction false} RisenKeepsVaults(low: seq<Vault>, high: seq<Vault>)
    requires Risen(low, high)
    ensures VaultsExtend(low, high) && VaultsExtend(high, low)
    ensures VaultsOk(low) <==> VaultsOk(high)
  {
    forall v | 0 <= v < |low|
      ensures SameVault(low[v], high[v])
    {
      assert SameBook(low[v], high[v]);
    }
    assert forall v | 0 <= v < |high| :: SameVault(low[v], high[v]) ==> SameVault(high[v], low[v]);
  }

  lemma RisenChain(low: seq<Vault>, mid: seq<Vault>, high: seq<Vault>)
    requires Risen(low, mid) && Risen(mid, high)
    ensures Risen(low, high)
  {
  }

  lemma {:induction false} AddFirst(vaults: seq<Vault>, hops: seq<Hop>)
    requires VaultsOk(vaults) && Routed(vaults, hops) && |hops| > 0
    ensures var r := UpdateHop(vaults, hops[0], false);
            && (r.status == Ok || r == Posted(ErrState, vaults))
            && (r.status == Ok ==> && Raised(vaults, r.after, [hops[0]]) && Risen(vaults, r.after)
                                   && VaultsOk(r.after) && Routed(r.after, hops[1..]))
  {
    UpdateHopEffect(vaults, hops[0], false);
    var r := UpdateHop(vaults, hops[0], false);
    if r.status == Ok {
      RaisedIsRisen(vaults, r.after, [hops[0]]);
      RisenKeepsVaults(vaults, r.after);
      RoutedStays(vaults, r.after, hops[1..]);
    }
  }

  /** Adding a route either applies it whole, or stops in an overflow that leaves pending amounts too high. */
  lemma {:induction false} AddRoute(vaults: seq<Vault>, hops: seq<Hop>)
    requires VaultsOk(vaults) && Routed(vaults, hops)
    ensures var r := UpdateRoutePending(vaults, hops, false);
            && (r.status == Ok || r.status == ErrState)
            && (r.status == Ok ==> Raised(vaults, r.after, hops))
            && Risen(vaults, r.after)
    decreases |hops|
  {
    if |hops| > 0 {
      var first := UpdateHop(vaults, hops[0], false);
      AddFirst(vaults, hops);
      if first.status == Ok {
        AddRoute(first.after, hops[1..]);
        AddRest(vaults, first.after, hops, UpdateRoutePending(first.after, hops[1..], false));
      }
    }
  }

  lemma {:induction false} AddRest(vaults: seq<Vault>, mid: seq<Vault>, hops: seq<Hop>, rest: Posted<seq<Vault>>)
    requires |hops| > 0 && Raised(vaults, mid, [hops[0]]) && Risen(vaults, mid) && Risen(mid, rest.after)
    requires rest.status == Ok ==> Raised(mid, rest.after, hops[1..])
    ensures Risen(vaults, rest.after)
    ensures rest.status == Ok ==> Raised(vaults, rest.after, hops)
  {
    RisenChain(vaults, mid, rest.after);
    if rest.status == Ok {
      RaisedChain(vaults, mid, rest.after, [hops[0]], hops[1..]);
      assert [hops[0]] + hops[1..] == hops;
    }
  }

  predicate Bounds(vault: Vault, hops: seq<Hop>) {
    Sum(hops, HopOut(vault.id)) <= vault.pendingOut && Sum(hops, HopIn(vault.id)) <= vault.pendingIn
  }

  /** Releasing a route that every vault has pending succeeds and takes off exactly its amounts. */
  lemma {:induction false} ReleaseRoute(vaults: seq<Vault>, hops: seq<Hop>)
    requires VaultsOk(vaults) && Routed(vaults, hops)
    requires forall v | 0 <= v < |vaults| :: Bounds(vaults[v], hops)
    ensures var r := UpdateRoutePending(vaults, hops, true);
            r.status == Ok && Raised(r.after, vaults, hops)
    decreases |hops|
  {
    if |hops| > 0 {
      var hop, rest := hops[0], hops[1..];
      ReleaseFirst(vaults, hops);
      var first := UpdateHop(vaults, hop, true);
      RaisedIsRisen(first.after, vaults, [hop]);
      RisenKeepsVaults(first.after, vaults);
      RoutedStays(vaults, first.after, rest);
      ReleaseRoute(first.after, rest);
      var last := UpdateRoutePending(first.after, rest, true);
      RaisedChain(last.after, first.after, vaults, rest, [hop]);
      forall v | 0 <= v < |vaults|
        ensures RaisedAt(last.after[v], vaults[v], hops)
      {
        assert RaisedAt(last.after[v], vaults[v], rest + [hop]);
        SumRotate(hops, HopOut(last.after[v].id));
        SumRotate(hops, HopIn(last.after[v].id));
      }
    }
  }

  lemma {:induction false} SumRotate(hops: seq<Hop>, f: Hop -> nat)
    requires |hops| > 0
    ensures Sum(hops[1..] + [hops[0]], f) == Sum(hops, f)
  {
    SumAppend(hops[1..], hops[0], f);
    SumHead(hops, f);
  }

  lemma {:induction false} ReleaseFirst(vaults: seq<Vault>, hops: seq<Hop>)
    requires VaultsOk(vaults) && Routed(vaults, hops) && |hops| > 0
    requires forall v | 0 <= v < |vaults| :: Bounds(vaults[v], hops)
    ensures var r := UpdateHop(vaults, hops[0], true);
            && r.status == Ok && Raised(r.after, vaults, [hops[0]])
            && forall v | 0 <= v < |vaults| :: Bounds(r.after[v], hops[1..])
  {
    var hop, rest := hops[0], hops[1..];
    forall v | 0 <= v < |vaults|
      ensures HopOut(vaults[v].id)(hop) + Sum(rest, HopOut(vaults[v].id)) <= vaults[v].pendingOut
      ensures HopIn(vaults[v].id)(hop) + Sum(rest, HopIn(vaults[v].id)) <= vaults[v].pendingIn
    {
      assert Bounds(vaults[v], hops);
      SumHead(hops, HopOut(vaults[v].id));
      SumHead(hops, HopIn(vaults[v].id));
    }
    UpdateHopEffect(vaults, hop, true);
    var i, j := VaultAt(vaults, hop.fromVault).value, VaultAt(vaults, hop.toVault).value;
    assert HopOut(vaults[i].id)(hop) == hop.amountHint && HopIn(vaults[j].id)(hop) == hop.amountHint;
    var r := UpdateHop(vaults, hop, true);
    forall v | 0 <= v < |vaults|
      ensures Bounds(r.after[v], rest)
    {
      assert RaisedAt(r.after[v], vaults[v], [hop]);
      SumSingle(hop, vaults[v].id);
    }
  }

  /** Releasing right after adding restores every vault. */
  lemma {:induction false} AddThenRelease(vaults: seq<Vault>, hops: seq<Hop>)
    requires VaultsOk(vaults) && Routed(vaults, hops)
    requires UpdateRoutePending(vaults, hops, false).status == Ok
    ensures UpdateRoutePending(UpdateRoutePending(vaults, hops, false).after, hops, true) == Posted(Ok, vaults)
  {
    var added := UpdateRoutePending(vaults, hops, false).after;
    AddRoute(vaults, hops);
    RisenKeepsVaults(vaults, added);
    RoutedStays(vaults, added, hops);
    forall v | 0 <= v < |added|
      ensures Bounds(added[v], hops)
    {
      assert RaisedAt(vaults[v], added[v], hops);
    }
    ReleaseRoute(added, hops);
    var released := UpdateRoutePending(added, hops, true).after;
    forall v | 0 <= v < |vaults|
      ensures released[v] == vaults[v]
    {
      assert RaisedAt(vaults[v], added[v], hops) && RaisedAt(released[v], added[v], hops);
    }
    assert released == vaults;
  }

  predicate HasRoom(vault: Vault, hops: seq<Hop>) {
    && vault.pendingOut + Sum(hops, HopOut(vault.id)) <= U64_MAX
    && vault.pendingIn + Sum(hops, HopIn(vault.id)) <= U64_MAX
  }

  /** Both ends of the hop have room for its amount. */
  predicate HopFits(vaults: seq<Vault>, hop: Hop) {
    var i, j := VaultAt(vaults, hop.fromVault), VaultAt(vaults, hop.toVault);
    && i.Some? && vaults[i.value].pendingOut + hop.amountHint <= U64_MAX
    && j.Some? && vaults[j.value].pendingIn + hop.amountHint <= U64_MAX
  }

  lemma FitsUpdates(vaults: seq<Vault>, hop: Hop)
    ensures UpdateHop(vaults, hop, false).status == Ok <==> HopFits(vaults, hop)
  {
    hide VaultAt;
  }

  lemma {:induction false} AddFirstFits(vaults: seq<Vault>, hops: seq<Hop>)
    requires VaultsOk(vaults) && Routed(vaults, hops) && |hops| > 0
    requires forall v | 0 <= v < |vaults| :: HasRoom(vaults[v], hops)
    ensures UpdateHop(vaults, hops[0], false).status == Ok
  {
    var hop := hops[0];
    var i, j := VaultAt(vaults, hop.fromVault).value, VaultAt(vaults, hop.toVault).value;
    assert HasRoom(vaults[i], hops) && HasRoom(vaults[j], hops);
    assert HopOut(vaults[i].id)(hop) == hop.amountHint && HopIn(vaults[j].id)(hop) == hop.amountHint;
    SumHead(hops, HopOut(vaults[i].id));
    SumHead(hops, HopIn(vaults[j].id));
    FitsUpdates(vaults, hop);
    hide UpdateHop, Sum, HopOut, HopIn, VaultAt, VaultsOk;
  }

  /** When every vault has room for the route, adding it cannot fail. */
  lemma {:induction false} AddRouteFits(vaults: seq<Vault>, hops: seq<Hop>)
    requires VaultsOk(vaults) && Routed(vaults, hops)
    requires forall v | 0 <= v < |vaults| :: HasRoom(vaults[v], hops)
    ensures UpdateRoutePending(vaults, hops, false).status == Ok
    decreases |hops|
  {
    if |hops| > 0 {
      var hop, rest := hops[0], hops[1..];
      AddFirst(vaults, hops);
      AddFirstFits(vaults, hops);
      var first := UpdateHop(vaults, hop, false);
      forall v | 0 <= v < |vaults|
        ensures HasRoom(first.after[v], rest)
      {
        assert HasRoom(vaults[v], hops) && RaisedAt(vaults[v], first.after[v], [hop]);
        SumSingle(hop, vaults[v].id);
        SumHead(hops, HopOut(vaults[v].id));
        SumHead(hops, HopIn(vaults[v].id));
      }
      AddRouteFits(first.after, rest);
    }
  }

  // ---------- Where a route stops ----------

  /** How many hops are added before the first that overflows. */
  function Applied(vaults: seq<Vault>, hops: seq<Hop>): (n: nat)
    ensures n <= |hops|
    decreases |hops|
  {
    if |hops| == 0 then 0
    else
      var first := UpdateHop(vaults, hops[0], false);
      if first.status != Ok then 0 else 1 + Applied(first.after, hops[1..])
  }

  /** Hops that carry nothing. */
  predicate Silent(hops: seq<Hop>) {
    forall i | 0 <= i < |hops| :: hops[i].amountHint == 0
  }

  lemma {:induction false} AppliedRaises(vaults: seq<Vault>, hops: seq<Hop>)
    requires VaultsOk(vaults) && Routed(vaults, hops)
    ensures var r, n := UpdateRoutePending(vaults, hops, false), Applied(vaults, hops);
            && r.status == (if n == |hops| then Ok else ErrState)
            && Raised(vaults, r.after, hops[..n])
    decreases |hops|
  {
    if |hops| == 0 || UpdateHop(vaults, hops[0], false).status != Ok {
      if |hops| > 0 {
        AddFirst(vaults, hops);
      }
      RaisedByNothing(vaults, hops[..0]);
    } else {
      var mid := UpdateHop(vaults, hops[0], false).after;
      UnfoldFirst(vaults, hops);
      AddFirst(vaults, hops);
      AppliedRaises(mid, hops[1..]);
      hide *;
      var m := Applied(mid, hops[1..]);
      RaisedChain(vaults, mid, UpdateRoutePending(vaults, hops, false).after, [hops[0]], hops[1..][..m]);
    }
  }

  lemma UnfoldFirst(vaults: seq<Vault>, hops: seq<Hop>)
    requires |hops| > 0 && UpdateHop(vaults, hops[0], false).status == Ok
    ensures var mid, m := UpdateHop(vaults, hops[0], false).after,
                          Applied(UpdateHop(vaults, hops[0], false).after, hops[1..]);
            && Applied(vaults, hops) == m + 1
            && UpdateRoutePending(vaults, hops, false) == UpdateRoutePending(mid, hops[1..], false)
            && [hops[0]] + hops[1..][..m] == hops[..m + 1]
  {
    hide UpdateHop;
  }

  lemma {:induction false} RaisedByNothing(vaults: seq<Vault>, hops: seq<Hop>)
    requires Silent(hops)
    ensures Raised(vaults, vaults, hops)
  {
    forall v | 0 <= v < |vaults|
      ensures RaisedAt(vaults[v], vaults[v], hops)
    {
      SumZero(hops, HopOut(vaults[v].id));
      SumZero(hops, HopIn(vaults[v].id));
    }
  }

  /** A hop that carries something shows at the vault it leaves. */
  lemma {:induction false} RaisedShows(low: seq<Vault>, high: seq<Vault>, hops: seq<Hop>, i: nat)
    requires Raised(low, high, hops) && i < |hops| && hops[i].amountHint > 0
    requires VaultAt(low, hops[i].fromVault).Some?
    ensures var w := VaultAt(low, hops[i].fromVault).value;
            low[w].pendingOut < high[w].pendingOut
  {
    var w := VaultAt(low, hops[i].fromVault).value;
    assert RaisedAt(low[w], high[w], hops);
    SumCovers(hops, i, HopOut(low[w].id));
  }

  lemma {:induction false} RaisedUnchangedIff(low: seq<Vault>, high: seq<Vault>, hops: seq<Hop>)
    requires Raised(low, high, hops) && Routed(low, hops)
    ensures high == low <==> Silent(hops)
  {
    if Silent(hops) {
      RaisedByNothing(low, hops);
      forall v | 0 <= v < |low|
        ensures high[v] == low[v]
      {
        assert RaisedAt(low[v], high[v], hops) && RaisedAt(low[v], low[v], hops);
      }
      assert high == low;
    } else {
      var i :| 0 <= i < |hops| && hops[i].amountHint != 0;
      RaisedShows(low, high, hops, i);
    }
  }

  /** The position of the first hop that carries something. */
  function FirstLoad(hops: seq<Hop>): (i: nat)
    ensures i <= |hops| && Silent(hops[..i])
    ensures i < |hops| ==> hops[i].amountHint > 0
  {
    if |hops| == 0 || hops[0].amountHint > 0 then 0 else 1 + FirstLoad(hops[1..])
  }

  predicate FirstLoadFits(vaults: seq<Vault>, hops: seq<Hop>) {
    FirstLoad(hops) < |hops| && HopFits(vaults, hops[FirstLoad(hops)])
  }

  /** Every vault has room for the whole route. */
  predicate RouteFits(vaults: seq<Vault>, hops: seq<Hop>) {
    forall v {:trigger HasRoom(vaults[v], hops)} | 0 <= v < |vaults| :: HasRoom(vaults[v], hops)
  }

  lemma {:induction false} SilentHopAdds(vaults: seq<Vault>, hop: Hop)
    requires hop.amountHint == 0 && VaultAt(vaults, hop.fromVault).Some? && VaultAt(vaults, hop.toVault).Some?
    ensures UpdateHop(vaults, hop, false) == Posted(Ok, vaults)
  {
    assert UpdateHop(vaults, hop, false).after == vaults;
  }

  lemma SilentShift(hops: seq<Hop>, m: nat)
    requires |hops| > 0 && hops[0].amountHint == 0 && m < |hops|
    ensures Silent(hops[..m + 1]) <==> Silent(hops[1..][..m])
  {
    if Silent(hops[..m + 1]) {
      forall i | 0 <= i < m
        ensures hops[1..][..m][i].amountHint == 0
      {
        assert hops[1..][..m][i] == hops[..m + 1][i + 1];
      }
    }
    if Silent(hops[1..][..m]) {
      var longer := hops[..m + 1];
      forall i | 0 <= i < |longer|
        ensures longer[i].amountHint == 0
      {
        assert i > 0 ==> longer[i] == hops[1..][..m][i - 1];
      }
    }
  }

  lemma LoadFirst(vaults: seq<Vault>, hops: seq<Hop>)
    requires |hops| > 0 && hops[0].amountHint > 0
    ensures !Silent(hops[..Applied(vaults, hops)]) <==> FirstLoadFits(vaults, hops)
  {
    FitsUpdates(vaults, hops[0]);
    hide UpdateHop, HopFits;
    if Applied(vaults, hops) > 0 {
      assert hops[..Applied(vaults, hops)][0].amountHint > 0;
    }
  }

  lemma LoadLater(vaults: seq<Vault>, hops: seq<Hop>)
    requires |hops| > 0 && hops[0].amountHint == 0
    requires UpdateHop(vaults, hops[0], false) == Posted(Ok, vaults)
    requires !Silent(hops[1..][..Applied(vaults, hops[1..])]) <==> FirstLoadFits(vaults, hops[1..])
    ensures !Silent(hops[..Applied(vaults, hops)]) <==> FirstLoadFits(vaults, hops)
  {
    hide *;
    UnfoldFirst(vaults, hops);
    SilentShift(hops, Applied(vaults, hops[1..]));
    LoadShift(vaults, hops);
  }

  lemma LoadShift(vaults: seq<Vault>, hops: seq<Hop>)
    requires |hops| > 0 && hops[0].amountHint == 0
    ensures FirstLoadFits(vaults, hops) <==> FirstLoadFits(vaults, hops[1..])
  {
    assert FirstLoad(hops) == 1 + FirstLoad(hops[1..]);
    hide FirstLoad, HopFits, Silent;
  }

  /** Something is left behind exactly when the first hop that carries something fits: all before it change nothing. */
  lemma {:induction false} LoadedIff(vaults: seq<Vault>, hops: seq<Hop>)
    requires Routed(vaults, hops)
    ensures !Silent(hops[..Applied(vaults, hops)]) <==> FirstLoadFits(vaults, hops)
    decreases |hops|
  {
    if |hops| > 0 {
      if hops[0].amountHint == 0 {
        SilentHopAdds(vaults, hops[0]);
        assert Routed(vaults, hops[1..]);
        hide UpdateHop, Silent, Applied, FirstLoadFits, Routed;
        LoadedIff(vaults, hops[1..]);
        LoadLater(vaults, hops);
      } else {
        LoadFirst(vaults, hops);
      }
    }
  }

  /** Adding a route: it succeeds exactly when every vault has room for all of it. Otherwise exactly the hops before the
      first overflowing one stay applied, and the vaults are as before exactly when the first hop that carries something
      does not fit. */
  lemma {:induction false} AddRouteOutcome(vaults: seq<Vault>, hops: seq<Hop>)
    requires VaultsOk(vaults) && Routed(vaults, hops)
    ensures var r, n := UpdateRoutePending(vaults, hops, false), Applied(vaults, hops);
            && r.status == (if RouteFits(vaults, hops) then Ok else ErrState)
            && (RouteFits(vaults, hops) <==> n == |hops|)
            && Raised(vaults, r.after, hops[..n])
            && (r.after == vaults <==> Silent(hops[..n]))
            && (r.after == vaults <==> !FirstLoadFits(vaults, hops))
  {
    var r, n := UpdateRoutePending(vaults, hops, false), Applied(vaults, hops);
    AppliedRaises(vaults, hops);
    RaisedUnchangedIff(vaults, r.after, hops[..n]);
    LoadedIff(vaults, hops);
    hide Silent, FirstLoadFits, UpdateRoutePending, Routed, Applied, Sum, VaultsOk;
    if n == |hops| {
      assert hops[..n] == hops;
      forall v | 0 <= v < |vaults|
        ensures HasRoom(vaults[v], hops)
      {
        assert RaisedAt(vaults[v], r.after[v], hops);
      }
    } else if RouteFits(vaults, hops) {
      AddRouteFits(vaults, hops);
      assert false;
    }
  }

  // ---------- Releasing in any ledger ----------

  /** Same vaults up to pending amounts. */
  predicate SameBooks(a: seq<Vault>, b: seq<Vault>) {
    |a| == |b| && forall v {:trigger SameBook(a[v], b[v])} | 0 <= v < |a| :: SameBook(a[v], b[v])
  }

  lemma {:induction false} RaisedSameBooks(low: seq<Vault>, high: seq<Vault>, hops: seq<Hop>)
    requires Raised(low, high, hops)
    ensures SameBooks(low, high) && SameBooks(high, low)
  {
    forall v | 0 <= v < |low|
      ensures SameBook(low[v], high[v])
    {
      assert RaisedAt(low[v], high[v], hops);
    }
  }

  lemma {:induction false} SameBooksChain(a: seq<Vault>, b: seq<Vault>, c: seq<Vault>)
    requires SameBooks(a, b) && SameBooks(b, c)
    ensures SameBooks(a, c)
  {
    forall v | 0 <= v < |a|
      ensures SameBook(a[v], c[v])
    {
      assert SameBook(a[v], b[v]) && SameBook(b[v], c[v]);
    }
  }

  lemma {:induction false} SameBooksKeepVaults(a: seq<Vault>, b: seq<Vault>)
    requires SameBooks(a, b)
    ensures VaultsExtend(a, b) && VaultsExtend(b, a) && (VaultsOk(a) <==> VaultsOk(b))
  {
    forall v | 0 <= v < |a|
      ensures SameVault(a[v], b[v]) && SameVault(b[v], a[v])
    {
      assert SameBook(a[v], b[v]);
    }
  }

  /** Every vault has the whole route pending. */
  predicate RouteClears(vaults: seq<Vault>, hops: seq<Hop>) {
    forall v {:trigger Bounds(vaults[v], hops)} | 0 <= v < |vaults| :: Bounds(vaults[v], hops)
  }

  lemma {:induction false} ReleaseSteps(vaults: seq<Vault>, hops: seq<Hop>)
    requires VaultsOk(vaults) && Routed(vaults, hops)
    ensures var r := UpdateRoutePending(vaults, hops, true);
            && (r.status == Ok || r.status == ErrState)
            && SameBooks(vaults, r.after)
            && (r.status == Ok ==> Raised(r.after, vaults, hops))
    decreases |hops|
  {
    if |hops| == 0 {
      RaisedByNothing(vaults, hops);
      RaisedSameBooks(vaults, vaults, hops);
    } else {
      var first := UpdateHop(vaults, hops[0], true);
      UpdateHopEffect(vaults, hops[0], true);
      if first.status == Ok {
        RaisedSameBooks(first.after, vaults, [hops[0]]);
        SameBooksKeepVaults(vaults, first.after);
        RoutedStays(vaults, first.after, hops[1..]);
        ReleaseSteps(first.after, hops[1..]);
        ReleaseUnfolds(vaults, hops);
        hide *;
        SameBooksChain(vaults, first.after, UpdateRoutePending(first.after, hops[1..], true).after);
        if UpdateRoutePending(vaults, hops, true).status == Ok {
          RaisedTurned(UpdateRoutePending(vaults, hops, true).after, first.after, vaults, hops);
        }
      } else {
        RaisedByNothing(vaults, hops[..0]);
        RaisedSameBooks(vaults, vaults, hops[..0]);
      }
    }
  }

  lemma ReleaseUnfolds(vaults: seq<Vault>, hops: seq<Hop>)
    requires |hops| > 0 && UpdateHop(vaults, hops[0], true).status == Ok
    ensures UpdateRoutePending(vaults, hops, true)
         == UpdateRoutePending(UpdateHop(vaults, hops[0], true).after, hops[1..], true)
  {
    hide UpdateHop;
  }

  /** The first hop may be put back last. */
  lemma {:induction false} RaisedTurned(low: seq<Vault>, mid: seq<Vault>, high: seq<Vault>, hops: seq<Hop>)
    requires |hops| > 0 && Raised(low, mid, hops[1..]) && Raised(mid, high, [hops[0]])
    ensures Raised(low, high, hops)
  {
    RaisedChain(low, mid, high, hops[1..], [hops[0]]);
    forall v | 0 <= v < |low|
      ensures RaisedAt(low[v], high[v], hops)
    {
      assert RaisedAt(low[v], high[v], hops[1..] + [hops[0]]);
      SumRotate(hops, HopOut(low[v].id));
      SumRotate(hops, HopIn(low[v].id));
    }
  }

  /** Releasing a route: it succeeds exactly when every vault has all of it pending; the books never move. */
  lemma {:induction false} ReleaseOutcome(vaults: seq<Vault>, hops: seq<Hop>)
    requires VaultsOk(vaults) && Routed(vaults, hops)
    ensures var r := UpdateRoutePending(vaults, hops, true);
            && r.status == (if RouteClears(vaults, hops) then Ok else ErrState)
            && SameBooks(vaults, r.after)
            && (RouteClears(vaults, hops) ==> Raised(r.after, vaults, hops))
  {
    ReleaseSteps(vaults, hops);
    if RouteClears(vaults, hops) {
      ReleaseRoute(vaults, hops);
    } else if UpdateRoutePending(vaults, hops, true).status == Ok {
      var after := UpdateRoutePending(vaults, hops, true).after;
      forall v | 0 <= v < |vaults|
        ensures Bounds(vaults[v], hops)
      {
        assert RaisedAt(after[v], vaults[v], hops);
      }
      assert false;
    }
  }
}
