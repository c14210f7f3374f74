/** When compaction can raise a premium, over all the vaults a route might be priced at. */
module Premiums {
  import opened Amounts
  import opened Digests
  import opened Sums
  import opened Routes
  import opened LedgerTypes
  import opened Exposure

  // ---------- What is asked of a route ----------

  /** Wherever the route can be priced, its compacted form can be priced too. */
  ghost predicate NeverRefused(hops: seq<Hop>) {
    forall vaults :: RouteCharge(vaults, hops).Success? ==> RouteCharge(vaults, Merged(hops)).Success?
  }

  /** ... and for no more. */
  ghost predicate NeverDearer(hops: seq<Hop>) {
    forall vaults :: RouteCharge(vaults, hops).Success? ==>
                       && RouteCharge(vaults, Merged(hops)).Success?
                       && RouteCharge(vaults, Merged(hops)).value <= RouteCharge(vaults, hops).value
  }

  /** Some vault can price the hop: its weight is at most the whole and its product fits in 64 bits. */
  predicate OwnFits(hop: Hop) {
    hop.weightBps <= BPS && hop.amountHint * hop.weightBps <= U64_MAX
  }

  predicate AllOwnFit(hops: seq<Hop>) {
    forall i {:trigger OwnFits(hops[i])} | 0 <= i < |hops| :: OwnFits(hops[i])
  }

  /** Some vaults price the whole route (see SomewherePricedIff). */
  predicate SomewherePriced(hops: seq<Hop>) {
    |hops| <= MAX_ROUTE_HOPS && AllOwnFit(hops)
  }

  /** What any vault must hold that prices every hop leaving it: one unit, or the most that leaves it at once. */
  function Need(hops: seq<Hop>, vault: Digest): (need: Amount)
    ensures 1 <= need
  {
    if |hops| == 0 then 1
    else
      var rest := Need(hops[..|hops| - 1], vault);
      if Last(hops).fromVault == vault then Max(rest, Last(hops).amountHint) else rest
  }

  /** The run ends on no more than its first vault is sure to hold, and its merged product fits in 64 bits. */
  predicate Coverable(hops: seq<Hop>, run: seq<Hop>) {
    && |run| > 0
    && Last(run).amountHint <= Need(hops, run[0].fromVault)
    && Last(run).amountHint * run[0].weightBps <= U64_MAX
  }

  predicate AllCoverable(hops: seq<Hop>, runs: seq<Run>) {
    forall i {:trigger Coverable(hops, runs[i])} | 0 <= i < |runs| :: Coverable(hops, runs[i])
  }

  /** No hop leaving a run's first vault carries more than the run's first hop, or than one unit. */
  predicate AllLed(hops: seq<Hop>, runs: seq<Run>) {
    forall i {:trigger runs[i]} | 0 <= i < |runs| :: Need(hops, runs[i][0].fromVault) == Max(1, runs[i][0].amountHint)
  }

  predicate DistinctSources(hops: seq<Hop>) {
    forall i, j | 0 <= i < j < |hops| :: hops[i].fromVault != hops[j].fromVault
  }

  /** The run ends on no more than what any vault that prices its first hop is sure to hold. */
  predicate Modest(run: seq<Hop>) {
    |run| > 0 && Last(run).amountHint <= Max(1, run[0].amountHint)
  }

  predicate AllModest(runs: seq<Run>) {
    forall i {:trigger Modest(runs[i])} | 0 <= i < |runs| :: Modest(runs[i])
  }

  /** A single unit after nothing, at the whole weight: free apart, one unit when merged at a vault that holds just one.
    */
  predicate Borderline(run: seq<Hop>) {
    |run| > 0 && run[0].amountHint == 0 && Last(run).amountHint == 1 && run[0].weightBps >= BPS
  }

  lemma TameOrBorderline(run: seq<Hop>)
    ensures Modest(run) <==> Tame(run) || Borderline(run)
    ensures Tame(run) ==> !Borderline(run)
  {
  }

  // ---------- What it takes to price a hop ----------

  lemma {:induction false} PricedIff(vaults: seq<Vault>, hop: Hop)
    ensures HopCharge(vaults, hop).Success?
       <==> OwnFits(hop) && 0 < SourceBalance(vaults, hop) && hop.amountHint <= SourceBalance(vaults, hop)
    ensures HopCharge(vaults, hop).Success? ==> HopCharge(vaults, hop).value * BPS <= U64_MAX
  {
    HopChargeIs(vaults, hop);
    if OwnFits(hop) && VaultAt(vaults, hop.fromVault).Some? {
      var u := Utilization(hop.amountHint, SourceBalance(vaults, hop));
      var weighted := MulBps(hop.amountHint, hop.weightBps);
      ShareBelow(hop.amountHint, hop.weightBps);
      MulMonotone(u, BPS, weighted.value);
      ShareBelow(weighted.value, u);
    }
  }

  const CHARGE_MAX: nat := 1_844_674_407_370_955

  lemma {:induction false} ChargeSmall(vaults: seq<Vault>, hop: Hop)
    ensures ChargeOf(vaults)(hop) <= CHARGE_MAX
  {
    PricedIff(vaults, hop);
  }

  /** Eight charges always fit together, so a route can be priced as soon as its hops can. */
  lemma {:induction false} RoutePricedIff(vaults: seq<Vault>, hops: seq<Hop>)
    requires |hops| <= MAX_ROUTE_HOPS
    ensures RouteCharge(vaults, hops).Success? <==> Chargeable(vaults, hops)
    ensures RouteCharge(vaults, hops).Success? ==> RouteCharge(vaults, hops).value == Sum(hops, ChargeOf(vaults))
  {
    hide Chargeable, Sum, ChargeOf;
    forall i | 0 <= i < |hops|
      ensures ChargeOf(vaults)(hops[i]) <= CHARGE_MAX
    {
      ChargeSmall(vaults, hops[i]);
    }
    SumBounded(hops, ChargeOf(vaults), CHARGE_MAX);
    MulMonotone(|hops|, MAX_ROUTE_HOPS, CHARGE_MAX);
  }

  // ---------- What a vault is sure to hold ----------

  lemma {:induction false} NeedCovers(hops: seq<Hop>, i: nat)
    requires i < |hops|
    ensures hops[i].amountHint <= Need(hops, hops[i].fromVault)
    decreases |hops|
  {
    var n := |hops| - 1;
    if i < n {
      assert hops[..n][i] == hops[i];
      NeedCovers(hops[..n], i);
    }
  }

  lemma {:induction false} NeedIsLeast(hops: seq<Hop>, vault: Digest, balance: Amount)
    requires 1 <= balance && forall i | 0 <= i < |hops| :: hops[i].fromVault == vault ==> hops[i].amountHint <= balance
    ensures Need(hops, vault) <= balance
  {
    if |hops| > 0 {
      var n := |hops| - 1;
      assert forall i | 0 <= i < n :: hops[..n][i] == hops[i];
      NeedIsLeast(hops[..n], vault, balance);
    }
  }

  lemma SameSource(vaults: seq<Vault>, a: Hop, b: Hop)
    requires a.fromVault == b.fromVault
    ensures SourceBalance(vaults, a) == SourceBalance(vaults, b)
  {
  }

  /** Vaults that price a route hold at least what it needs. */
  lemma {:induction false} PricedHoldsNeed(vaults: seq<Vault>, hops: seq<Hop>, j: nat)
    requires Chargeable(vaults, hops) && j < |hops|
    ensures Need(hops, hops[j].fromVault) <= SourceBalance(vaults, hops[j])
  {
    var balance := SourceBalance(vaults, hops[j]);
    assert HopCharge(vaults, hops[j]).Success?;
    PricedIff(vaults, hops[j]);
    forall i | 0 <= i < |hops| && hops[i].fromVault == hops[j].fromVault
      ensures hops[i].amountHint <= balance
    {
      assert HopCharge(vaults, hops[i]).Success?;
      PricedIff(vaults, hops[i]);
      SameSource(vaults, hops[i], hops[j]);
    }
    NeedIsLeast(hops, hops[j].fromVault, balance);
  }

  /** Every hop leaves a vault that holds just what the route needs there. */
  function NeedVaults(hops: seq<Hop>): (vaults: seq<Vault>)
    ensures |vaults| == |hops|
    ensures forall i | 0 <= i < |hops| :: vaults[i].active && vaults[i].id == hops[i].fromVault
    ensures forall i | 0 <= i < |hops| :: vaults[i].balance == Need(hops, vaults[i].id)
  {
    seq(|hops|, i requires 0 <= i < |hops| =>
      Vault(hops[i].fromVault, ZERO_DIGEST, Need(hops, hops[i].fromVault), 0, 0, true))
  }

  lemma {:induction false} NeedSource(hops: seq<Hop>, i: nat, hop: Hop)
    requires i < |hops| && hop.fromVault == hops[i].fromVault
    ensures SourceBalance(NeedVaults(hops), hop) == Need(hops, hop.fromVault)
  {
    var vaults := NeedVaults(hops);
    assert vaults[i].active && vaults[i].id == hop.fromVault;
  }

  lemma {:induction false} NeedPrices(hops: seq<Hop>)
    requires SomewherePriced(hops)
    ensures RouteCharge(NeedVaults(hops), hops).Success?
  {
    var vaults := NeedVaults(hops);
    RoutePricedIff(vaults, hops);
    forall i | 0 <= i < |hops|
      ensures HopCharge(vaults, hops[i]).Success?
    {
      assert OwnFits(hops[i]);
      NeedSource(hops, i, hops[i]);
      NeedCovers(hops, i);
      PricedIff(vaults, hops[i]);
    }
  }

  lemma {:induction false} PricedFits(vaults: seq<Vault>, hops: seq<Hop>)
    requires RouteCharge(vaults, hops).Success?
    ensures SomewherePriced(hops)
  {
    PricedParts(vaults, hops);
    forall i | 0 <= i < |hops|
      ensures OwnFits(hops[i])
    {
      assert HopCharge(vaults, hops[i]).Success?;
      PricedIff(vaults, hops[i]);
    }
  }

  /** A route can be priced at some vaults if and only if it has at most eight hops and each fits on its own. */
  lemma {:induction false} SomewherePricedIff(hops: seq<Hop>)
    ensures SomewherePriced(hops) <==> exists vaults :: RouteCharge(vaults, hops).Success?
  {
    hide RouteCharge, SomewherePriced;
    if SomewherePriced(hops) {
      NeedPrices(hops);
    } else if vaults :| RouteCharge(vaults, hops).Success? {
      PricedFits(vaults, hops);
    }
  }

  // ---------- The vaults that are hardest on a run ----------

  /** Every hop leaves a vault that is as full as can be, except one vault that holds just this much. */
  function TightVaults(hops: seq<Hop>, target: Digest, tight: Amount): (vaults: seq<Vault>)
    ensures |vaults| == |hops|
    ensures forall i | 0 <= i < |hops| :: vaults[i].active && vaults[i].id == hops[i].fromVault
    ensures forall i | 0 <= i < |hops| :: vaults[i].balance == if vaults[i].id == target then tight else U64_MAX
  {
    seq(|hops|, i requires 0 <= i < |hops| =>
      Vault(hops[i].fromVault, ZERO_DIGEST, if hops[i].fromVault == target then tight else U64_MAX, 0, 0, true))
  }

  lemma {:induction false} TightSource(hops: seq<Hop>, target: Digest, tight: Amount, i: nat, hop: Hop)
    requires i < |hops| && hop.fromVault == hops[i].fromVault
    ensures SourceBalance(TightVaults(hops, target, tight), hop) == if hop.fromVault == target then tight else U64_MAX
  {
    var vaults := TightVaults(hops, target, tight);
    assert vaults[i].active && vaults[i].id == hop.fromVault;
  }

  /** They price the route, as soon as the one vault covers the one hop that leaves it. */
  lemma {:induction false} TightPrices(hops: seq<Hop>, j: nat, tight: Amount)
    requires |hops| <= MAX_ROUTE_HOPS && AllOwnFit(hops) && DistinctSources(hops)
    requires j < |hops| && 0 < tight && hops[j].amountHint <= tight
    ensures RouteCharge(TightVaults(hops, hops[j].fromVault, tight), hops).Success?
  {
    var target := hops[j].fromVault;
    var vaults := TightVaults(hops, target, tight);
    RoutePricedIff(vaults, hops);
    forall i | 0 <= i < |hops|
      ensures HopCharge(vaults, hops[i]).Success?
    {
      assert OwnFits(hops[i]);
      TightSource(hops, target, tight, i, hops[i]);
      PricedIff(vaults, hops[i]);
    }
  }

  /** The first hop of a run is a hop of the route. */
  /** Every hop of a run is a hop of the route. */
  lemma {:induction false} HopOfRun(runs: seq<Run>, i: nat, k: nat) returns (j: nat)
    requires i < |runs| && k < |runs[i]|
    ensures j < |Flatten(runs)| && Flatten(runs)[j] == runs[i][k]
    decreases |runs|
  {
    var m := |runs| - 1;
    if i == m {
      j := |Flatten(runs[..m])| + k;
    } else {
      j := HopOfRun(runs[..m], i, k);
    }
  }

  // ---------- Being priced at all ----------

  lemma {:induction false} CoverablePriceable(vaults: seq<Vault>, hops: seq<Hop>)
    requires Chargeable(vaults, hops) && AllCoverable(hops, Runs(hops))
    ensures AllPriceable(vaults, Runs(hops))
  {
    CutOf(hops);
    hide HopCharge, Flatten, Runs;
    forall i | 0 <= i < |Runs(hops)|
      ensures Priceable(vaults, Runs(hops)[i])
    {
      var run := Runs(hops)[i];
      var j := HopOfRun(Runs(hops), i, 0);
      assert Coverable(hops, run);
      PricedHoldsNeed(vaults, hops, j);
    }
  }

  lemma {:induction false} PriceableCoverable(hops: seq<Hop>)
    requires AllPriceable(NeedVaults(hops), Runs(hops))
    ensures AllCoverable(hops, Runs(hops))
  {
    CutOf(hops);
    hide NeedVaults, Flatten, Runs;
    forall i | 0 <= i < |Runs(hops)|
      ensures Coverable(hops, Runs(hops)[i])
    {
      var run := Runs(hops)[i];
      var j := HopOfRun(Runs(hops), i, 0);
      assert Priceable(NeedVaults(hops), run);
      NeedSource(hops, j, run[0]);
    }
  }

  /** The compacted form of a route can be priced wherever the route can, if and only if every merged run is coverable.
      A route that no vaults can price meets this in vain. */
  lemma {:induction false} NeverRefusedIff(hops: seq<Hop>)
    ensures NeverRefused(hops) <==> (SomewherePriced(hops) ==> AllCoverable(hops, Runs(hops)))
  {
    hide RouteCharge, SomewherePriced, AllCoverable, AllPriceable;
    if SomewherePriced(hops) && NeverRefused(hops) {
      NeedPrices(hops);
      CompactedPriceableIff(NeedVaults(hops), hops);
      PriceableCoverable(hops);
    }
    if SomewherePriced(hops) ==> AllCoverable(hops, Runs(hops)) {
      forall vaults | RouteCharge(vaults, hops).Success?
        ensures RouteCharge(vaults, Merged(hops)).Success?
      {
        PricedFits(vaults, hops);
        PricedParts(vaults, hops);
        CoverablePriceable(vaults, hops);
        CompactedPriceableIff(vaults, hops);
      }
    }
  }

  // ---------- Routes whose runs lead their vaults ----------

  lemma {:induction false} LedCoverableIff(hops: seq<Hop>)
    requires SomewherePriced(hops) && AllLed(hops, Runs(hops))
    ensures AllCoverable(hops, Runs(hops)) <==> AllModest(Runs(hops))
  {
    CutOf(hops);
    hide Flatten, Runs;
    forall i | 0 <= i < |Runs(hops)|
      ensures Coverable(hops, Runs(hops)[i]) <==> Modest(Runs(hops)[i])
    {
      var run := Runs(hops)[i];
      var j := HopOfRun(Runs(hops), i, 0);
      assert OwnFits(hops[j]);
      if Modest(run) {
        ModestProductFits(run);
      }
    }
  }

  lemma {:induction false} ModestProductFits(run: seq<Hop>)
    requires Modest(run) && OwnFits(run[0])
    ensures Last(run).amountHint * run[0].weightBps <= U64_MAX
  {
    MulMonotone(Last(run).amountHint, Max(1, run[0].amountHint), run[0].weightBps);
  }

  /** Where runs lead their vaults, the condition reads off each run alone. */
  lemma {:induction false} LedNeverRefusedIff(hops: seq<Hop>)
    requires AllLed(hops, Runs(hops))
    ensures NeverRefused(hops) <==> (SomewherePriced(hops) ==> AllModest(Runs(hops)))
  {
    hide NeverRefused, SomewherePriced, AllLed, AllCoverable, AllModest, Runs;
    NeverRefusedIff(hops);
    if SomewherePriced(hops) {
      LedCoverableIff(hops);
    }
  }

  lemma {:induction false} NeedOfOne(hops: seq<Hop>, j: nat)
    requires DistinctSources(hops) && j < |hops|
    ensures Need(hops, hops[j].fromVault) == Max(1, hops[j].amountHint)
  {
    NeedCovers(hops, j);
    NeedIsLeast(hops, hops[j].fromVault, Max(1, hops[j].amountHint));
  }

  /** Routes over distinct vaults are of this kind. */
  lemma {:induction false} DistinctSourcesLead(hops: seq<Hop>)
    requires DistinctSources(hops)
    ensures AllLed(hops, Runs(hops))
  {
    CutOf(hops);
    hide Flatten, Runs, DistinctSources, Need;
    forall i | 0 <= i < |Runs(hops)|
      ensures Need(hops, Runs(hops)[i][0].fromVault) == Max(1, Runs(hops)[i][0].amountHint)
    {
      var j := HopOfRun(Runs(hops), i, 0);
      NeedOfOne(hops, j);
    }
  }

  // ---------- Costing more ----------

  /** The hop costs nothing at a vault as full as can be. */
  predicate FreeWhenFull(hop: Hop) {
    Charge(hop.amountHint, hop.weightBps, U64_MAX) == 0
  }

  predicate AllFreeWhenFull(hops: seq<Hop>) {
    forall i {:trigger FreeWhenFull(hops[i])} | 0 <= i < |hops| :: FreeWhenFull(hops[i])
  }

  /** As does every hop of less than a ten-thousandth of the 64-bit range. */
  lemma {:induction false} SmallIsFree(hop: Hop)
    requires hop.amountHint * BPS < U64_MAX
    ensures FreeWhenFull(hop)
  {
    MulMonotone(0, hop.amountHint, hop.weightBps);
    MulMonotone(0, hop.amountHint, BPS);
    FloorUnique(hop.amountHint * BPS, U64_MAX, 0);
    FloorUnique(0, BPS, 0);
  }

  predicate NoneBorderline(runs: seq<Run>) {
    forall i {:trigger Borderline(runs[i])} | 0 <= i < |runs| :: !Borderline(runs[i])
  }

  lemma {:induction false} FreeAtFullVault(vaults: seq<Vault>, hop: Hop)
    requires OwnFits(hop)
    requires hop.amountHint == 0 || (FreeWhenFull(hop) && SourceBalance(vaults, hop) == U64_MAX)
    ensures ChargeOf(vaults)(hop) == 0
  {
    HopChargeIs(vaults, hop);
    if HopCharge(vaults, hop).Success? && hop.amountHint == 0 {
      FloorUnique(0, BPS, 0);
      FloorUnique(0, SourceBalance(vaults, hop), 0);
    }
  }

  lemma {:induction false} FreeRoute(hops: seq<Hop>, j: nat)
    requires |hops| <= MAX_ROUTE_HOPS && AllOwnFit(hops) && DistinctSources(hops) && AllFreeWhenFull(hops)
    requires j < |hops| && hops[j].amountHint == 0
    ensures RouteCharge(TightVaults(hops, hops[j].fromVault, 1), hops) == Success(0)
  {
    var vaults := TightVaults(hops, hops[j].fromVault, 1);
    TightPrices(hops, j, 1);
    RoutePricedIff(vaults, hops);
    forall i | 0 <= i < |hops|
      ensures ChargeOf(vaults)(hops[i]) == 0
    {
      assert OwnFits(hops[i]) && FreeWhenFull(hops[i]);
      TightSource(hops, hops[j].fromVault, 1, i, hops[i]);
      FreeAtFullVault(vaults, hops[i]);
    }
    SumZero(hops, ChargeOf(vaults));
  }

  lemma {:induction false} BorderlineCosts(hops: seq<Hop>, i: nat)
    requires |hops| <= MAX_ROUTE_HOPS && AllOwnFit(hops) && DistinctSources(hops) && AllFreeWhenFull(hops)
    requires i < |Runs(hops)| && Borderline(Runs(hops)[i])
    ensures !NeverDearer(hops)
  {
    CutOf(hops);
    var run := Runs(hops)[i];
    var j := HopOfRun(Runs(hops), i, 0);
    var vaults := TightVaults(hops, run[0].fromVault, 1);
    assert OwnFits(hops[j]);
    FreeRoute(hops, j);
    TightSource(hops, run[0].fromVault, 1, j, Collapse(run));
    UnitCharge(vaults, Collapse(run));
    hide HopCharge, TightVaults, OwnFits, AllOwnFit, DistinctSources, AllFreeWhenFull, Borderline;
    assert Merged(hops)[i] == Collapse(run);
    SumCovers(Merged(hops), i, ChargeOf(vaults));
    RoutePricedIff(vaults, Merged(hops));
  }

  lemma {:induction false} TameNeverDearer(hops: seq<Hop>)
    requires AllTame(Runs(hops))
    ensures NeverDearer(hops)
  {
    hide RouteCharge, AllTame;
    forall vaults | RouteCharge(vaults, hops).Success?
      ensures RouteCharge(vaults, Merged(hops)).Success?
      ensures RouteCharge(vaults, Merged(hops)).value <= RouteCharge(vaults, hops).value
    {
      CompactionNeverCostsMore(vaults, hops);
    }
  }

  lemma NeverDearerNeverRefused(hops: seq<Hop>)
    requires NeverDearer(hops)
    ensures NeverRefused(hops)
  {
    hide RouteCharge;
  }

  /** Where runs lead their vaults, compaction never raises the premium if and only if every merged run is tame - unless
      a borderline run meets a hop that costs something everywhere, or shares its vault. */
  lemma {:induction false} LedNeverDearerIff(hops: seq<Hop>)
    requires AllLed(hops, Runs(hops))
    requires NoneBorderline(Runs(hops)) || (DistinctSources(hops) && AllFreeWhenFull(hops))
    ensures NeverDearer(hops) <==> (SomewherePriced(hops) ==> AllTame(Runs(hops)))
  {
    hide RouteCharge, Modest, DistinctSources, Tame, Borderline, AllFreeWhenFull, AllLed, Runs;
    if !SomewherePriced(hops) {
      NowherePriced(hops);
    } else if AllTame(Runs(hops)) {
      TameNeverDearer(hops);
    } else if NeverDearer(hops) {
      NeverDearerNeverRefused(hops);
      LedNeverRefusedIff(hops);
      var i :| 0 <= i < |Runs(hops)| && !Tame(Runs(hops)[i]);
      assert Modest(Runs(hops)[i]);
      TameOrBorderline(Runs(hops)[i]);
      BorderlineCosts(hops, i);
    }
  }

  lemma {:induction false} NowherePriced(hops: seq<Hop>)
    requires !SomewherePriced(hops)
    ensures NeverDearer(hops)
  {
    hide SomewherePriced, RouteCharge;
    forall vaults
      ensures !RouteCharge(vaults, hops).Success?
    {
      if RouteCharge(vaults, hops).Success? {
        PricedFits(vaults, hops);
        assert false;
      }
    }
  }

  // ---------- One pair of hops ----------

  lemma {:induction false} PairIsRun(first: Hop, second: Hop)
    requires Compatible(first, second)
    ensures |Runs([first, second])| == 1 && Runs([first, second])[0] == [first, second]
  {
    var run: Run := [first, second];
    assert [run][..0] == [];
    assert Flatten([run]) == run;
    MaximalRunsUnique([run], run);
  }

  /** Merging two hops out of different vaults never raises the premium, wherever the two can be priced, if and only if
      the second carries no more than the first - or a single unit after nothing, at less than the whole weight. */
  lemma {:induction false} PairApartIff(first: Hop, second: Hop)
    requires Compatible(first, second) && first.fromVault != first.toVault
    ensures NeverDearer([first, second])
       <==> (OwnFits(first) && OwnFits(second) ==>
               || second.amountHint <= first.amountHint
               || (first.amountHint == 0 && second.amountHint == 1 && first.weightBps < BPS))
  {
    var hops := [first, second];
    PairIsRun(first, second);
    var run := Runs(hops)[0];
    assert SomewherePriced(hops) <==> OwnFits(first) && OwnFits(second) by {
      assert hops[0] == first && hops[1] == second;
    }
    DistinctSourcesLead(hops);
    if Borderline(run) {
      SmallIsFree(first);
      SmallIsFree(second);
    }
    hide OwnFits, NeverDearer, Runs, FreeWhenFull, AllLed, SomewherePriced;
    assert AllTame(Runs(hops)) <==> Tame(run);
    assert NoneBorderline(Runs(hops)) <==> !Borderline(run);
    assert AllFreeWhenFull(hops) || !Borderline(run);
    LedNeverDearerIff(hops);
  }

  // ---------- How much more ----------

  function BorderlineOf(): Run -> nat {
    (run: Run) => if Borderline(run) then 1 else 0
  }

  lemma {:induction false} ModestRunCharge(vaults: seq<Vault>, run: Run)
    requires Modest(run) && Chargeable(vaults, run)
    ensures HopCharge(vaults, Collapse(run)).Success?
    ensures ChargeOf(vaults)(Collapse(run)) <= Sum(run, ChargeOf(vaults)) + BorderlineOf()(run)
  {
    TameOrBorderline(run);
    assert HopCharge(vaults, run[0]).Success?;
    if Tame(run) {
      RunCharge(vaults, run);
    } else {
      PricedIff(vaults, run[0]);
      UnitCharge(vaults, Collapse(run));
    }
  }

  lemma {:induction false} ModestRunsCharge(vaults: seq<Vault>, runs: seq<Run>)
    requires Chargeable(vaults, Flatten(runs)) && AllModest(runs)
    ensures Chargeable(vaults, CollapseAll(runs))
    ensures Sum(CollapseAll(runs), ChargeOf(vaults)) <= Sum(Flatten(runs), ChargeOf(vaults)) + Sum(runs, BorderlineOf())
  {
    if |runs| > 0 {
      var m := |runs| - 1;
      var front, last := Flatten(runs[..m]), runs[m];
      hide HopCharge, Modest, Borderline;
      ChargeableParts(vaults, front, last);
      assert AllModest(runs[..m]) && Modest(runs[m]);
      ModestRunsCharge(vaults, runs[..m]);
      ModestRunCharge(vaults, last);
      SumConcat(front, last, ChargeOf(vaults));
      SumAppend(CollapseAll(runs[..m]), Collapse(last), ChargeOf(vaults));
      ChargeableAppend(vaults, CollapseAll(runs[..m]), Collapse(last));
    }
  }

  /** A route of modest runs, over any vaults that price it, costs at most one unit more per borderline run. */
  lemma {:induction false} DearerByBorderlines(vaults: seq<Vault>, hops: seq<Hop>)
    requires RouteCharge(vaults, hops).Success? && AllModest(Runs(hops))
    ensures RouteCharge(vaults, Merged(hops)).Success?
    ensures RouteCharge(vaults, Merged(hops)).value <= RouteCharge(vaults, hops).value + Sum(Runs(hops), BorderlineOf())
  {
    CutOf(hops);
    PricedParts(vaults, hops);
    hide HopCharge, Modest, Borderline, Chargeable, Sum, Flatten, Runs, Merged;
    ModestRunsCharge(vaults, Runs(hops));
    RoutePricedIff(vaults, hops);
    RoutePricedIff(vaults, Merged(hops));
  }
}
