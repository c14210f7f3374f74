/** Vault utilisation and the recovery premium of a route (src/exposure.c). */
module Exposure {
  import opened Amounts
  import opened Digests
  import opened Sums
  import opened Routes
  import opened LedgerTypes

  /** How much of a capacity an amount uses, in basis points. */
  function Utilization(amount: Amount, capacity: Amount): (bps: U32)
    ensures bps <= BPS
  {
    Ratio(amount, capacity, BPS)
  }

  /** The same long division, over the fixed basis-point scale. */
  method UtilizationBps(amount: Amount, capacity: Amount) returns (result: U32)
    ensures result == Utilization(amount, capacity)
  {
    var remainder: Amount := 0;
    result := 0;
    if capacity == 0 || amount == 0 {
      RatioOfNothing(amount, capacity, BPS);
      return 0;
    }
    if amount >= capacity {
      RatioCap(amount, capacity, BPS);
      return BPS;
    }
    for index := 0 to BPS
      invariant remainder < capacity && result <= index
      invariant index * amount == result * capacity + remainder
    {
      remainder, result := RatioTurn(amount, capacity, remainder, result);
    }
    FloorUnique(amount * BPS, capacity, result);
    RatioIsFloor(amount, capacity, BPS);
  }

  /** The premium of one hop, priced at its source vault. */
  function HopCharge(vaults: seq<Vault>, hop: Hop): (r: Result<Amount>)
    ensures r.Failure? ==> r.error == ErrPolicy
  {
    var v := VaultAt(vaults, hop.fromVault);
    if v.None? then Failure(ErrPolicy)
    else
      var source := vaults[v.value];
      if !source.active || source.balance == 0 || hop.amountHint > source.balance || hop.weightBps > BPS
      then Failure(ErrPolicy)
      else
        var weighted :- MulBps(hop.amountHint, hop.weightBps);
        MulBps(weighted, Utilization(hop.amountHint, source.balance))
  }

  predicate Chargeable(vaults: seq<Vault>, hops: seq<Hop>) {
    forall i {:trigger HopCharge(vaults, hops[i])} | 0 <= i < |hops| :: HopCharge(vaults, hops[i]).Success?
  }

  function ChargeOf(vaults: seq<Vault>): Hop -> nat {
    (hop: Hop) => var r := HopCharge(vaults, hop); if r.Success? then r.value else 0
  }

  /** The premium of a route: defined when every hop is chargeable and the total fits in 64 bits. */
  function RouteCharge(vaults: seq<Vault>, hops: seq<Hop>): Result<Amount> {
    if |hops| > MAX_ROUTE_HOPS then Failure(ErrArgument)
    else if Chargeable(vaults, hops) && Sum(hops, ChargeOf(vaults)) <= U64_MAX
    then Success(Sum(hops, ChargeOf(vaults)))
    else Failure(ErrPolicy)
  }

  method PriceHop(vaults: seq<Vault>, hop: Hop) returns (r: Result<Amount>)
    ensures r == HopCharge(vaults, hop)
  {
    var v := VaultAt(vaults, hop.fromVault);
    if v.None? {
      return Failure(ErrPolicy);
    }
    var source := vaults[v.value];
    if !source.active || source.balance == 0 || hop.amountHint > source.balance || hop.weightBps > BPS {
      return Failure(ErrPolicy);
    }
    var utilization := UtilizationBps(hop.amountHint, source.balance);
    var weighted := MulBps(hop.amountHint, hop.weightBps);
    if weighted.Failure? {
      return Failure(ErrPolicy);
    }
    r := MulBps(weighted.value, utilization);
  }

  /** The first n hops are chargeable and cost this much together. */
  predicate ChargedUpTo(vaults: seq<Vault>, hops: seq<Hop>, n: nat, total: int) {
    n <= |hops| && Chargeable(vaults, hops[..n]) && total == Sum(hops[..n], ChargeOf(vaults))
  }

  lemma {:induction false} ChargeAdvance(vaults: seq<Vault>, hops: seq<Hop>, n: nat, total: Amount)
    requires n < |hops| <= MAX_ROUTE_HOPS && ChargedUpTo(vaults, hops, n, total)
    ensures var charge := HopCharge(vaults, hops[n]);
            && (charge.Failure? ==> RouteCharge(vaults, hops) == Failure(ErrPolicy))
            && (charge.Success? && Add(total, charge.value).Failure?
                ==> RouteCharge(vaults, hops) == Failure(ErrPolicy))
            && (charge.Success? ==> ChargedUpTo(vaults, hops, n + 1, total + charge.value))
  {
    var charge := HopCharge(vaults, hops[n]);
    SumPrefix(hops, n, ChargeOf(vaults));
    SumPrefixCovered(hops, n + 1, ChargeOf(vaults));
    if charge.Success? {
      var before, after := hops[..n], hops[..n + 1];
      forall i | 0 <= i < |after|
        ensures HopCharge(vaults, after[i]).Success?
      {
        assert i < n ==> after[i] == before[i];
      }
    }
  }

  method RouteExposureCharge(vaults: seq<Vault>, hops: seq<Hop>) returns (r: Result<Amount>)
    ensures r == RouteCharge(vaults, hops)
  {
    if |hops| > MAX_ROUTE_HOPS {
      return Failure(ErrArgument);
    }
    var total: Amount := 0;
    for index := 0 to |hops|
      invariant ChargedUpTo(vaults, hops, index, total)
    {
      ChargeAdvance(vaults, hops, index, total);
      var charge := PriceHop(vaults, hops[index]);
      if charge.Failure? {
        return Failure(ErrPolicy);
      }
      var next := Add(total, charge.value);
      if next.Failure? {
        return Failure(ErrPolicy);
      }
      total := next.value;
    }
    assert hops[..|hops|] == hops;
    r := Success(total);
  }

  // ---------- The size of a premium ----------

  function SourceBalance(vaults: seq<Vault>, hop: Hop): Amount {
    var v := VaultAt(vaults, hop.fromVault);
    if v.None? then 0 else vaults[v.value].balance
  }

  /** The premium of an amount with a weight at a vault of this size. */
  function Charge(amount: Amount, weight: U32, capacity: Amount): (c: nat)
    requires 0 < capacity
  {
    MulMonotone(0, amount, weight);
    MulMonotone(0, amount, BPS);
    MulMonotone(0, Floor(amount * weight, BPS), Floor(amount * BPS, capacity));
    Floor(Floor(amount * weight, BPS) * Floor(amount * BPS, capacity), BPS)
  }

  /** An accepted hop is charged for an amount its source can cover, at a weight of at most the whole. */
  lemma {:induction false} HopChargeIs(vaults: seq<Vault>, hop: Hop)
    ensures HopCharge(vaults, hop).Success? ==>
              var balance := SourceBalance(vaults, hop);
              && 0 < balance && hop.amountHint <= balance && hop.weightBps <= BPS
              && HopCharge(vaults, hop).value == Charge(hop.amountHint, hop.weightBps, balance)
  {
    if HopCharge(vaults, hop).Success? {
      RatioIsFloor(hop.amountHint, SourceBalance(vaults, hop), BPS);
    }
  }

  /** More amount or more weight never costs less; a larger vault never costs more. */
  lemma {:induction false} ChargeMonotone(a: Amount, b: Amount, w: U32, x: U32, v: Amount, u: Amount)
    requires a <= b && w <= x && 0 < v <= u
    ensures Charge(a, w, u) <= Charge(b, x, v)
  {
    MulMonotone(0, a, w);
    MulMonotone(0, a, BPS);
    MulMonotone(a, b, w);
    MulMonotone(w, x, b);
    FloorMonotone(a * w, b * x, BPS);
    MulMonotone(a, b, BPS);
    FloorMonotone(a * BPS, b * BPS, u);
    FloorAntitone(b * BPS, v, u);
    var p, q := Floor(a * w, BPS), Floor(b * x, BPS);
    var y, z := Floor(a * BPS, u), Floor(b * BPS, v);
    MulMonotone(0, p, y);
    MulMonotone(p, q, y);
    MulMonotone(y, z, q);
    FloorMonotone(p * y, q * z, BPS);
  }

  /** The rounded premium lies under the exact A*A*w / (B*V). */
  lemma {:induction false} ChargeUpper(amount: Amount, weight: U32, capacity: Amount)
    requires 0 < capacity
    ensures Charge(amount, weight, capacity) * (BPS * capacity) <= amount * weight * amount
  {
    var c := Charge(amount, weight, capacity);
    MulMonotone(0, amount, weight);
    MulMonotone(0, amount, BPS);
    var p, u := Floor(amount * weight, BPS), Floor(amount * BPS, capacity);
    MulMonotone(0, p, u);
    MulMonotone(c * BPS, p * u, capacity);
    assert c * (BPS * capacity) == c * BPS * capacity;
    assert p * u * capacity == p * (u * capacity);
    MulMonotone(u * capacity, amount * BPS, p);
    assert p * (amount * BPS) == (p * BPS) * amount;
    MulMonotone(p * BPS, amount * weight, amount);
  }

  /** ... and misses it by less than 2 + A*w / (B*B). */
  lemma {:induction false} ChargeLower(amount: Amount, weight: U32, capacity: Amount)
    requires 0 < capacity && amount <= capacity
    ensures amount * weight * amount * BPS
          < (Charge(amount, weight, capacity) + 2) * (BPS * BPS * capacity) + amount * weight * capacity
  {
    var c := Charge(amount, weight, capacity);
    MulMonotone(0, amount, weight);
    MulMonotone(0, amount, BPS);
    var p, u := Floor(amount * weight, BPS), Floor(amount * BPS, capacity);
    var m, v := amount * weight, capacity;
    MulMonotone(0, p, u);
    FullUse(amount, capacity);
    // m < (p + 1) * B and A * B < (u + 1) * V, and p * u < (c + 1) * B
    if u == BPS {
      // the amount fills the vault: amount == capacity
      assert amount == capacity;
      assert p * BPS < (c + 1) * BPS;
      assert p <= c;
      WholeVault(m, p, c, v);
    } else {
      PartVault(m, p, u, c, v, amount);
    }
  }

  /** Both bounds for a hop its vault can cover. */
  lemma {:induction false} ChargeBounds(amount: Amount, weight: U32, capacity: Amount)
    requires 0 < capacity && amount <= capacity
    ensures Charge(amount, weight, capacity) * (BPS * capacity) <= amount * weight * amount
    ensures amount * weight * amount * BPS
          < (Charge(amount, weight, capacity) + 2) * (BPS * BPS * capacity) + amount * weight * capacity
  {
    hide Charge;
    ChargeUpper(amount, weight, capacity);
    ChargeLower(amount, weight, capacity);
  }

  lemma {:induction false} WholeVault(m: nat, p: nat, c: nat, v: nat)
    requires m < (p + 1) * BPS && p <= c && 0 < v
    ensures m * v * BPS < (c + 2) * (BPS * BPS * v) + m * v
  {
    MulMonotone(m, (p + 1) * BPS, v * BPS);
    MulMonotone(p + 1, c + 1, BPS * BPS * v);
    assert m * (v * BPS) == m * v * BPS;
    assert (p + 1) * BPS * (v * BPS) == (p + 1) * (BPS * BPS * v);
    assert (c + 2) * (BPS * BPS * v) == (c + 1) * (BPS * BPS * v) + BPS * BPS * v;
    MulMonotone(0, m, v);
  }

  lemma {:induction false} PartVault(m: nat, p: nat, u: nat, c: nat, v: nat, a: nat)
    requires m < (p + 1) * BPS && p * BPS <= m && u + 1 <= BPS && a * BPS < (u + 1) * v && p * u < (c + 1) * BPS
             && 0 < v
    ensures m * a * BPS < (c + 2) * (BPS * BPS * v) + m * v
  {
    // m*a*B <= m*(u+1)*v, and m*(u+1) = m*u + m
    MulMonotone(a * BPS, (u + 1) * v, m);
    assert m * (a * BPS) == m * a * BPS;
    assert m * ((u + 1) * v) == m * u * v + m * v;
    // m*u <= ((p+1)*B - 1)*u < (c+1)*B*B + B*B
    MulMonotone(m, (p + 1) * BPS, u);
    assert (p + 1) * BPS * u == p * u * BPS + u * BPS;
    MulMonotone(p * u, (c + 1) * BPS, BPS);
    MulMonotone(u, BPS, BPS);
    assert m * u < (c + 2) * (BPS * BPS);
    StrictScale(m * u, (c + 2) * (BPS * BPS), v);
    assert (c + 2) * (BPS * BPS) * v == (c + 2) * (BPS * BPS * v);
  }

  lemma StrictScale(x: int, y: int, f: int)
    requires x < y && 0 < f
    ensures x * f < y * f
  {
  }

  /** An amount within the capacity uses at most the whole of it, and the whole only when it fills it. */
  lemma {:induction false} FullUse(amount: Amount, capacity: Amount)
    requires 0 < capacity && amount <= capacity
    ensures 0 <= amount * BPS && Floor(amount * BPS, capacity) <= BPS
    ensures Floor(amount * BPS, capacity) == BPS ==> amount == capacity
  {
    RatioIsFloor(amount, capacity, BPS);
    if amount < capacity {
      MulMonotone(amount + 1, capacity, BPS);
    }
  }

  // ---------- Compaction never raises the premium ----------

  /** The run ends on no more than it starts with - or on a single unit after nothing, at less than the whole weight. */
  predicate Tame(run: seq<Hop>) {
    && |run| > 0
    && (|| Last(run).amountHint <= run[0].amountHint
        || (run[0].amountHint == 0 && Last(run).amountHint == 1 && run[0].weightBps < BPS))
  }

  predicate AllTame(runs: seq<Run>) {
    forall i {:trigger Tame(runs[i])} | 0 <= i < |runs| :: Tame(runs[i])
  }

  lemma {:induction false} CollapseCharge(vaults: seq<Vault>, run: Run)
    requires Tame(run) && HopCharge(vaults, run[0]).Success?
    ensures HopCharge(vaults, Collapse(run)).Success?
    ensures HopCharge(vaults, Collapse(run)).value <= HopCharge(vaults, run[0]).value
  {
    var first, merged, balance := run[0], Collapse(run), SourceBalance(vaults, run[0]);
    HopChargeIs(vaults, first);
    if merged.amountHint > first.amountHint {
      UnitCharge(vaults, merged);
    } else {
      MulMonotone(merged.amountHint, first.amountHint, first.weightBps);
      var w, x := MulBps(merged.amountHint, merged.weightBps), MulBps(first.amountHint, first.weightBps);
      MulMonotone(0, merged.amountHint, first.weightBps);
      FloorMonotone(merged.amountHint * first.weightBps, first.amountHint * first.weightBps, BPS);
      RatioMonotone(merged.amountHint, first.amountHint, balance, BPS);
      ChargeFits(w.value, x.value, Utilization(merged.amountHint, balance), Utilization(first.amountHint, balance));
    }
  }

  /** A single unit costs nothing, unless it weighs whole and fills its vault. */
  lemma {:induction false} UnitCharge(vaults: seq<Vault>, hop: Hop)
    requires hop.amountHint == 1 && hop.weightBps <= BPS && 0 < SourceBalance(vaults, hop)
    ensures HopCharge(vaults, hop)
         == Success(if hop.weightBps == BPS && SourceBalance(vaults, hop) == 1 then 1 else 0)
  {
    var balance := SourceBalance(vaults, hop);
    RatioIsFloor(1, balance, BPS);
    FloorUnique(hop.weightBps, BPS, if hop.weightBps == BPS then 1 else 0);
    var u := Utilization(1, balance);
    if balance == 1 {
      FloorUnique(BPS, 1, BPS);
      FloorUnique(BPS, BPS, 1);
    } else {
      MulMonotone(2, balance, u);
      FloorUnique(u, BPS, 0);
    }
    FloorUnique(0, BPS, 0);
  }

  lemma {:induction false} ChargeFits(w: Amount, x: Amount, u: U32, v: U32)
    requires w <= x && u <= v && MulBps(x, v).Success?
    ensures MulBps(w, u).Success? && MulBps(w, u).value <= MulBps(x, v).value
  {
    MulMonotone(w, x, u);
    MulMonotone(u, v, x);
    MulMonotone(0, w, u);
    FloorMonotone(w * u, x * v, BPS);
  }

  lemma {:induction false} RunCharge(vaults: seq<Vault>, run: Run)
    requires Tame(run) && Chargeable(vaults, run)
    ensures HopCharge(vaults, Collapse(run)).Success?
    ensures ChargeOf(vaults)(Collapse(run)) <= Sum(run, ChargeOf(vaults))
  {
    CollapseCharge(vaults, run);
    SumCovers(run, 0, ChargeOf(vaults));
  }

  lemma {:induction false} RunsCharge(vaults: seq<Vault>, runs: seq<Run>)
    requires Chargeable(vaults, Flatten(runs)) && AllTame(runs)
    ensures Chargeable(vaults, CollapseAll(runs))
    ensures Sum(CollapseAll(runs), ChargeOf(vaults)) <= Sum(Flatten(runs), ChargeOf(vaults))
  {
    if |runs| > 0 {
      var m := |runs| - 1;
      var front, last := Flatten(runs[..m]), runs[m];
      ChargeableParts(vaults, front, last);
      assert AllTame(runs[..m]) && Tame(runs[m]);
      RunsCharge(vaults, runs[..m]);
      RunCharge(vaults, last);
      SumConcat(front, last, ChargeOf(vaults));
      SumAppend(CollapseAll(runs[..m]), Collapse(last), ChargeOf(vaults));
      ChargeableAppend(vaults, CollapseAll(runs[..m]), Collapse(last));
    }
  }

  lemma {:induction false} ChargeableParts(vaults: seq<Vault>, xs: seq<Hop>, ys: seq<Hop>)
    requires Chargeable(vaults, xs + ys)
    ensures Chargeable(vaults, xs) && Chargeable(vaults, ys)
  {
    hide HopCharge;
    assert forall i | 0 <= i < |xs| :: (xs + ys)[i] == xs[i];
    assert forall i | 0 <= i < |ys| :: (xs + ys)[|xs| + i] == ys[i];
  }

  lemma {:induction false} ChargeableAppend(vaults: seq<Vault>, xs: seq<Hop>, x: Hop)
    requires Chargeable(vaults, xs) && HopCharge(vaults, x).Success?
    ensures Chargeable(vaults, xs + [x])
  {
    hide HopCharge;
  }

  /** When every merged run is tame, a route that can be priced can still be priced after compaction, for no more. */
  lemma {:induction false} CompactionNeverCostsMore(vaults: seq<Vault>, hops: seq<Hop>)
    requires RouteCharge(vaults, hops).Success?
    requires AllTame(Runs(hops))
    ensures RouteCharge(vaults, Merged(hops)).Success?
    ensures RouteCharge(vaults, Merged(hops)).value <= RouteCharge(vaults, hops).value
  {
    hide *;
    CutOf(hops);
    PricedParts(vaults, hops);
    RunsCharge(vaults, Runs(hops));
    PricedWhole(vaults, Merged(hops), hops);
  }

  lemma PricedWhole(vaults: seq<Vault>, merged: seq<Hop>, hops: seq<Hop>)
    requires RouteCharge(vaults, hops).Success? && |merged| <= |hops| && Chargeable(vaults, merged)
    requires Sum(merged, ChargeOf(vaults)) <= Sum(hops, ChargeOf(vaults))
    ensures RouteCharge(vaults, merged).Success? && RouteCharge(vaults, merged).value <= RouteCharge(vaults, hops).value
  {
    hide Chargeable, Sum;
  }

  /** A run that ends on more than its first vault holds cannot be priced merged. */
  lemma {:induction false} GrowingRunRefused(vaults: seq<Vault>, first: Hop, second: Hop)
    requires Compatible(first, second) && second.amountHint > SourceBalance(vaults, first)
    ensures RouteCharge(vaults, Merged([first, second])) == Failure(ErrPolicy)
  {
    PairMerges(first, second);
    assert HopCharge(vaults, Absorb(first, second)).Failure?;
    assert Merged([first, second])[0] == Absorb(first, second);
  }

  // ---------- When a compacted route can be priced at all ----------

  /** What the guards ask of a merged run: its last amount fits the first vault, and its product with the first weight
      fits in 64 bits. */
  predicate Priceable(vaults: seq<Vault>, run: seq<Hop>) {
    |run| > 0
    && Last(run).amountHint <= SourceBalance(vaults, run[0])
    && Last(run).amountHint * run[0].weightBps <= U64_MAX
  }

  predicate AllPriceable(vaults: seq<Vault>, runs: seq<Run>) {
    forall i {:trigger Priceable(vaults, runs[i])} | 0 <= i < |runs| :: Priceable(vaults, runs[i])
  }

  lemma {:induction false} ShareBelow(amount: Amount, bps: U32)
    requires bps <= BPS && MulBps(amount, bps).Success?
    ensures MulBps(amount, bps).value * BPS <= amount * bps
  {
  }

  lemma {:induction false} CollapsePriceableIff(vaults: seq<Vault>, run: Run)
    requires HopCharge(vaults, run[0]).Success?
    ensures HopCharge(vaults, Collapse(run)).Success? <==> Priceable(vaults, run)
    ensures HopCharge(vaults, Collapse(run)).Success? ==> HopCharge(vaults, Collapse(run)).value * BPS <= U64_MAX
  {
    var merged, balance := Collapse(run), SourceBalance(vaults, run[0]);
    HopChargeIs(vaults, run[0]);
    var u := Utilization(merged.amountHint, balance);
    if Priceable(vaults, run) {
      var weighted := MulBps(merged.amountHint, merged.weightBps);
      ShareBelow(merged.amountHint, merged.weightBps);
      MulMonotone(u, BPS, weighted.value);
      ShareBelow(weighted.value, u);
    }
  }

  lemma {:induction false} RunsPriceableIff(vaults: seq<Vault>, runs: seq<Run>)
    requires Chargeable(vaults, Flatten(runs))
    ensures Chargeable(vaults, CollapseAll(runs)) <==> AllPriceable(vaults, runs)
    ensures Chargeable(vaults, CollapseAll(runs)) ==> Sum(CollapseAll(runs), ChargeOf(vaults)) * BPS <= |runs| * U64_MAX
  {
    if |runs| > 0 {
      var m := |runs| - 1;
      var front, rest, last := runs[..m], CollapseAll(runs[..m]), Collapse(runs[m]);
      ChargeableParts(vaults, Flatten(front), runs[m]);
      RunsPriceableIff(vaults, front);
      CollapsePriceableIff(vaults, runs[m]);
      assert CollapseAll(runs) == rest + [last];
      AllPriceableSplits(vaults, runs);
      hide *;
      ChargeableBoth(vaults, rest, last);
    }
  }

  lemma AllPriceableSplits(vaults: seq<Vault>, runs: seq<Run>)
    requires |runs| > 0
    ensures var m := |runs| - 1;
            AllPriceable(vaults, runs) <==> AllPriceable(vaults, runs[..m]) && Priceable(vaults, runs[m])
  {
    hide Priceable;
    var m := |runs| - 1;
    if AllPriceable(vaults, runs[..m]) && Priceable(vaults, runs[m]) {
      forall i | 0 <= i < |runs|
        ensures Priceable(vaults, runs[i])
      {
        assert i < m ==> Priceable(vaults, runs[..m][i]);
      }
    }
  }

  lemma {:induction false} ChargeableBoth(vaults: seq<Vault>, xs: seq<Hop>, x: Hop)
    ensures Chargeable(vaults, xs + [x]) <==> Chargeable(vaults, xs) && HopCharge(vaults, x).Success?
    ensures HopCharge(vaults, x).Success? ==>
              Sum(xs + [x], ChargeOf(vaults)) == Sum(xs, ChargeOf(vaults)) + HopCharge(vaults, x).value
  {
    hide HopCharge;
    SumAppend(xs, x, ChargeOf(vaults));
    if Chargeable(vaults, xs + [x]) {
      ChargeableParts(vaults, xs, [x]);
      assert [x][0] == x;
    } else if Chargeable(vaults, xs) && HopCharge(vaults, x).Success? {
      ChargeableAppend(vaults, xs, x);
    }
  }

  /** Of a route that can be priced, the compacted form can be priced exactly when every merged run passes the guards at
      its first vault; the total can then never overflow. */
  lemma {:induction false} CompactedPriceableIff(vaults: seq<Vault>, hops: seq<Hop>)
    requires RouteCharge(vaults, hops).Success?
    ensures RouteCharge(vaults, Merged(hops)).Success? <==> AllPriceable(vaults, Runs(hops))
  {
    hide *;
    CutOf(hops);
    PricedParts(vaults, hops);
    RunsRouteIff(vaults, Runs(hops));
  }

  lemma CutOf(hops: seq<Hop>)
    ensures Flatten(Runs(hops)) == hops && Merged(hops) == CollapseAll(Runs(hops)) && |Runs(hops)| <= |hops|
  {
    RunsAreMaximal(hops);
    MergedCounts(hops);
  }

  lemma PricedParts(vaults: seq<Vault>, hops: seq<Hop>)
    requires RouteCharge(vaults, hops).Success?
    ensures |hops| <= MAX_ROUTE_HOPS && Chargeable(vaults, hops)
  {
    hide Chargeable;
  }

  lemma {:induction false} RunsRouteIff(vaults: seq<Vault>, runs: seq<Run>)
    requires |runs| <= MAX_ROUTE_HOPS && Chargeable(vaults, Flatten(runs))
    ensures RouteCharge(vaults, CollapseAll(runs)).Success? <==> AllPriceable(vaults, runs)
  {
    hide Priceable, Chargeable, Sum;
    RunsPriceableIff(vaults, runs);
    MulMonotone(|runs|, MAX_ROUTE_HOPS, U64_MAX);
  }

  /** A run that grows within its first vault can still be priced, but may cost more: here 2500 instead of nothing. */
  lemma {:induction false} CompactionCanCostMore(lane: Digest, p: Digest, q: Digest)
    requires p != q
    ensures var vaults := [Vault(p, lane, 10000, 0, 0, true), Vault(q, lane, 10000, 0, 0, true)];
            var hops := [Hop(lane, p, q, lane, 0, 10000, 0), Hop(lane, q, p, lane, 5000, 0, 0)];
            RouteCharge(vaults, hops) == Success(0) && RouteCharge(vaults, Merged(hops)) == Success(2500)
  {
    var vaults := [Vault(p, lane, 10000, 0, 0, true), Vault(q, lane, 10000, 0, 0, true)];
    var first, second := Hop(lane, p, q, lane, 0, 10000, 0), Hop(lane, q, p, lane, 5000, 0, 0);
    assert VaultAt(vaults, p) == Some(0) && VaultAt(vaults, q) == Some(1) by {
      assert vaults[0].active && vaults[0].id == p && vaults[1].active && vaults[1].id == q;
    }
    var merged := Absorb(first, second);
    hide HopCharge, VaultAt, Sum;
    FloorUnique(25000000, BPS, 2500);
    ExampleCharge(vaults, first, 0, 0);
    ExampleCharge(vaults, second, 0, 5000);
    ExampleCharge(vaults, merged, 2500, 5000);
    PairMerges(first, second);
    TwoCharges(vaults, first, second);
    OneCharge(vaults, merged);
  }

  lemma {:induction false} OneCharge(vaults: seq<Vault>, hop: Hop)
    requires HopCharge(vaults, hop).Success?
    ensures RouteCharge(vaults, [hop]) == HopCharge(vaults, hop)
  {
    hide HopCharge;
    assert [hop] == [] + [hop];
    SumAppend([], hop, ChargeOf(vaults));
  }

  lemma {:induction false} TwoCharges(vaults: seq<Vault>, first: Hop, second: Hop)
    requires HopCharge(vaults, first) == Success(0) && HopCharge(vaults, second) == Success(0)
    ensures RouteCharge(vaults, [first, second]) == Success(0)
  {
    hide HopCharge;
    SumZero([first, second], ChargeOf(vaults));
  }

  lemma {:induction false} ExampleCharge(vaults: seq<Vault>, hop: Hop, charge: Amount, use: U32)
    requires VaultAt(vaults, hop.fromVault).Some? && SourceBalance(vaults, hop) == 10000
    requires hop.weightBps <= BPS && hop.amountHint == use <= 10000
    requires hop.weightBps == 10000 || hop.weightBps == 0
    requires charge == if hop.weightBps == 0 then 0 else Floor(use * use, BPS)
    ensures HopCharge(vaults, hop) == Success(charge)
  {
    FloorUnique(use * 10000, 10000, use);
    RatioIsFloor(use, 10000, BPS);
  }
}
