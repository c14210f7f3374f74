/** Exactly when compaction can raise the premium of any route: vaults can be looked at one by one, each at the balance
    at which merging costs most. */
module PremiumExact {
  import opened Amounts
  import opened Digests
  import opened Sums
  import opened Routes
  import opened LedgerTypes
  import opened Exposure
  import opened Premiums

  // ---------- One vault at a time ----------

  /** What a hop costs at a vault with this balance, or nothing where it cannot be priced. */
  function CostOf(hop: Hop, balance: Amount): nat {
    if OwnFits(hop) && 0 < balance && hop.amountHint <= balance
    then Charge(hop.amountHint, hop.weightBps, balance)
    else 0
  }

  /** The part of a route's cost that arises at one vault. */
  function CostAt(vault: Digest, balance: Amount): Hop -> nat {
    (hop: Hop) => if hop.fromVault == vault then CostOf(hop, balance) else 0
  }

  /** How much more the compacted route costs at one vault. */
  function Rise(hops: seq<Hop>, vault: Digest, balance: Amount): int {
    Sum(Merged(hops), CostAt(vault, balance)) - Sum(hops, CostAt(vault, balance))
  }

  /** The balance, from this one up, at which merging costs most. */
  function WorstBalance(hops: seq<Hop>, vault: Digest, balance: Amount): (worst: Amount)
    ensures balance <= worst
    decreases U64_MAX - balance
  {
    if balance == U64_MAX then balance
    else
      var later := WorstBalance(hops, vault, balance + 1);
      if Rise(hops, vault, later) <= Rise(hops, vault, balance) then balance else later
  }

  lemma {:induction false} WorstIsWorst(hops: seq<Hop>, vault: Digest, from: Amount, balance: Amount)
    requires from <= balance
    ensures Rise(hops, vault, balance) <= Rise(hops, vault, WorstBalance(hops, vault, from))
    decreases U64_MAX - from
  {
    hide Rise;
    if from < balance {
      WorstIsWorst(hops, vault, from + 1, balance);
    }
  }

  function WorstStock(hops: seq<Hop>): Digest -> Amount {
    (vault: Digest) => WorstBalance(hops, vault, Need(hops, vault))
  }

  /** How much more the compacted route can cost at one vault, over all balances that price the route there. */
  function WorstRise(hops: seq<Hop>): Digest -> int {
    (vault: Digest) => Rise(hops, vault, WorstStock(hops)(vault))
  }

  /** The vaults a route leaves, each once. */
  function Sources(hops: seq<Hop>): seq<Digest> {
    if |hops| == 0 then []
    else
      var rest := Sources(hops[..|hops| - 1]);
      if Last(hops).fromVault in rest then rest else rest + [Last(hops).fromVault]
  }

  predicate Distinct(ids: seq<Digest>) {
    forall i, j | 0 <= i < j < |ids| :: ids[i] != ids[j]
  }

  predicate LeavesAmong(hops: seq<Hop>, ids: seq<Digest>) {
    forall i | 0 <= i < |hops| :: hops[i].fromVault in ids
  }

  lemma DistinctGrows(ids: seq<Digest>, id: Digest)
    requires Distinct(ids) && id !in ids
    ensures Distinct(ids + [id])
  {
  }

  lemma LeavesAmongGrows(front: seq<Hop>, last: Hop, ids: seq<Digest>, more: seq<Digest>)
    requires LeavesAmong(front, ids) && last.fromVault in more && forall id | id in ids :: id in more
    ensures LeavesAmong(front + [last], more)
  {
    forall i | 0 <= i < |front| + 1
      ensures (front + [last])[i].fromVault in more
    {
      if i < |front| {
        assert front[i].fromVault in ids;
      }
    }
  }

  lemma {:induction false} SourcesKnown(hops: seq<Hop>)
    ensures Distinct(Sources(hops)) && LeavesAmong(hops, Sources(hops))
  {
    if |hops| > 0 {
      var front, last := hops[..|hops| - 1], Last(hops);
      SourcesKnown(front);
      hide LeavesAmong, Distinct;
      if last.fromVault !in Sources(front) {
        DistinctGrows(Sources(front), last.fromVault);
      }
      LeavesAmongGrows(front, last, Sources(front), Sources(hops));
      assert hops == front + [last];
    }
  }

  lemma {:induction false} SourceUsed(hops: seq<Hop>, id: Digest) returns (i: nat)
    requires id in Sources(hops)
    ensures i < |hops| && hops[i].fromVault == id
  {
    var n := |hops| - 1;
    if id in Sources(hops[..n]) {
      i := SourceUsed(hops[..n], id);
    } else {
      i := n;
    }
  }

  /** Merging opens no new source. */
  lemma {:induction false} MergedLeavesAmong(hops: seq<Hop>)
    ensures LeavesAmong(Merged(hops), Sources(hops))
  {
    SourcesKnown(hops);
    CutOf(hops);
    hide Flatten, Runs, Sources;
    forall i | 0 <= i < |Merged(hops)|
      ensures Merged(hops)[i].fromVault in Sources(hops)
    {
      var j := HopOfRun(Runs(hops), i, 0);
      assert Merged(hops)[i] == Collapse(Runs(hops)[i]);
      assert hops[j].fromVault in Sources(hops);
    }
  }

  // ---------- Sums over vaults ----------

  function Total(ids: seq<Digest>, f: Digest -> int): int {
    if |ids| == 0 then 0 else Total(ids[..|ids| - 1], f) + f(Last(ids))
  }

  lemma {:induction false} TotalAdds(ids: seq<Digest>, f: Digest -> int, g: Digest -> int, h: Digest -> int)
    requires forall id | id in ids :: h(id) == f(id) + g(id)
    ensures Total(ids, h) == Total(ids, f) + Total(ids, g)
  {
    if |ids| > 0 {
      TotalAdds(ids[..|ids| - 1], f, g, h);
    }
  }

  lemma {:induction false} TotalMonotone(ids: seq<Digest>, f: Digest -> int, g: Digest -> int)
    requires forall id | id in ids :: f(id) <= g(id)
    ensures Total(ids, f) <= Total(ids, g)
  {
    if |ids| > 0 {
      TotalMonotone(ids[..|ids| - 1], f, g);
    }
  }

  function Only(key: Digest, amount: int): Digest -> int {
    (id: Digest) => if id == key then amount else 0
  }

  lemma {:induction false} TotalOnly(ids: seq<Digest>, key: Digest, amount: int)
    requires Distinct(ids)
    ensures Total(ids, Only(key, amount)) == if key in ids then amount else 0
  {
    if |ids| > 0 {
      var n := |ids| - 1;
      TotalOnly(ids[..n], key, amount);
      assert ids == ids[..n] + [ids[n]];
      assert ids[n] !in ids[..n];
    }
  }

  /** What hops cost, each at the stock of the vault it leaves. */
  function CostWith(stock: Digest -> Amount): Hop -> nat {
    (hop: Hop) => CostOf(hop, stock(hop.fromVault))
  }

  function PartsWith(hops: seq<Hop>, stock: Digest -> Amount): Digest -> int {
    (id: Digest) => Sum(hops, CostAt(id, stock(id)))
  }

  /** The cost of a route is the sum of its parts, vault by vault. */
  lemma {:induction false} CostByVault(hops: seq<Hop>, ids: seq<Digest>, stock: Digest -> Amount)
    requires Distinct(ids) && LeavesAmong(hops, ids)
    ensures Sum(hops, CostWith(stock)) == Total(ids, PartsWith(hops, stock))
    decreases |hops|
  {
    hide CostOf;
    if |hops| == 0 {
      TotalOnly(ids, ZERO_DIGEST, 0);
      TotalMonotone(ids, PartsWith(hops, stock), Only(ZERO_DIGEST, 0));
      TotalMonotone(ids, Only(ZERO_DIGEST, 0), PartsWith(hops, stock));
    } else {
      var n := |hops| - 1;
      var last := hops[n];
      CostByVault(hops[..n], ids, stock);
      TotalOnly(ids, last.fromVault, CostOf(last, stock(last.fromVault)));
      TotalAdds(ids, PartsWith(hops[..n], stock), Only(last.fromVault, CostOf(last, stock(last.fromVault))),
                PartsWith(hops, stock));
    }
  }

  function RisesWith(hops: seq<Hop>, stock: Digest -> Amount): Digest -> int {
    (id: Digest) => Rise(hops, id, stock(id))
  }

  // ---------- Routes at given stocks ----------

  function StockOf(vaults: seq<Vault>): Digest -> Amount {
    (id: Digest) => var v := VaultAt(vaults, id); if v.None? then 0 else vaults[v.value].balance
  }

  lemma CostIsCharge(vaults: seq<Vault>, hop: Hop)
    ensures ChargeOf(vaults)(hop) == CostWith(StockOf(vaults))(hop)
  {
    PricedIff(vaults, hop);
    HopChargeIs(vaults, hop);
    hide HopCharge, OwnFits, Charge;
  }

  lemma {:induction false} ChargeByVault(vaults: seq<Vault>, hops: seq<Hop>, ids: seq<Digest>)
    requires RouteCharge(vaults, hops).Success? && Distinct(ids) && LeavesAmong(hops, ids)
    ensures RouteCharge(vaults, hops).value == Total(ids, PartsWith(hops, StockOf(vaults)))
  {
    PricedParts(vaults, hops);
    RoutePricedIff(vaults, hops);
    hide RouteCharge;
    forall i | 0 <= i < |hops|
      ensures ChargeOf(vaults)(hops[i]) == CostWith(StockOf(vaults))(hops[i])
    {
      CostIsCharge(vaults, hops[i]);
    }
    SumEqual(hops, hops, ChargeOf(vaults), CostWith(StockOf(vaults)));
    CostByVault(hops, ids, StockOf(vaults));
  }

  /** Where both are priced, the difference is the sum of the rises. */
  lemma {:induction false} RiseByVault(vaults: seq<Vault>, hops: seq<Hop>)
    requires RouteCharge(vaults, hops).Success? && RouteCharge(vaults, Merged(hops)).Success?
    ensures RouteCharge(vaults, Merged(hops)).value - RouteCharge(vaults, hops).value
         == Total(Sources(hops), RisesWith(hops, StockOf(vaults)))
  {
    SourcesKnown(hops);
    MergedLeavesAmong(hops);
    ChargeByVault(vaults, hops, Sources(hops));
    ChargeByVault(vaults, Merged(hops), Sources(hops));
    hide RouteCharge, StockOf, Sources, Merged;
    TotalAdds(Sources(hops), RisesWith(hops, StockOf(vaults)), PartsWith(hops, StockOf(vaults)),
              PartsWith(Merged(hops), StockOf(vaults)));
  }

  /** The vaults a route leaves, at given balances. */
  function VaultsWith(ids: seq<Digest>, stock: Digest -> Amount): (vaults: seq<Vault>)
    ensures |vaults| == |ids|
    ensures forall i | 0 <= i < |ids| :: vaults[i].active && vaults[i].id == ids[i]
                                         && vaults[i].balance == stock(ids[i])
  {
    seq(|ids|, i requires 0 <= i < |ids| => Vault(ids[i], ZERO_DIGEST, stock(ids[i]), 0, 0, true))
  }

  lemma {:induction false} StockIsGiven(ids: seq<Digest>, stock: Digest -> Amount, id: Digest)
    requires id in ids
    ensures StockOf(VaultsWith(ids, stock))(id) == stock(id)
  {
    var vaults := VaultsWith(ids, stock);
    var i :| 0 <= i < |ids| && ids[i] == id;
    assert vaults[i].active && vaults[i].id == id;
  }

  /** Vaults that hold at least what is needed price the route. */
  lemma {:induction false} StockPrices(hops: seq<Hop>, stock: Digest -> Amount)
    requires SomewherePriced(hops) && forall id | id in Sources(hops) :: Need(hops, id) <= stock(id)
    ensures RouteCharge(VaultsWith(Sources(hops), stock), hops).Success?
  {
    var vaults := VaultsWith(Sources(hops), stock);
    SourcesKnown(hops);
    RoutePricedIff(vaults, hops);
    hide Sources, VaultsWith;
    forall i | 0 <= i < |hops|
      ensures HopCharge(vaults, hops[i]).Success?
    {
      assert OwnFits(hops[i]) && hops[i].fromVault in Sources(hops);
      NeedCovers(hops, i);
      StockIsGiven(Sources(hops), stock, hops[i].fromVault);
      PricedIff(vaults, hops[i]);
    }
  }

  // ---------- The exact condition ----------

  /** The compacted form can be priced wherever the route can, and the worst rises of the vaults it leaves, taken one by
      one, add up to nothing. */
  predicate SafeEverywhere(hops: seq<Hop>) {
    AllCoverable(hops, Runs(hops)) && Total(Sources(hops), WorstRise(hops)) <= 0
  }

  lemma {:induction false} WorstShows(hops: seq<Hop>)
    requires SomewherePriced(hops) && NeverDearer(hops)
    ensures Total(Sources(hops), WorstRise(hops)) <= 0
  {
    var ids, stock := Sources(hops), WorstStock(hops);
    var vaults := VaultsWith(ids, stock);
    StockPrices(hops, stock);
    RiseByVault(vaults, hops);
    forall id | id in ids
      ensures WorstRise(hops)(id) == RisesWith(hops, StockOf(vaults))(id)
    {
      StockIsGiven(ids, stock, id);
    }
    hide RouteCharge, Rise, Sources, VaultsWith, StockOf;
    TotalMonotone(ids, WorstRise(hops), RisesWith(hops, StockOf(vaults)));
  }

  lemma {:induction false} NoBalanceWorse(vaults: seq<Vault>, hops: seq<Hop>, i: nat)
    requires Chargeable(vaults, hops) && i < |hops|
    ensures var id := hops[i].fromVault; RisesWith(hops, StockOf(vaults))(id) <= WorstRise(hops)(id)
  {
    var id := hops[i].fromVault;
    StockIsSource(vaults, hops[i]);
    WorstUnfolds(hops, StockOf(vaults), id);
    hide *;
    PricedHoldsNeed(vaults, hops, i);
    WorstIsWorst(hops, id, Need(hops, id), StockOf(vaults)(id));
  }

  lemma StockIsSource(vaults: seq<Vault>, hop: Hop)
    ensures StockOf(vaults)(hop.fromVault) == SourceBalance(vaults, hop)
  {
  }

  lemma WorstUnfolds(hops: seq<Hop>, stock: Digest -> Amount, id: Digest)
    ensures WorstRise(hops)(id) == Rise(hops, id, WorstBalance(hops, id, Need(hops, id)))
    ensures RisesWith(hops, stock)(id) == Rise(hops, id, stock(id))
  {
    hide Rise, WorstBalance, Need;
    assert WorstStock(hops)(id) == WorstBalance(hops, id, Need(hops, id));
  }

  lemma {:induction false} NoVaultsWorse(vaults: seq<Vault>, hops: seq<Hop>)
    requires RouteCharge(vaults, hops).Success? && RouteCharge(vaults, Merged(hops)).Success?
    ensures RouteCharge(vaults, Merged(hops)).value - RouteCharge(vaults, hops).value
         <= Total(Sources(hops), WorstRise(hops))
  {
    hide *;
    RiseByVault(vaults, hops);
    PricedParts(vaults, hops);
    forall id | id in Sources(hops)
      ensures RisesWith(hops, StockOf(vaults))(id) <= WorstRise(hops)(id)
    {
      var i := SourceUsed(hops, id);
      NoBalanceWorse(vaults, hops, i);
    }
    TotalMonotone(Sources(hops), RisesWith(hops, StockOf(vaults)), WorstRise(hops));
  }

  /** For every route: compaction raises its premium at no vaults that price it, if and only if no vaults price it or it
      is safe everywhere. */
  lemma {:induction false} NeverDearerIff(hops: seq<Hop>)
    ensures NeverDearer(hops) <==> (SomewherePriced(hops) ==> SafeEverywhere(hops))
  {
    hide RouteCharge, SomewherePriced, AllCoverable, Sources, WorstRise, Total, Merged, Runs;
    NeverRefusedIff(hops);
    if NeverDearer(hops) && SomewherePriced(hops) {
      NeverDearerNeverRefused(hops);
      WorstShows(hops);
    }
    if SomewherePriced(hops) ==> SafeEverywhere(hops) {
      forall vaults | RouteCharge(vaults, hops).Success?
        ensures RouteCharge(vaults, Merged(hops)).Success?
        ensures RouteCharge(vaults, Merged(hops)).value <= RouteCharge(vaults, hops).value
      {
        PricedFits(vaults, hops);
        NoVaultsWorse(vaults, hops);
      }
    }
  }

  // ---------- Where the worst balances are ----------

  /** The largest balance of which this amount is u basis points. */
  function BreakAt(amount: Amount, u: nat): nat
    requires 0 < u
  {
    Floor(amount * BPS, u)
  }

  predicate AtBreak(hops: seq<Hop>, balance: Amount) {
    || balance == U64_MAX
    || exists i, u: nat | 0 <= i < |hops| && 0 < u <= BPS :: balance == BreakAt(hops[i].amountHint, u)
  }

  /** The largest balance of which an amount is as large a share as it is of this one. */
  function NextBreak(amount: Amount, balance: Amount): (b: Amount)
    requires 0 < balance
    ensures balance <= b
  {
    var u := Floor(amount * BPS, balance);
    if u == 0 then U64_MAX
    else
      FloorAtLeast(amount * BPS, u, balance);
      Min(U64_MAX, BreakAt(amount, u))
  }

  lemma {:induction false} NextIsBreak(hops: seq<Hop>, i: nat, balance: Amount)
    requires i < |hops| && 0 < balance && hops[i].amountHint <= balance
    ensures AtBreak(hops, NextBreak(hops[i].amountHint, balance))
  {
    var amount := hops[i].amountHint;
    var u := Floor(amount * BPS, balance);
    if u > BPS {
      MulMonotone(BPS + 1, u, balance);
      MulMonotone(amount, balance, BPS);
      assert false;
    }
  }

  lemma {:induction false} SameShare(amount: Amount, balance: Amount, b: Amount)
    requires 0 < balance <= b <= NextBreak(amount, balance)
    ensures Floor(amount * BPS, b) == Floor(amount * BPS, balance)
  {
    var n, u := amount * BPS, Floor(amount * BPS, balance);
    FloorAntitone(n, balance, b);
    if u > 0 {
      MulMonotone(b, BreakAt(amount, u), u);
      FloorAtLeast(n, b, u);
    }
  }

  /** The first break at or behind a balance, for the hops that leave this vault. */
  function BreakOf(hops: seq<Hop>, vault: Digest, balance: Amount): (b: Amount)
    requires 0 < balance
    ensures balance <= b
  {
    if |hops| == 0 then U64_MAX
    else
      var rest := BreakOf(hops[..|hops| - 1], vault, balance);
      if Last(hops).fromVault == vault then Min(rest, NextBreak(Last(hops).amountHint, balance)) else rest
  }

  predicate Covers(hops: seq<Hop>, vault: Digest, balance: Amount) {
    forall i | 0 <= i < |hops| && hops[i].fromVault == vault :: hops[i].amountHint <= balance
  }

  lemma SameCost(hop: Hop, vault: Digest, balance: Amount, b: Amount)
    requires 0 < balance <= b
    requires hop.fromVault == vault ==> hop.amountHint <= balance && b <= NextBreak(hop.amountHint, balance)
    ensures CostAt(vault, b)(hop) == CostAt(vault, balance)(hop)
  {
    if hop.fromVault == vault {
      SameShare(hop.amountHint, balance, b);
    }
    hide NextBreak, OwnFits;
  }

  lemma {:induction false} SameCosts(hops: seq<Hop>, vault: Digest, balance: Amount, b: Amount)
    requires 0 < balance <= b <= BreakOf(hops, vault, balance) && Covers(hops, vault, balance)
    ensures Sum(hops, CostAt(vault, b)) == Sum(hops, CostAt(vault, balance))
  {
    if |hops| > 0 {
      var n := |hops| - 1;
      hide NextBreak, CostAt;
      SameCosts(hops[..n], vault, balance, b);
      SameCost(hops[n], vault, balance, b);
    }
  }

  predicate Carries(hops: seq<Hop>, amount: Amount) {
    exists j :: 0 <= j < |hops| && hops[j].amountHint == amount
  }

  predicate AmountsAmong(part: seq<Hop>, hops: seq<Hop>) {
    forall i {:trigger part[i]} | 0 <= i < |part| :: Carries(hops, part[i].amountHint)
  }

  /** The hops of the compacted route carry amounts of the route's own hops. */
  lemma {:induction false} MergedAmounts(hops: seq<Hop>)
    ensures AmountsAmong(Merged(hops), hops)
  {
    CutOf(hops);
    hide Runs, Flatten;
    forall i | 0 <= i < |Merged(hops)|
      ensures Carries(hops, Merged(hops)[i].amountHint)
    {
      var run := Runs(hops)[i];
      assert Merged(hops)[i] == Collapse(run);
      var j := HopOfRun(Runs(hops), i, |run| - 1);
      assert hops[j].amountHint == Merged(hops)[i].amountHint;
    }
  }

  lemma {:induction false} BreakIsBreak(hops: seq<Hop>, part: seq<Hop>, vault: Digest, balance: Amount)
    requires 0 < balance && Covers(part, vault, balance) && AmountsAmong(part, hops)
    ensures AtBreak(hops, BreakOf(part, vault, balance))
  {
    if |part| > 0 {
      var n := |part| - 1;
      assert forall i | 0 <= i < n :: part[..n][i] == part[i];
      hide AtBreak, NextBreak;
      BreakIsBreak(hops, part[..n], vault, balance);
      if part[n].fromVault == vault {
        assert Carries(hops, part[n].amountHint);
        var j :| 0 <= j < |hops| && hops[j].amountHint == part[n].amountHint;
        NextIsBreak(hops, j, balance);
      }
    }
  }

  lemma {:induction false} NeedCoversAll(hops: seq<Hop>, vault: Digest)
    requires AllCoverable(hops, Runs(hops))
    ensures Covers(hops, vault, Need(hops, vault)) && Covers(Merged(hops), vault, Need(hops, vault))
  {
    hide Need, Runs;
    forall i | 0 <= i < |hops| && hops[i].fromVault == vault
      ensures hops[i].amountHint <= Need(hops, vault)
    {
      NeedCovers(hops, i);
    }
    CutOf(hops);
    forall i | 0 <= i < |Merged(hops)| && Merged(hops)[i].fromVault == vault
      ensures Merged(hops)[i].amountHint <= Need(hops, vault)
    {
      assert Coverable(hops, Runs(hops)[i]) && Merged(hops)[i] == Collapse(Runs(hops)[i]);
    }
  }

  /** The worst balance of a vault need only be looked for among the breaks, ten thousand for each hop. */
  lemma {:induction false} WorstAtBreak(hops: seq<Hop>, vault: Digest) returns (b: Amount)
    requires AllCoverable(hops, Runs(hops))
    ensures Need(hops, vault) <= b && AtBreak(hops, b) && Rise(hops, vault, b) == WorstRise(hops)(vault)
  {
    hide *;
    WorstUnfolds(hops, WorstStock(hops), vault);
    var w := WorstBalance(hops, vault, Need(hops, vault));
    NeedCoversAll(hops, vault);
    MoreCovers(hops, vault, Need(hops, vault), w);
    MoreCovers(Merged(hops), vault, Need(hops, vault), w);
    OwnAmounts(hops);
    MergedAmounts(hops);
    BreakIsBreak(hops, hops, vault, w);
    BreakIsBreak(hops, Merged(hops), vault, w);
    var x, y := BreakOf(hops, vault, w), BreakOf(Merged(hops), vault, w);
    b := if x < y then x else y;
    SameCosts(hops, vault, w, b);
    SameCosts(Merged(hops), vault, w, b);
    RiseUnfolds(hops, vault, b);
    RiseUnfolds(hops, vault, w);
  }

  lemma MoreCovers(hops: seq<Hop>, vault: Digest, balance: Amount, more: Amount)
    requires Covers(hops, vault, balance) && balance <= more
    ensures Covers(hops, vault, more)
  {
  }

  lemma OwnAmounts(hops: seq<Hop>)
    ensures AmountsAmong(hops, hops)
  {
  }

  lemma RiseUnfolds(hops: seq<Hop>, vault: Digest, balance: Amount)
    ensures Rise(hops, vault, balance) == Sum(Merged(hops), CostAt(vault, balance)) - Sum(hops, CostAt(vault, balance))
  {
  }

  // ---------- One pair of hops ----------

  lemma {:induction false} PairOfOneSource(first: Hop, second: Hop)
    requires Compatible(first, second) && first.fromVault == first.toVault
    ensures Sources([first, second]) == [first.fromVault]
    ensures AllCoverable([first, second], Runs([first, second])) <==> second.amountHint * first.weightBps <= U64_MAX
  {
    var hops := [first, second];
    assert hops[..1] == [first] && [first][..0] == [];
    assert Sources([first]) == [first.fromVault];
    PairIsRun(first, second);
    NeedCovers(hops, 1);
    var run := Runs(hops)[0];
    hide Runs, Need;
    assert AllCoverable(hops, Runs(hops)) <==> Coverable(hops, run);
  }

  /** For every pair of mergeable hops: out of different vaults the condition is one on amounts and weight; back into
      the first vault, where both are priced at the same balance, it is on the worst balance of that vault. */
  lemma {:induction false} PairPremiumIff(first: Hop, second: Hop)
    requires Compatible(first, second)
    ensures NeverDearer([first, second])
       <==> (OwnFits(first) && OwnFits(second) ==>
               if first.fromVault != first.toVault then
                 || second.amountHint <= first.amountHint
                 || (first.amountHint == 0 && second.amountHint == 1 && first.weightBps < BPS)
               else
                 && second.amountHint * first.weightBps <= U64_MAX
                 && WorstRise([first, second])(first.fromVault) <= 0)
  {
    var hops := [first, second];
    if first.fromVault != first.toVault {
      PairApartIff(first, second);
    } else {
      assert SomewherePriced(hops) <==> OwnFits(first) && OwnFits(second) by {
        assert hops[0] == first && hops[1] == second;
      }
      NeverDearerIff(hops);
      PairOfOneSource(first, second);
      TotalOfOne(first.fromVault, WorstRise(hops));
    }
  }

  lemma TotalOfOne(id: Digest, f: Digest -> int)
    ensures Total([id], f) == f(id)
  {
    assert [id][..0] == [];
  }
}
