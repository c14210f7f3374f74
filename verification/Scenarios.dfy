/** Figures of two of the repository's own scenarios: the recovery settlement and the risk portfolio (src/runtime.c). */
module Scenarios {
  import opened Amounts
  import opened Digests
  import opened Sums
  import opened Routes
  import opened LedgerTypes
  import opened Exposure
  import opened Prices
  import opened Risk
  import opened RiskFigures
  import opened Verdicts

  // ---------- The recovery settlement ----------

  /** The merged hop of the scenario, out of a vault that holds five times its amount. */
  predicate ScenarioHop(vaults: seq<Vault>, hop: Hop) {
    && hop.amountHint == 100000 && hop.weightBps == 3000 && VaultAt(vaults, hop.fromVault).Some?
    && vaults[VaultAt(vaults, hop.fromVault).value].balance == 500000
  }

  lemma RecoveryRates()
    ensures Charge(100000, 3000, 500000) == 6000
    ensures Fee(100000, 25) == 250 && Fee(100000, 20) == 200 && Fee(100000, 2500) == 25000
  {
  }

  lemma RecoveryToll(vaults: seq<Vault>, hop: Hop)
    requires ScenarioHop(vaults, hop)
    ensures AllTollable(vaults, [hop]) && Sum([hop], Toll(vaults)) == 6000
  {
    OneToll(vaults, hop);
    hide *;
    SumOfOne(hop, Toll(vaults));
    OneTollable(vaults, hop);
  }

  lemma OneTollable(vaults: seq<Vault>, hop: Hop)
    requires Tollable(vaults, hop)
    ensures AllTollable(vaults, [hop])
  {
    hide Tollable;
  }

  lemma SumOfOne<T>(a: T, f: T -> nat)
    ensures Sum([a], f) == f(a)
  {
    assert [a] == [] + [a];
    SumAppend([], a, f);
  }

  lemma OneToll(vaults: seq<Vault>, hop: Hop)
    requires ScenarioHop(vaults, hop)
    ensures Tollable(vaults, hop) && Toll(vaults)(hop) == 6000
  {
    RecoveryRates();
    hide Charge, VaultAt;
  }

  /** One hundred thousand units over a recovery lane at rates 25 and 20: the premium is 6000, and up to 93550 can be
      asked for as the net amount. */
  lemma RecoveryFigures(s: State, lane: Lane, hop: Hop, minNet: Amount)
    requires lane.laneClass == Recovery && lane.operatorFeeBps == 25 && lane.reserveBps == 20
    requires ScenarioHop(s.vaults, hop)
    ensures OperatorFee(lane, 100000) == 250 && ReserveFee(s, lane, 100000, [hop]) == 6200
    ensures Affordable(s, lane, 100000, 2500, minNet, [hop]) <==> minNet <= 93550
  {
    hide Charge, Fee, Sum, Toll, AllTollable, ScenarioHop;
    RecoveryRates();
    RecoveryToll(s.vaults, hop);
  }

  // ---------- The risk portfolio ----------

  /** Four positions on lanes a to d. */
  function Direct(a: Digest): Position {
    Position(a, "direct-south", 900000, 300000, 290000, 2000, 120, 6500, true)
  }

  function Priority(b: Digest): Position {
    Position(b, "priority-relay", 850000, 280000, 270000, 1800, 140, 6000, true)
  }

  function Rebalance(c: Digest): Position {
    Position(c, "rebalance-zenith", 700000, 220000, 215000, 1500, 180, 5500, true)
  }

  function Archive(d: Digest): Position {
    Position(d, "archive-buffer", 620000, 200000, 195000, 1200, 100, 7000, true)
  }

  function Four(a: Digest, b: Digest, c: Digest, d: Digest): Portfolio {
    [Direct(a), Priority(b), Rebalance(c), Archive(d)]
  }

  lemma SumOfFour<T>(a: T, b: T, c: T, d: T, f: T -> nat)
    ensures Sum([a, b, c, d], f) == f(a) + f(b) + f(c) + f(d)
  {
    assert [a, b, c, d] == ([] + [a]) + [b] + [c] + [d];
    SumAppend([], a, f);
    SumAppend([a], b, f);
    SumAppend([a, b], c, f);
    SumAppend([a, b, c], d, f);
    assert [] + [a] == [a] && [a] + [b] == [a, b] && [a, b] + [c] == [a, b, c];
  }

  lemma PendingTotal(a: Digest, b: Digest, c: Digest, d: Digest)
    ensures Sum(Four(a, b, c, d), EachPending()) == 1000000
  {
    hide Sum;
    SumOfFour(Direct(a), Priority(b), Rebalance(c), Archive(d), EachPending());
  }

  lemma LossTotal(a: Digest, b: Digest, c: Digest, d: Digest)
    ensures Sum(Four(a, b, c, d), EachLoss()) == 5210
  {
    hide Sum;
    SumOfFour(Direct(a), Priority(b), Rebalance(c), Archive(d), EachLoss());
  }

  lemma FeeTotal(a: Digest, b: Digest, c: Digest, d: Digest)
    ensures Sum(Four(a, b, c, d), EachFee()) == 6500
  {
    hide Sum;
    SumOfFour(Direct(a), Priority(b), Rebalance(c), Archive(d), EachFee());
  }

  lemma OperatingStress(a: Digest, b: Digest, c: Digest, d: Digest)
    ensures Sum(Four(a, b, c, d), EachStress(OPERATING)) == 150000
  {
    hide Sum;
    SumOfFour(Direct(a), Priority(b), Rebalance(c), Archive(d), EachStress(OPERATING));
  }

  lemma OperatingGap(a: Digest, b: Digest, c: Digest, d: Digest)
    ensures Sum(Four(a, b, c, d), EachGap(OPERATING)) == 146400
  {
    hide Sum;
    SumOfFour(Direct(a), Priority(b), Rebalance(c), Archive(d), EachGap(OPERATING));
  }

  /** The add-on of a position, from its two roundings. */
  lemma ConcentratedIs(policy: Policy, p: Position, weight: nat, inner: nat, outer: nat)
    requires Weight(1000000, p) == weight
    requires var excess := Max(0, weight - policy.concentrationThresholdBps);
             inner * BPS <= p.pending * excess < (inner + 1) * BPS
    requires outer * BPS <= inner * policy.concentrationChargeBps < (outer + 1) * BPS
    ensures Concentrated(policy, 1000000, p) == outer
  {
    hide Weight;
    FloorUnique(p.pending * Excess(policy, 1000000, p), BPS, inner);
    FloorUnique(inner * policy.concentrationChargeBps, BPS, outer);
  }

  lemma OperatingAddOn(a: Digest, b: Digest, c: Digest, d: Digest)
    ensures Sum(Four(a, b, c, d), EachAddOn(OPERATING, 1000000)) == 4212
  {
    WeightsAre(a, b, c, d);
    ConcentratedIs(OPERATING, Direct(a), 3000, 15000, 2700);
    ConcentratedIs(OPERATING, Priority(b), 2800, 8400, 1512);
    ConcentratedIs(OPERATING, Rebalance(c), 2200, 0, 0);
    ConcentratedIs(OPERATING, Archive(d), 2000, 0, 0);
    hide Sum, Concentrated, Weight;
    SumOfFour(Direct(a), Priority(b), Rebalance(c), Archive(d), EachAddOn(OPERATING, 1000000));
  }

  lemma OperatingNeeds(a: Digest, b: Digest, c: Digest, d: Digest)
    ensures Needed(OPERATING, Four(a, b, c, d)) == 307112 && Target(OPERATING, Four(a, b, c, d)) == 383890
  {
    PendingTotal(a, b, c, d);
    LossTotal(a, b, c, d);
    FeeTotal(a, b, c, d);
    OperatingStress(a, b, c, d);
    OperatingGap(a, b, c, d);
    OperatingAddOn(a, b, c, d);
    hide Sum, Four, EachPending, EachLoss, EachFee, EachStress, EachGap, EachAddOn;
  }

  lemma SevereStress(a: Digest, b: Digest, c: Digest, d: Digest)
    ensures Sum(Four(a, b, c, d), EachStress(SEVERE)) == 420000
  {
    hide Sum;
    SumOfFour(Direct(a), Priority(b), Rebalance(c), Archive(d), EachStress(SEVERE));
  }

  lemma SevereGap(a: Digest, b: Digest, c: Digest, d: Digest)
    ensures Sum(Four(a, b, c, d), EachGap(SEVERE)) == 369500
  {
    hide Sum;
    SumOfFour(Direct(a), Priority(b), Rebalance(c), Archive(d), EachGap(SEVERE));
  }

  lemma SevereAddOn(a: Digest, b: Digest, c: Digest, d: Digest)
    ensures Sum(Four(a, b, c, d), EachAddOn(SEVERE, 1000000)) == 18176
  {
    WeightsAre(a, b, c, d);
    ConcentratedIs(SEVERE, Direct(a), 3000, 30000, 9600);
    ConcentratedIs(SEVERE, Priority(b), 2800, 22400, 7168);
    ConcentratedIs(SEVERE, Rebalance(c), 2200, 4400, 1408);
    ConcentratedIs(SEVERE, Archive(d), 2000, 0, 0);
    hide Sum, Concentrated, Weight;
    SumOfFour(Direct(a), Priority(b), Rebalance(c), Archive(d), EachAddOn(SEVERE, 1000000));
  }

  lemma SevereNeeds(a: Digest, b: Digest, c: Digest, d: Digest)
    ensures Needed(SEVERE, Four(a, b, c, d)) == 814176 && Target(SEVERE, Four(a, b, c, d)) == 1302681
  {
    PendingTotal(a, b, c, d);
    LossTotal(a, b, c, d);
    FeeTotal(a, b, c, d);
    SevereStress(a, b, c, d);
    SevereGap(a, b, c, d);
    SevereAddOn(a, b, c, d);
    hide Sum, Four, EachPending, EachLoss, EachFee, EachStress, EachGap, EachAddOn;
  }

  lemma GrossTotal(a: Digest, b: Digest, c: Digest, d: Digest)
    ensures Sum(Four(a, b, c, d), EachGross()) == 3070000
  {
    hide Sum;
    SumOfFour(Direct(a), Priority(b), Rebalance(c), Archive(d), EachGross());
  }

  lemma LiquidityTotal(a: Digest, b: Digest, c: Digest, d: Digest)
    ensures Sum(Four(a, b, c, d), EachLiquidity()) == 970000
  {
    hide Sum;
    SumOfFour(Direct(a), Priority(b), Rebalance(c), Archive(d), EachLiquidity());
  }

  lemma SquareTotal(a: Digest, b: Digest, c: Digest, d: Digest)
    ensures Sum(Four(a, b, c, d), EachSquare(1000000)) == 2568
  {
    WeightsAre(a, b, c, d);
    FloorUnique(3000 * 3000, BPS, 900);
    FloorUnique(2800 * 2800, BPS, 784);
    FloorUnique(2200 * 2200, BPS, 484);
    FloorUnique(2000 * 2000, BPS, 400);
    hide Sum, Weight, Floor;
    SumOfFour(Direct(a), Priority(b), Rebalance(c), Archive(d), EachSquare(1000000));
  }

  lemma LargestWeight(a: Digest, b: Digest, c: Digest, d: Digest)
    ensures Largest(Four(a, b, c, d), EachWeight(1000000)) == 3000
  {
    var f, ps := EachWeight(1000000), Four(a, b, c, d);
    WeightsAre(a, b, c, d);
    hide Weight;
    assert ps[..3] == [Direct(a), Priority(b), Rebalance(c)] && ps[..3][..2] == [Direct(a), Priority(b)];
    assert ps[..3][..2][..1] == [Direct(a)] && ps[..3][..2][..1][..0] == [];
    assert Largest(ps[..3][..2][..1], f) == 3000;
    assert Largest(ps[..3][..2], f) == 3000;
    assert Largest(ps[..3], f) == 3000;
  }

  lemma WeightsAre(a: Digest, b: Digest, c: Digest, d: Digest)
    ensures Weight(1000000, Direct(a)) == 3000 && Weight(1000000, Priority(b)) == 2800
    ensures Weight(1000000, Rebalance(c)) == 2200 && Weight(1000000, Archive(d)) == 2000
  {
    FloorUnique(300000 * BPS, 1000000, 3000);
    FloorUnique(280000 * BPS, 1000000, 2800);
    FloorUnique(220000 * BPS, 1000000, 2200);
    FloorUnique(200000 * BPS, 1000000, 2000);
    hide Floor;
  }

  lemma {:induction false} ProductsAreSmall(policy: Policy, a: Digest, b: Digest, c: Digest, d: Digest)
    requires policy == OPERATING || policy == SEVERE
    ensures AllProductsFit(policy, Four(a, b, c, d))
    ensures forall p, total: nat | p in Four(a, b, c, d) :: p.pending * Excess(policy, total, p) <= U64_MAX
  {
    var ps := Four(a, b, c, d);
    forall p, total: nat | p in ps
      ensures p.pending * Excess(policy, total, p) <= U64_MAX
    {
      MulMonotone(Excess(policy, total, p), BPS, p.pending);
    }
  }

  lemma {:induction false} ScenarioPasses(policy: Policy, a: Digest, b: Digest, c: Digest, d: Digest)
    requires policy == OPERATING || policy == SEVERE
    ensures AllPass(AnalysisChecks(policy, Four(a, b, c, d)))
  {
    var ps := Four(a, b, c, d);
    PendingTotal(a, b, c, d);
    LossTotal(a, b, c, d);
    FeeTotal(a, b, c, d);
    GrossTotal(a, b, c, d);
    LiquidityTotal(a, b, c, d);
    OperatingStress(a, b, c, d);
    OperatingGap(a, b, c, d);
    OperatingAddOn(a, b, c, d);
    SevereStress(a, b, c, d);
    SevereGap(a, b, c, d);
    SevereAddOn(a, b, c, d);
    OperatingNeeds(a, b, c, d);
    SevereNeeds(a, b, c, d);
    ProductsAreSmall(policy, a, b, c, d);
    assert SomeActive(ps) by {
      assert ps[0].active;
    }
    hide Sum, Four, EachPending, EachLoss, EachFee, EachStress, EachGap, EachAddOn, EachGross, EachLiquidity, Needed,
      AllProductsFit, SomeActive, Excess;
  }

  /** The scenario's expectations: with 600000 units of capital the operating policy approves, and the severe one, which
      asks for 1302681, puts the portfolio on hold. */
  lemma {:induction false} ScenarioReports(a: Digest, b: Digest, c: Digest, d: Digest)
    requires a != b && a != c && a != d && b != c && b != d && c != d
    ensures var ps := Four(a, b, c, d);
            var operating, severe := Analyze(OPERATING, ps, 600000), Analyze(SEVERE, ps, 600000);
            && operating.Success? && severe.Success?
            && operating.value.totals.pending == 1000000 && operating.value.totals.active == 4
            && operating.value.required == 307112 && operating.value.target == 383890
            && operating.value.surplus == 216110 && operating.value.shortfall == 0
            && operating.value.decision == Approve
            && severe.value.required == 814176 && severe.value.target == 1302681
            && severe.value.shortfall == 702681 && severe.value.decision == Hold
  {
    var ps := Four(a, b, c, d);
    assert PortfolioOk(ps);
    ScenarioPasses(OPERATING, a, b, c, d);
    ScenarioPasses(SEVERE, a, b, c, d);
    AnalysisIs(OPERATING, ps, 600000);
    AnalysisIs(SEVERE, ps, 600000);
    OperatingNeeds(a, b, c, d);
    SevereNeeds(a, b, c, d);
    PendingTotal(a, b, c, d);
    SquareTotal(a, b, c, d);
    LargestWeight(a, b, c, d);
    OperatingCoverage();
    assert Sum(ps, One()) == 4 by {
      SumOfFour(Direct(a), Priority(b), Rebalance(c), Archive(d), One());
    }
    hide Sum, Four, Largest, Needed, Target, Covered, Analyze, AnalysisChecks, AllPass, PortfolioOk, EachSquare,
      EachWeight, EachPending, One, EachAddOn;
  }

  lemma OperatingCoverage()
    ensures Covered(600000, 307112) == 19536
  {
  }
}
