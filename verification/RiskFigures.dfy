/** The risk report as figures of the positions: what every entry is, and exactly when there is a report. */
module RiskFigures {
  import opened Amounts
  import opened Sums
  import opened Exposure
  import opened Risk
  import opened RiskProofs
  import opened Verdicts

  // ---------- One position ----------

  /** The floored share of an amount at a rate. */
  function Part(amount: nat, bps: nat): nat {
    MulMonotone(0, amount, bps);
    Floor(amount * bps, BPS)
  }

  /** A rate short of the whole. */
  function Rest(bps: U32): nat {
    if bps <= BPS then BPS - bps else 0
  }

  /** What is likely not paid, and not recovered. */
  function Loss(p: Position): nat {
    Part(Part(p.pending, p.defaultProbabilityBps), Rest(p.recoveryBps))
  }

  function Stress(policy: Policy, p: Position): nat {
    Part(p.pending, policy.stressDefaultBps)
  }

  /** What is pending beyond the liquidity that a haircut leaves. */
  function Gap(policy: Policy, p: Position): nat {
    Max(0, p.pending - Part(p.liquidity, Rest(policy.liquidityHaircutBps)))
  }

  /** A position's share of all that is pending, in whole basis points. */
  function Weight(total: nat, p: Position): nat {
    if total == 0 then 0
    else
      MulMonotone(0, p.pending, BPS);
      Min(BPS, Floor(p.pending * BPS, total))
  }

  function Excess(policy: Policy, total: nat, p: Position): nat {
    Max(0, Weight(total, p) - policy.concentrationThresholdBps)
  }

  function Concentrated(policy: Policy, total: nat, p: Position): nat {
    Part(Part(p.pending, Excess(policy, total, p)), policy.concentrationChargeBps)
  }

  lemma {:induction false} PartBelow(amount: nat, bps: nat)
    requires bps <= BPS
    ensures Part(amount, bps) <= amount && Part(amount, bps) * BPS <= amount * bps
  {
    MulMonotone(0, amount, bps);
    MulMonotone(bps, BPS, amount);
    FloorMonotone(amount * bps, amount * BPS, BPS);
    FloorUnique(amount * BPS, BPS, amount);
  }

  lemma {:induction false} PartMonotone(a: nat, b: nat, x: nat, y: nat)
    requires a <= b && x <= y
    ensures Part(a, x) <= Part(b, y)
  {
    MulMonotone(0, a, x);
    MulMonotone(a, b, x);
    MulMonotone(x, y, b);
    FloorMonotone(a * x, b * y, BPS);
  }

  /** A second share of a share fits whenever the first product does. */
  lemma {:induction false} SecondFits(amount: Amount, x: nat, y: nat)
    requires y <= BPS && amount * x <= U64_MAX
    ensures Part(amount, x) * y <= U64_MAX
  {
    MulMonotone(y, BPS, Part(amount, x));
    MulMonotone(0, amount, x);
  }

  /** The expected loss of a position is its pending amount at the default rate, at the rate not recovered; it can be
      computed whenever the first product fits in 64 bits. */
  lemma {:induction false} ExpectedLossIs(p: Position)
    requires p.recoveryBps <= BPS && p.defaultProbabilityBps <= BPS
    ensures ExpectedLoss(p).Success? <==> p.pending * p.defaultProbabilityBps <= U64_MAX
    ensures ExpectedLoss(p).Success? ==> ExpectedLoss(p).value == Loss(p)
  {
    if p.pending * p.defaultProbabilityBps <= U64_MAX {
      SecondFits(p.pending, p.defaultProbabilityBps, BPS - p.recoveryBps);
    }
  }

  /** It never exceeds what is pending, never grows with recovery, and is nothing at full recovery. */
  lemma {:induction false} LossBounds(p: Position, q: Position)
    requires p.defaultProbabilityBps <= BPS && p.recoveryBps <= q.recoveryBps <= BPS
    requires q == p.(recoveryBps := q.recoveryBps)
    ensures Loss(q) <= Loss(p) <= p.pending
    ensures q.recoveryBps == BPS ==> Loss(q) == 0
  {
    var likely := Part(p.pending, p.defaultProbabilityBps);
    PartBelow(p.pending, p.defaultProbabilityBps);
    PartBelow(likely, Rest(p.recoveryBps));
    PartMonotone(likely, likely, Rest(q.recoveryBps), Rest(p.recoveryBps));
    if q.recoveryBps == BPS {
      FloorUnique(likely * 0, BPS, 0);
    }
  }

  lemma {:induction false} StressIs(policy: Policy, p: Position)
    requires PolicyOk(policy)
    ensures StressLoss(policy, p).Success? <==> p.pending * policy.stressDefaultBps <= U64_MAX
    ensures StressLoss(policy, p).Success? ==> StressLoss(policy, p).value == Stress(policy, p)
  {
  }

  /** The liquidity gap of a position is what is pending beyond its liquidity after the haircut. */
  lemma {:induction false} GapIs(policy: Policy, p: Position)
    requires PolicyOk(policy)
    ensures LiquidityGap(policy, p).Success? <==> p.liquidity * (BPS - policy.liquidityHaircutBps) <= U64_MAX
    ensures LiquidityGap(policy, p).Success? ==> LiquidityGap(policy, p).value == Gap(policy, p)
  {
    HaircutStays(policy);
  }

  /** It never exceeds what is pending, is at least what is pending beyond the liquidity, never grows with liquidity,
      and is everything pending at a full haircut. */
  lemma {:induction false} GapBounds(policy: Policy, p: Position, more: Amount)
    requires PolicyOk(policy) && p.liquidity <= more
    ensures p.pending - p.liquidity <= Gap(policy, p) <= p.pending
    ensures Gap(policy, p.(liquidity := more)) <= Gap(policy, p)
    ensures policy.liquidityHaircutBps == BPS ==> Gap(policy, p) == p.pending
  {
    var rest := Rest(policy.liquidityHaircutBps);
    PartBelow(p.liquidity, rest);
    PartMonotone(p.liquidity, more, rest, rest);
    if policy.liquidityHaircutBps == BPS {
      FloorUnique(p.liquidity * 0, BPS, 0);
    }
  }

  lemma {:induction false} WeightIs(total: Amount, p: Position)
    ensures Share(total, p) == Weight(total, p)
  {
    if total > 0 {
      MulMonotone(0, p.pending, BPS);
      if p.pending >= total {
        MulMonotone(total, p.pending, BPS);
        FloorAtLeast(p.pending * BPS, total, BPS);
      } else {
        RatioIsFloor(p.pending, total, BPS);
      }
    }
  }

  /** The charge for concentration, which can be computed whenever its first product fits. */
  lemma {:induction false} AddOnIs(policy: Policy, total: Amount, p: Position)
    requires PolicyOk(policy)
    ensures AddOn(policy, total, p).Success? <==> p.pending * Excess(policy, total, p) <= U64_MAX
    ensures AddOn(policy, total, p).Success? ==> AddOn(policy, total, p).value == Concentrated(policy, total, p)
  {
    WeightIs(total, p);
    var excess := Excess(policy, total, p);
    if excess == 0 {
      FloorUnique(p.pending * 0, BPS, 0);
      FloorUnique(0 * policy.concentrationChargeBps, BPS, 0);
    } else if p.pending * excess <= U64_MAX {
      SecondFits(p.pending, excess, policy.concentrationChargeBps);
    }
  }

  // ---------- Putting a portfolio together ----------

  function InsertChecks(ps: seq<Position>, p: Position): seq<Check> {
    [Check(p.name != "" && p.recoveryBps <= BPS && p.defaultProbabilityBps <= BPS, ErrArgument),
     Check(|ps| < MAX_POSITIONS, ErrCapacity),
     Check(forall i | 0 <= i < |ps| :: ps[i].lane != p.lane, ErrDuplicate)]
  }

  /** A position is taken, or answered by its first failing check. */
  lemma InsertAnswer(ps: seq<Position>, p: Position)
    ensures AddStatus(ps, p) == Verdict(InsertChecks(ps, p))
  {
    hide Verdict;
    VerdictOfThree(InsertChecks(ps, p));
  }

  // ---------- The whole portfolio ----------

  function EachGross(): Position -> nat {
    (p: Position) => if p.active then p.gross else 0
  }

  function EachPending(): Position -> nat {
    (p: Position) => if p.active then p.pending else 0
  }

  function EachLiquidity(): Position -> nat {
    (p: Position) => if p.active then p.liquidity else 0
  }

  function EachFee(): Position -> nat {
    (p: Position) => if p.active then p.feeReserve else 0
  }

  function EachLoss(): Position -> nat {
    (p: Position) => if p.active then Loss(p) else 0
  }

  function EachStress(policy: Policy): Position -> nat {
    (p: Position) => if p.active then Stress(policy, p) else 0
  }

  function EachGap(policy: Policy): Position -> nat {
    (p: Position) => if p.active then Gap(policy, p) else 0
  }

  function EachAddOn(policy: Policy, total: nat): Position -> nat {
    (p: Position) => if p.active then Concentrated(policy, total, p) else 0
  }

  function EachWeight(total: nat): Position -> nat {
    (p: Position) => if p.active then Weight(total, p) else 0
  }

  function EachSquare(total: nat): Position -> nat {
    (p: Position) => if p.active then Part(Weight(total, p), Weight(total, p)) else 0
  }

  function One(): Position -> nat {
    (p: Position) => if p.active then 1 else 0
  }

  /** The larger of expected and stressed loss, the gap, the fee reserve and the charge for concentration. */
  function Needed(policy: Policy, ps: seq<Position>): nat {
    Max(Sum(ps, EachLoss()), Sum(ps, EachStress(policy))) + Sum(ps, EachGap(policy)) + Sum(ps, EachFee())
    + Sum(ps, EachAddOn(policy, Sum(ps, EachPending())))
  }

  predicate InRange(policy: Policy) {
    && policy.stressDefaultBps <= 10000 && policy.liquidityHaircutBps <= 10000
    && policy.concentrationThresholdBps <= 10000 && policy.concentrationChargeBps <= 10000
    && 1 <= policy.maximumSingleLaneBps <= 10000 && 1 <= policy.maximumHhiBps <= 10000
    && 10000 <= policy.minimumCoverageBps <= 30000
  }

  /** The three products of the position fit in 64 bits. */
  predicate ProductsFit(policy: Policy, p: Position) {
    && p.pending * p.defaultProbabilityBps <= U64_MAX
    && p.pending * policy.stressDefaultBps <= U64_MAX
    && p.liquidity * Rest(policy.liquidityHaircutBps) <= U64_MAX
  }

  predicate AllProductsFit(policy: Policy, ps: seq<Position>) {
    forall i {:trigger ps[i]} | 0 <= i < |ps| && ps[i].active :: ProductsFit(policy, ps[i])
  }

  predicate TotalsFit(policy: Policy, ps: seq<Position>) {
    && Sum(ps, EachGross()) <= U64_MAX && Sum(ps, EachPending()) <= U64_MAX && Sum(ps, EachLiquidity()) <= U64_MAX
    && Sum(ps, EachLoss()) <= U64_MAX && Sum(ps, EachStress(policy)) <= U64_MAX
    && Sum(ps, EachGap(policy)) <= U64_MAX && Sum(ps, EachFee()) <= U64_MAX
  }

  predicate ConcentrationFits(policy: Policy, ps: seq<Position>) {
    var total := Sum(ps, EachPending());
    && (forall i {:trigger ps[i]} | 0 <= i < |ps|
                                    && ps[i].active :: ps[i].pending * Excess(policy, total, ps[i]) <= U64_MAX)
    && Sum(ps, EachAddOn(policy, total)) <= U64_MAX
  }

  predicate SomeActive(ps: seq<Position>) {
    exists i :: 0 <= i < |ps| && ps[i].active
  }

  function AnalysisChecks(policy: Policy, ps: seq<Position>): seq<Check> {
    [Check(InRange(policy), ErrPolicy),
     Check(AllProductsFit(policy, ps) && TotalsFit(policy, ps), ErrPolicy),
     Check(SomeActive(ps), ErrState),
     Check(ConcentrationFits(policy, ps), ErrPolicy),
     Check(Needed(policy, ps) <= U64_MAX && Needed(policy, ps) * policy.minimumCoverageBps <= U64_MAX, ErrPolicy)]
  }

  function Target(policy: Policy, ps: seq<Position>): nat {
    Part(Needed(policy, ps), policy.minimumCoverageBps)
  }

  /** Capital per requirement in whole basis points, capped at three times. */
  function Covered(available: Amount, required: nat): nat {
    if required == 0 then (if available == 0 then 0 else 30000)
    else
      MulMonotone(0, available, BPS);
      Min(30000, Floor(available * BPS, required))
  }

  /** Every entry of the report. */
  predicate Reports(policy: Policy, ps: seq<Position>, available: Amount, r: Report) {
    var total := Sum(ps, EachPending());
    && r.totals == Totals(Sum(ps, EachGross()), total, Sum(ps, EachLiquidity()), Sum(ps, EachLoss()),
                          Sum(ps, EachStress(policy)), Sum(ps, EachGap(policy)), Sum(ps, EachFee()), Sum(ps, One()))
    && r.lossCharge == Max(Sum(ps, EachLoss()), Sum(ps, EachStress(policy)))
    && r.addOn == Sum(ps, EachAddOn(policy, total))
    && r.required == Needed(policy, ps) && r.target == Target(policy, ps) && r.available == available
    && r.surplus == Max(0, available - Target(policy, ps)) && r.shortfall == Max(0, Target(policy, ps) - available)
    && r.coverage == Covered(available, Needed(policy, ps))
    && r.hhi == Sum(ps, EachSquare(total)) && r.largestShare == Largest(ps, EachWeight(total))
  }

  /** Held when capital is short or one of the two concentration limits is passed; approved when there is a margin to
      all three; left to review in between. */
  predicate DecidesBy(policy: Policy, r: Report) {
    && (r.decision == Hold
        <==> r.available < r.target || policy.maximumSingleLaneBps < r.largestShare || policy.maximumHhiBps < r.hhi)
    && (r.decision == Approve
        <==> && r.target <= r.available && r.largestShare + 500 <= policy.maximumSingleLaneBps
             && r.hhi <= policy.maximumHhiBps && policy.minimumCoverageBps + 1000 <= r.coverage)
  }

  // ---------- Same figures ----------

  lemma {:induction false} SamePosition(policy: Policy, p: Position)
    requires PolicyOk(policy) && p.recoveryBps <= BPS && p.defaultProbabilityBps <= BPS
    ensures Measurable(policy, p) <==> (p.active ==> ProductsFit(policy, p))
    ensures Measurable(policy, p) ==> ExpectedOf()(p) == EachLoss()(p)
    ensures Measurable(policy, p) ==> StressOf(policy)(p) == EachStress(policy)(p)
    ensures Measurable(policy, p) ==> GapOf(policy)(p) == EachGap(policy)(p)
  {
    ExpectedLossIs(p);
    StressIs(policy, p);
    GapIs(policy, p);
    hide Loss, Stress, Gap, ExpectedLoss, StressLoss, LiquidityGap;
  }

  lemma {:induction false} SamePlainSums(ps: seq<Position>)
    ensures Sum(ps, GrossOf()) == Sum(ps, EachGross()) && Sum(ps, PendingOf()) == Sum(ps, EachPending())
    ensures Sum(ps, LiquidityOf()) == Sum(ps, EachLiquidity()) && Sum(ps, FeeOf()) == Sum(ps, EachFee())
    ensures Sum(ps, CountOf()) == Sum(ps, One())
  {
    SumEqual(ps, ps, GrossOf(), EachGross());
    SumEqual(ps, ps, PendingOf(), EachPending());
    SumEqual(ps, ps, LiquidityOf(), EachLiquidity());
    SumEqual(ps, ps, FeeOf(), EachFee());
    SumEqual(ps, ps, CountOf(), One());
  }

  lemma {:induction false} SameFirstPass(policy: Policy, ps: Portfolio)
    requires PolicyOk(policy) && PortfolioOk(ps)
    ensures AllMeasurable(policy, ps) <==> AllProductsFit(policy, ps)
    ensures AllMeasurable(policy, ps) ==>
              && Sum(ps, ExpectedOf()) == Sum(ps, EachLoss())
              && Sum(ps, StressOf(policy)) == Sum(ps, EachStress(policy))
              && Sum(ps, GapOf(policy)) == Sum(ps, EachGap(policy))
  {
    hide Measurable, ProductsFit, ExpectedOf, StressOf, GapOf, EachLoss, EachStress, EachGap, Sum;
    forall i | 0 <= i < |ps|
      ensures Measurable(policy, ps[i]) <==> (ps[i].active ==> ProductsFit(policy, ps[i]))
      ensures Measurable(policy, ps[i]) ==> ExpectedOf()(ps[i]) == EachLoss()(ps[i])
      ensures Measurable(policy, ps[i]) ==> StressOf(policy)(ps[i]) == EachStress(policy)(ps[i])
      ensures Measurable(policy, ps[i]) ==> GapOf(policy)(ps[i]) == EachGap(policy)(ps[i])
    {
      SamePosition(policy, ps[i]);
    }
    if AllMeasurable(policy, ps) {
      SumEqual(ps, ps, ExpectedOf(), EachLoss());
      SumEqual(ps, ps, StressOf(policy), EachStress(policy));
      SumEqual(ps, ps, GapOf(policy), EachGap(policy));
    }
  }

  lemma {:induction false} SameWeight(policy: Policy, total: Amount, p: Position)
    requires PolicyOk(policy)
    ensures Risk.Chargeable(policy, total, p) <==> (p.active ==> p.pending * Excess(policy, total, p) <= U64_MAX)
    ensures Risk.Chargeable(policy, total, p) ==> AddOnOf(policy, total)(p) == EachAddOn(policy, total)(p)
    ensures ShareOf(total)(p) == EachWeight(total)(p) && SquareOf(total)(p) == EachSquare(total)(p)
  {
    AddOnIs(policy, total, p);
    WeightIs(total, p);
    hide AddOn, Concentrated, Excess, Weight, Share;
  }

  lemma {:induction false} LargestEqual(ps: seq<Position>, f: Position -> nat, g: Position -> nat)
    requires forall i | 0 <= i < |ps| :: f(ps[i]) == g(ps[i])
    ensures Largest(ps, f) == Largest(ps, g)
  {
    if |ps| > 0 {
      LargestEqual(ps[..|ps| - 1], f, g);
    }
  }

  lemma {:induction false} SameSecondPass(policy: Policy, total: Amount, ps: Portfolio)
    requires PolicyOk(policy) && total == Sum(ps, EachPending())
    ensures SecondPass(policy, total, ps) <==> ConcentrationFits(policy, ps)
    ensures SecondPass(policy, total, ps) ==> Sum(ps, AddOnOf(policy, total)) == Sum(ps, EachAddOn(policy, total))
    ensures Largest(ps, ShareOf(total)) == Largest(ps, EachWeight(total))
    ensures Sum(ps, SquareOf(total)) == Sum(ps, EachSquare(total))
  {
    hide Risk.Chargeable, Excess, AddOnOf, EachAddOn, ShareOf, SquareOf, EachWeight, EachSquare, Sum, Largest;
    forall i | 0 <= i < |ps|
      ensures Risk.Chargeable(policy, total, ps[i])
         <==> (ps[i].active ==> ps[i].pending * Excess(policy, total, ps[i]) <= U64_MAX)
      ensures Risk.Chargeable(policy, total, ps[i]) ==> AddOnOf(policy, total)(ps[i]) == EachAddOn(policy, total)(ps[i])
      ensures ShareOf(total)(ps[i]) == EachWeight(total)(ps[i]) && SquareOf(total)(ps[i]) == EachSquare(total)(ps[i])
    {
      SameWeight(policy, total, ps[i]);
    }
    LargestEqual(ps, ShareOf(total), EachWeight(total));
    SumEqual(ps, ps, SquareOf(total), EachSquare(total));
    if AllChargeable(policy, total, ps) {
      SumEqual(ps, ps, AddOnOf(policy, total), EachAddOn(policy, total));
    }
  }

  lemma {:induction false} ActiveCounted(ps: seq<Position>)
    ensures Sum(ps, One()) == 0 <==> !SomeActive(ps)
  {
    if i :| 0 <= i < |ps| && ps[i].active {
      SumCovers(ps, i, One());
    } else {
      SumZero(ps, One());
    }
  }

  /** The largest figure is one of them, and none is larger. */
  lemma {:induction false} LargestIs(ps: seq<Position>, f: Position -> nat)
    ensures forall i | 0 <= i < |ps| :: f(ps[i]) <= Largest(ps, f)
    ensures |ps| > 0 ==> exists i | 0 <= i < |ps| :: f(ps[i]) == Largest(ps, f)
  {
    if |ps| > 0 {
      var n := |ps| - 1;
      LargestIs(ps[..n], f);
      forall i | 0 <= i < |ps|
        ensures f(ps[i]) <= Largest(ps, f)
      {
        assert i < n ==> ps[i] == ps[..n][i];
      }
      if Largest(ps, f) == f(ps[n]) {
      } else {
        var i :| 0 <= i < n && f(ps[..n][i]) == Largest(ps[..n], f);
        assert f(ps[i]) == Largest(ps, f);
      }
    }
  }

  // ---------- The report ----------

  lemma RangesAgree(policy: Policy)
    ensures PolicyOk(policy) <==> InRange(policy)
  {
  }

  lemma {:induction false} CoverageIs(available: Amount, required: Amount)
    ensures Coverage(available, required) == Covered(available, required)
  {
    if required > 0 {
      CoverageExact(available, required);
    }
  }

  lemma DecisionIs(policy: Policy, r: Report)
    requires r.shortfall == Max(0, r.target - r.available)
    requires r.decision == Decide(policy, r.shortfall, r.coverage, r.hhi, r.largestShare)
    ensures DecidesBy(policy, r)
  {
  }

  /** Past the two passes, only the requirement or the target can be too large. */
  lemma {:induction false} CapitalIs(policy: Policy, ps: Portfolio, available: Amount)
    requires PortfolioOk(ps) && PolicyOk(policy) && FirstPass(policy, ps)
    requires SecondPass(policy, Sum(ps, PendingOf()), ps)
    ensures var r := Capital(policy, ps, available);
            && (r.Success? <==> Needed(policy, ps) <= U64_MAX
                                && Needed(policy, ps) * policy.minimumCoverageBps <= U64_MAX)
            && (r.Success? ==> Reports(policy, ps, available, r.value) && DecidesBy(policy, r.value))
            && (r.Failure? ==> r.error == ErrPolicy)
  {
    SamePlainSums(ps);
    SameFirstPass(policy, ps);
    SameSecondPass(policy, Sum(ps, PendingOf()), ps);
    assert Required(policy, ps) == Needed(policy, ps);
    hide FirstPass, SecondPass, Sum, Largest, Needed, Required, Coverage, Decide, DecidesBy, Covered, PolicyOk,
      PortfolioOk;
    var r := Capital(policy, ps, available);
    if r.Success? {
      CoverageIs(available, r.value.required);
      DecisionIs(policy, r.value);
    }
  }

  /** For portfolios as they are put together, a report comes out exactly when every check passes, entry by entry as
      above; otherwise the first failing check answers. */
  lemma {:induction false} AnalysisIs(policy: Policy, ps: Portfolio, available: Amount)
    requires PortfolioOk(ps)
    ensures var checks, r := AnalysisChecks(policy, ps), Analyze(policy, ps, available);
            && (r.Success? <==> AllPass(checks))
            && (r.Success? ==> Reports(policy, ps, available, r.value) && DecidesBy(policy, r.value))
            && (r.Failure? ==> r.error == Verdict(checks))
  {
    AnalysisVerdict(policy, ps);
    VerdictOkIff(AnalysisChecks(policy, ps));
    AnalyzeUnfolds(policy, ps, available);
    SamePlainSums(ps);
    hide FirstPass, SecondPass, PolicyOk, InRange, PortfolioOk, AllProductsFit, TotalsFit, ConcentrationFits,
      SomeActive, Needed, Capital, Reports, DecidesBy, Sum, Verdict, AllPass, AnalysisChecks, Analyze, AddOnOf,
      PendingOf, CountOf, One;
    RangesAgree(policy);
    ActiveCounted(ps);
    if PolicyOk(policy) {
      FirstPassIs(policy, ps);
      if FirstPass(policy, ps) {
        SameSecondPass(policy, Sum(ps, PendingOf()), ps);
        if SecondPass(policy, Sum(ps, PendingOf()), ps) {
          CapitalIs(policy, ps, available);
        }
      }
    }
  }

  lemma {:induction false} FirstPassIs(policy: Policy, ps: Portfolio)
    requires PolicyOk(policy) && PortfolioOk(ps)
    ensures FirstPass(policy, ps) <==> AllProductsFit(policy, ps) && TotalsFit(policy, ps)
    ensures FirstPass(policy, ps) ==> Sum(ps, PendingOf()) <= U64_MAX
  {
    SamePlainSums(ps);
    SameFirstPass(policy, ps);
    hide Sum, AllMeasurable, AllProductsFit, PolicyOk, PortfolioOk;
  }

  lemma AnalyzeUnfolds(policy: Policy, ps: Portfolio, available: Amount)
    ensures var r := Analyze(policy, ps, available);
            if !PolicyOk(policy) || !FirstPass(policy, ps) then r == Failure(ErrPolicy)
            else if Sum(ps, CountOf()) == 0 then r == Failure(ErrState)
            else
              && Sum(ps, PendingOf()) <= U64_MAX
              && if SecondPass(policy, Sum(ps, PendingOf()), ps) then
                   && Sum(ps, AddOnOf(policy, Sum(ps, PendingOf()))) <= U64_MAX
                   && r == Capital(policy, ps, available)
                 else r == Failure(ErrPolicy)
  {
    hide Capital, PolicyOk, AllMeasurable, AllChargeable, Sum;
  }

  lemma {:induction false} AnalysisVerdict(policy: Policy, ps: Portfolio)
    ensures Verdict(AnalysisChecks(policy, ps))
         == if !InRange(policy) then ErrPolicy
            else if !(AllProductsFit(policy, ps) && TotalsFit(policy, ps)) then ErrPolicy
            else if !SomeActive(ps) then ErrState
            else if !ConcentrationFits(policy, ps) then ErrPolicy
            else if !(Needed(policy, ps) <= U64_MAX && Needed(policy, ps) * policy.minimumCoverageBps <= U64_MAX)
            then ErrPolicy
            else Ok
  {
    hide Verdict, InRange, AllProductsFit, TotalsFit, SomeActive, ConcentrationFits, Needed;
    VerdictOfFive(AnalysisChecks(policy, ps));
  }
}
