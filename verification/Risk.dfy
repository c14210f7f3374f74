/** Portfolio risk: what the analysis reports, as one function of the positions, and the loops that compute it
    (src/risk.c). */
module Risk {
  import opened Amounts
  import opened Digests
  import opened Sums
  import opened Routes

  const MAX_POSITIONS: int := 16
  const COVERAGE_CAP: int := 30000
  const COVERAGE_MARGIN: int := 1000
  const SHARE_MARGIN: int := 500

  datatype Decision = Approve | Review | Hold

  datatype Policy = Policy(
    stressDefaultBps: U32, liquidityHaircutBps: U32, concentrationThresholdBps: U32, concentrationChargeBps: U32,
    minimumCoverageBps: U32, maximumSingleLaneBps: U32, maximumHhiBps: U32)

  datatype Position = Position(
    lane: Digest, name: string, gross: Amount, pending: Amount, liquidity: Amount, feeReserve: Amount,
    defaultProbabilityBps: U32, recoveryBps: U32, active: bool)

  type Portfolio = p: seq<Position> | |p| <= 16

  const OPERATING: Policy := Policy(1500, 1200, 2500, 1800, 12500, 5500, 4200)
  const SEVERE: Policy := Policy(4200, 3500, 2000, 3200, 16000, 4000, 3000)

  predicate PolicyOk(policy: Policy) {
    && policy.stressDefaultBps <= BPS
    && policy.liquidityHaircutBps <= BPS
    && policy.concentrationThresholdBps <= BPS
    && policy.concentrationChargeBps <= BPS
    && 0 < policy.maximumSingleLaneBps <= BPS
    && 0 < policy.maximumHhiBps <= BPS
    && BPS <= policy.minimumCoverageBps <= COVERAGE_CAP
  }

  // ---------- One position ----------

  /** Two roundings, one per multiplication; the loss given default is a 32-bit subtraction. */
  function ExpectedLoss(p: Position): Result<Amount> {
    var weighted :- MulBps(p.pending, p.defaultProbabilityBps);
    MulBps(weighted, (BPS - p.recoveryBps) % U32_SIZE)
  }

  function StressLoss(policy: Policy, p: Position): Result<Amount> {
    MulBps(p.pending, policy.stressDefaultBps)
  }

  function LiquidityGap(policy: Policy, p: Position): Result<Amount> {
    var stressed :- MulBps(p.liquidity, (BPS - policy.liquidityHaircutBps) % U32_SIZE);
    Success(if p.pending > stressed then p.pending - stressed else 0)
  }

  predicate Measurable(policy: Policy, p: Position) {
    p.active ==> ExpectedLoss(p).Success? && StressLoss(policy, p).Success? && LiquidityGap(policy, p).Success?
  }

  function ValueOf(r: Result<Amount>): nat {
    if r.Success? then r.value else 0
  }

  function GrossOf(): Position -> nat {
    (p: Position) => if p.active then p.gross else 0
  }

  function PendingOf(): Position -> nat {
    (p: Position) => if p.active then p.pending else 0
  }

  function LiquidityOf(): Position -> nat {
    (p: Position) => if p.active then p.liquidity else 0
  }

  function ExpectedOf(): Position -> nat {
    (p: Position) => if p.active then ValueOf(ExpectedLoss(p)) else 0
  }

  function StressOf(policy: Policy): Position -> nat {
    (p: Position) => if p.active then ValueOf(StressLoss(policy, p)) else 0
  }

  function GapOf(policy: Policy): Position -> nat {
    (p: Position) => if p.active then ValueOf(LiquidityGap(policy, p)) else 0
  }

  function FeeOf(): Position -> nat {
    (p: Position) => if p.active then p.feeReserve else 0
  }

  function CountOf(): Position -> nat {
    (p: Position) => if p.active then 1 else 0
  }

  // ---------- First pass: totals ----------

  datatype Totals = Totals(
    gross: nat, pending: nat, liquidity: nat, expected: nat, stress: nat, gap: nat, fee: nat, active: nat)

  function TotalsOf(policy: Policy, ps: seq<Position>): Totals {
    Totals(Sum(ps, GrossOf()), Sum(ps, PendingOf()), Sum(ps, LiquidityOf()), Sum(ps, ExpectedOf()),
           Sum(ps, StressOf(policy)), Sum(ps, GapOf(policy)), Sum(ps, FeeOf()), Sum(ps, CountOf()))
  }

  /** Every total fits in 64 bits. */
  predicate Fits(t: Totals) {
    && t.gross <= U64_MAX && t.pending <= U64_MAX && t.liquidity <= U64_MAX && t.expected <= U64_MAX
    && t.stress <= U64_MAX && t.gap <= U64_MAX && t.fee <= U64_MAX
  }

  predicate AllMeasurable(policy: Policy, ps: seq<Position>) {
    forall i {:trigger Measurable(policy, ps[i])} | 0 <= i < |ps| :: Measurable(policy, ps[i])
  }

  predicate FirstPass(policy: Policy, ps: seq<Position>) {
    AllMeasurable(policy, ps) && Fits(TotalsOf(policy, ps))
  }

  // ---------- Second pass: concentration ----------

  function Share(total: Amount, p: Position): (bps: U32)
    ensures bps <= BPS
  {
    Ratio(p.pending, total, BPS)
  }

  function ShareOf(total: Amount): Position -> nat {
    (p: Position) => if p.active then Share(total, p) else 0
  }

  function Square(share: nat): nat {
    MulMonotone(0, share, share);
    Floor(share * share, BPS)
  }

  function SquareOf(total: Amount): Position -> nat {
    (p: Position) => if p.active then Square(Share(total, p)) else 0
  }

  /** What concentration above the threshold is charged. */
  function AddOn(policy: Policy, total: Amount, p: Position): Result<Amount> {
    var share := Share(total, p);
    if share <= policy.concentrationThresholdBps then Success(0)
    else
      var excess :- MulBps(p.pending, share - policy.concentrationThresholdBps);
      MulBps(excess, policy.concentrationChargeBps)
  }

  function AddOnOf(policy: Policy, total: Amount): Position -> nat {
    (p: Position) => if p.active then ValueOf(AddOn(policy, total, p)) else 0
  }

  predicate Chargeable(policy: Policy, total: Amount, p: Position) {
    p.active ==> AddOn(policy, total, p).Success?
  }

  predicate AllChargeable(policy: Policy, total: Amount, ps: seq<Position>) {
    forall i {:trigger Chargeable(policy, total, ps[i])} | 0 <= i < |ps| :: Chargeable(policy, total, ps[i])
  }

  predicate SecondPass(policy: Policy, total: Amount, ps: seq<Position>) {
    AllChargeable(policy, total, ps) && Sum(ps, AddOnOf(policy, total)) <= U64_MAX
  }

  function Largest(ps: seq<Position>, f: Position -> nat): nat {
    if |ps| == 0 then 0 else Max(Largest(ps[..|ps| - 1], f), f(Last(ps)))
  }

  // ---------- Capital ----------

  /** Coverage without forming the product of capital and scale. */
  function Coverage(available: Amount, required: Amount): (bps: U32)
  {
    if required == 0 then (if available == 0 then 0 else COVERAGE_CAP)
    else if Floor(available, required) >= 3 then COVERAGE_CAP
    else Floor(available, required) * BPS + Ratio(Remainder(available, required), required, BPS)
  }

  datatype Report = Report(
    totals: Totals, lossCharge: Amount, addOn: Amount, required: Amount, target: Amount, available: Amount,
    surplus: Amount, shortfall: Amount, coverage: U32, hhi: nat, largestShare: nat, decision: Decision)

  function Decide(policy: Policy, shortfall: Amount, coverage: U32, hhi: nat, largest: nat): Decision {
    if shortfall > 0 || largest > policy.maximumSingleLaneBps || hhi > policy.maximumHhiBps then Hold
    else if coverage < policy.minimumCoverageBps + COVERAGE_MARGIN || largest + SHARE_MARGIN >
                                                                      policy.maximumSingleLaneBps
    then Review
    else Approve
  }

  /** Required capital, as a mathematical integer. */
  function Required(policy: Policy, ps: seq<Position>): nat
    requires Sum(ps, PendingOf()) <= U64_MAX
  {
    var t := TotalsOf(policy, ps);
    Max(t.expected, t.stress) + t.gap + t.fee + Sum(ps, AddOnOf(policy, t.pending))
  }

  function Capital(policy: Policy, ps: seq<Position>, available: Amount): Result<Report>
    requires FirstPass(policy, ps) && Sum(ps, AddOnOf(policy, Sum(ps, PendingOf()))) <= U64_MAX
  {
    var t, required := TotalsOf(policy, ps), Required(policy, ps);
    if required > U64_MAX then Failure(ErrPolicy)
    else
      var target :- MulBps(required, policy.minimumCoverageBps);
      var surplus := if available >= target then available - target else 0;
      var shortfall := if available >= target then 0 else target - available;
      var coverage := Coverage(available, required);
      var hhi, largest := Sum(ps, SquareOf(t.pending)), Largest(ps, ShareOf(t.pending));
      Success(Report(t, Max(t.expected, t.stress), Sum(ps, AddOnOf(policy, t.pending)), required, target, available,
                     surplus, shortfall, coverage, hhi, largest, Decide(policy, shortfall, coverage, hhi, largest)))
  }

  /** The whole analysis. Every rejection but the empty one is a policy error. */
  function Analyze(policy: Policy, ps: seq<Position>, available: Amount): Result<Report> {
    if !PolicyOk(policy) then Failure(ErrPolicy)
    else if !FirstPass(policy, ps) then Failure(ErrPolicy)
    else if Sum(ps, CountOf()) == 0 then Failure(ErrState)
    else if !SecondPass(policy, Sum(ps, PendingOf()), ps) then Failure(ErrPolicy)
    else Capital(policy, ps, available)
  }

  // ---------- The loops ----------

  method MeasureLoss(p: Position) returns (r: Result<Amount>)
    ensures r == ExpectedLoss(p)
  {
    var lossGivenDefault := (BPS - p.recoveryBps) % U32_SIZE;
    var weighted := MulBps(p.pending, p.defaultProbabilityBps);
    if weighted.Failure? {
      return weighted;
    }
    r := MulBps(weighted.value, lossGivenDefault);
  }

  function Plus(t: Totals, policy: Policy, p: Position): Totals {
    Totals(t.gross + GrossOf()(p), t.pending + PendingOf()(p), t.liquidity + LiquidityOf()(p),
           t.expected + ExpectedOf()(p),
           t.stress + StressOf(policy)(p), t.gap + GapOf(policy)(p), t.fee + FeeOf()(p), t.active + CountOf()(p))
  }

  lemma {:induction false} TotalsStep(policy: Policy, ps: seq<Position>, n: nat)
    requires n < |ps|
    ensures TotalsOf(policy, ps[..n + 1]) == Plus(TotalsOf(policy, ps[..n]), policy, ps[n])
  {
    SumPrefix(ps, n, GrossOf());
    SumPrefix(ps, n, PendingOf());
    SumPrefix(ps, n, LiquidityOf());
    SumPrefix(ps, n, ExpectedOf());
    SumPrefix(ps, n, StressOf(policy));
    SumPrefix(ps, n, GapOf(policy));
    SumPrefix(ps, n, FeeOf());
    SumPrefix(ps, n, CountOf());
  }

  /** Partial totals never exceed the final ones, so an overflow on the way is an overflow at the end. */
  lemma {:induction false} FitsShrinks(policy: Policy, ps: seq<Position>, n: nat)
    requires n <= |ps| && Fits(TotalsOf(policy, ps))
    ensures Fits(TotalsOf(policy, ps[..n]))
  {
    SumPrefixCovered(ps, n, GrossOf());
    SumPrefixCovered(ps, n, PendingOf());
    SumPrefixCovered(ps, n, LiquidityOf());
    SumPrefixCovered(ps, n, ExpectedOf());
    SumPrefixCovered(ps, n, StressOf(policy));
    SumPrefixCovered(ps, n, GapOf(policy));
    SumPrefixCovered(ps, n, FeeOf());
  }

  /** Adds one position to the running totals, one checked addition at a time. */
  method Accumulate(t: Totals, policy: Policy, p: Position) returns (r: Result<Totals>)
    requires Fits(t)
    ensures r == if Measurable(policy, p) && Fits(Plus(t, policy, p)) then Success(Plus(t, policy, p))
                 else Failure(ErrPolicy)
  {
    if !p.active {
      return Success(t);
    }
    var expected := MeasureLoss(p);
    if expected.Failure? {
      return Failure(ErrPolicy);
    }
    var stressed := StressLoss(policy, p);
    if stressed.Failure? {
      return Failure(ErrPolicy);
    }
    var gap := LiquidityGap(policy, p);
    if gap.Failure? {
      return Failure(ErrPolicy);
    }
    var a := Add(t.gross, p.gross);
    var b := Add(t.pending, p.pending);
    var c := Add(t.liquidity, p.liquidity);
    var d := Add(t.expected, expected.value);
    var e := Add(t.stress, stressed.value);
    var f := Add(t.gap, gap.value);
    var g := Add(t.fee, p.feeReserve);
    if a.Failure? || b.Failure? || c.Failure? || d.Failure? || e.Failure? || f.Failure? || g.Failure? {
      return Failure(ErrPolicy);
    }
    r := Success(Totals(a.value, b.value, c.value, d.value, e.value, f.value, g.value, t.active + 1));
  }

  method MeasureAll(policy: Policy, ps: Portfolio) returns (r: Result<Totals>)
    ensures r == if FirstPass(policy, ps) then Success(TotalsOf(policy, ps)) else Failure(ErrPolicy)
  {
    var totals := Totals(0, 0, 0, 0, 0, 0, 0, 0);
    for index := 0 to |ps|
      invariant AllMeasurable(policy, ps[..index]) && totals == TotalsOf(policy, ps[..index]) && Fits(totals)
    {
      TotalsStep(policy, ps, index);
      var next := Accumulate(totals, policy, ps[index]);
      if next.Failure? {
        NotFirstPass(policy, ps, index);
        return Failure(ErrPolicy);
      }
      MeasurableStep(policy, ps, index);
      totals := next.value;
    }
    assert ps[..|ps|] == ps;
    r := Success(totals);
  }

  lemma {:induction false} MeasurableStep(policy: Policy, ps: seq<Position>, n: nat)
    requires n < |ps| && AllMeasurable(policy, ps[..n]) && Measurable(policy, ps[n])
    ensures AllMeasurable(policy, ps[..n + 1])
  {
    var before, after := ps[..n], ps[..n + 1];
    forall i | 0 <= i < |after|
      ensures Measurable(policy, after[i])
    {
      assert i < n ==> after[i] == before[i];
    }
  }

  lemma {:induction false} NotFirstPass(policy: Policy, ps: seq<Position>, n: nat)
    requires n < |ps|
    requires !(Measurable(policy, ps[n]) && Fits(TotalsOf(policy, ps[..n + 1])))
    ensures !FirstPass(policy, ps)
  {
    if Fits(TotalsOf(policy, ps)) {
      FitsShrinks(policy, ps, n + 1);
    }
  }

  datatype Concentration = Concentration(largest: U32, hhi: U32, addOn: Amount)

  /** What the second loop has gathered over these positions. */
  predicate Gathered(policy: Policy, total: Amount, ps: seq<Position>, c: Concentration) {
    && AllChargeable(policy, total, ps)
    && c.largest == Largest(ps, ShareOf(total))
    && c.hhi == Sum(ps, SquareOf(total))
    && c.addOn == Sum(ps, AddOnOf(policy, total))
  }

  lemma {:induction false} SquareBound(share: nat)
    requires share <= BPS
    ensures share * share <= BPS * BPS && Square(share) <= share
  {
    MulMonotone(share, BPS, share);
    MulMonotone(share, BPS, BPS);
    FloorUnique(share * BPS, BPS, share);
    FloorMonotone(share * share, share * BPS, BPS);
  }

  /** The index over at most sixteen positions stays far below 32 bits. */
  lemma {:induction false} IndexFits(total: Amount, ps: Portfolio, n: nat)
    requires n <= |ps|
    ensures Sum(ps[..n], SquareOf(total)) <= BPS * MAX_POSITIONS
  {
    forall i | 0 <= i < n
      ensures SquareOf(total)(ps[..n][i]) <= BPS
    {
      SquareBound(Share(total, ps[..n][i]));
    }
    SumBounded(ps[..n], SquareOf(total), BPS);
  }

  method ChargePosition(policy: Policy, total: Amount, p: Position) returns (share: U32, r: Result<Amount>)
    ensures share == Share(total, p) && r == AddOn(policy, total, p)
  {
    share := RatioScaled(p.pending, total, BPS);
    if share > policy.concentrationThresholdBps {
      var excess := MulBps(p.pending, share - policy.concentrationThresholdBps);
      if excess.Failure? {
        return share, excess;
      }
      r := MulBps(excess.value, policy.concentrationChargeBps);
    } else {
      r := Success(0);
    }
  }

  lemma {:induction false} GatherStep(policy: Policy, total: Amount, ps: Portfolio, n: nat, c: Concentration)
    requires n < |ps| && Gathered(policy, total, ps[..n], c) && Chargeable(policy, total, ps[n])
    requires c.addOn + AddOnOf(policy, total)(ps[n]) <= U64_MAX
    ensures c.hhi + SquareOf(total)(ps[n]) <= BPS * MAX_POSITIONS
    ensures Gathered(policy, total, ps[..n + 1],
                     Concentration(Max(c.largest, ShareOf(total)(ps[n])), c.hhi + SquareOf(total)(ps[n]),
                                   c.addOn + AddOnOf(policy, total)(ps[n])))
  {
    SumPrefix(ps, n, SquareOf(total));
    SumPrefix(ps, n, AddOnOf(policy, total));
    IndexFits(total, ps, n + 1);
    var before, after := ps[..n], ps[..n + 1];
    assert after[..n] == before;
    forall i | 0 <= i < |after|
      ensures Chargeable(policy, total, after[i])
    {
      assert i < n ==> after[i] == before[i];
    }
  }

  lemma {:induction false} NotSecondPass(policy: Policy, total: Amount, ps: seq<Position>, n: nat)
    requires n < |ps|
    requires !Chargeable(policy, total, ps[n]) || Sum(ps[..n], AddOnOf(policy, total))
             + AddOnOf(policy, total)(ps[n]) > U64_MAX
    ensures !SecondPass(policy, total, ps)
  {
    SumPrefix(ps, n, AddOnOf(policy, total));
    SumPrefixCovered(ps, n + 1, AddOnOf(policy, total));
  }

  method Concentrate(policy: Policy, total: Amount, ps: Portfolio) returns (r: Result<Concentration>)
    ensures r.Success? <==> SecondPass(policy, total, ps)
    ensures r.Success? ==> Gathered(policy, total, ps, r.value)
    ensures r.Failure? ==> r.error == ErrPolicy
  {
    hide AddOn, Largest, Sum;
    var c := Concentration(0, 0, 0);
    assert Gathered(policy, total, ps[..0], c) by {
      NothingGathered(policy, total, ps);
    }
    for index := 0 to |ps|
      invariant Gathered(policy, total, ps[..index], c)
    {
      var p := ps[index];
      if p.active {
        var share, charge := ChargePosition(policy, total, p);
        SquareBound(share);
        if charge.Failure? {
          NotSecondPass(policy, total, ps, index);
          return Failure(ErrPolicy);
        }
        var addOn := Add(c.addOn, charge.value);
        if addOn.Failure? {
          NotSecondPass(policy, total, ps, index);
          return Failure(ErrPolicy);
        }
        GatherStep(policy, total, ps, index, c);
        var largest := if share > c.largest then share else c.largest;
        c := Concentration(largest, (c.hhi + Square(share)) % U32_SIZE, addOn.value);
      } else {
        GatherStep(policy, total, ps, index, c);
      }
    }
    assert ps[..|ps|] == ps;
    r := Success(c);
  }

  lemma NothingGathered(policy: Policy, total: Amount, ps: seq<Position>)
    ensures Gathered(policy, total, ps[..0], Concentration(0, 0, 0))
  {
  }

  method CoverageBps(available: Amount, required: Amount) returns (bps: U32)
    ensures bps == Coverage(available, required)
  {
    if required == 0 {
      return if available == 0 then 0 else COVERAGE_CAP;
    }
    var quotient := Floor(available, required);
    if quotient >= 3 {
      return COVERAGE_CAP;
    }
    var remainder := Remainder(available, required);
    var fractional := RatioScaled(remainder, required, BPS);
    bps := quotient * BPS + fractional;
  }

  /** The running capital requirement, one checked addition at a time. */
  method RequireCapital(lossCharge: Amount, gap: Amount, fee: Amount, addOn: Amount) returns (r: Result<Amount>)
    ensures var total: int := lossCharge + gap + fee + addOn;
            r == if total <= U64_MAX then Success(total) else Failure(ErrPolicy)
  {
    r := Add(0, lossCharge);
    if r.Success? {
      r := Add(r.value, gap);
    }
    if r.Success? {
      r := Add(r.value, fee);
    }
    if r.Success? {
      r := Add(r.value, addOn);
    }
  }

  method AnalyzePortfolio(policy: Policy, ps: Portfolio, available: Amount) returns (r: Result<Report>)
    ensures r == Analyze(policy, ps, available)
  {
    hide FirstPass, AllChargeable, Decide, Coverage, Largest, Sum;
    if !PolicyOk(policy) {
      return Failure(ErrPolicy);
    }
    var measured := MeasureAll(policy, ps);
    if measured.Failure? {
      return Failure(ErrPolicy);
    }
    var t := measured.value;
    assert Fits(t) by {
      FirstPassFits(policy, ps);
    }
    if t.active == 0 {
      return Failure(ErrState);
    }
    var gathered := Concentrate(policy, t.pending, ps);
    if gathered.Failure? {
      return Failure(ErrPolicy);
    }
    var c := gathered.value;
    var lossCharge: Amount := if t.expected > t.stress then t.expected else t.stress;
    var required := RequireCapital(lossCharge, t.gap, t.fee, c.addOn);
    if required.Failure? {
      return Failure(ErrPolicy);
    }
    var target := MulBps(required.value, policy.minimumCoverageBps);
    if target.Failure? {
      return Failure(ErrPolicy);
    }
    var coverage := CoverageBps(available, required.value);
    var surplus: Amount, shortfall: Amount := 0, 0;
    if available >= target.value {
      surplus := available - target.value;
    } else {
      shortfall := target.value - available;
    }
    var decision := Approve;
    if shortfall > 0 || c.largest > policy.maximumSingleLaneBps || c.hhi > policy.maximumHhiBps {
      decision := Hold;
    } else if coverage < policy.minimumCoverageBps + COVERAGE_MARGIN
              || c.largest + SHARE_MARGIN > policy.maximumSingleLaneBps {
      decision := Review;
    }
    assert decision == Decide(policy, shortfall, coverage, c.hhi, c.largest) by {
      DecideCases(policy, shortfall, coverage, c.hhi, c.largest);
    }
    r := Success(Report(t, lossCharge, c.addOn, required.value, target.value, available, surplus, shortfall,
                        coverage, c.hhi, c.largest, decision));
  }

  lemma FirstPassFits(policy: Policy, ps: seq<Position>)
    requires FirstPass(policy, ps)
    ensures Fits(TotalsOf(policy, ps))
  {
  }

  lemma DecideCases(policy: Policy, shortfall: Amount, coverage: U32, hhi: nat, largest: nat)
    ensures var hold := shortfall > 0 || largest > policy.maximumSingleLaneBps || hhi > policy.maximumHhiBps;
            var review := coverage < policy.minimumCoverageBps + COVERAGE_MARGIN
                          || largest + SHARE_MARGIN > policy.maximumSingleLaneBps;
            Decide(policy, shortfall, coverage, hhi, largest) == if hold then Hold else if review then Review
            else Approve
  {
  }

  // ---------- The portfolio ----------

  predicate PortfolioOk(ps: seq<Position>) {
    && |ps| <= MAX_POSITIONS
    && (forall i | 0 <= i < |ps| :: ps[i].recoveryBps <= BPS && ps[i].defaultProbabilityBps <= BPS && ps[i].name != "")
    && (forall i, j | 0 <= i < j < |ps| :: ps[i].lane != ps[j].lane)
  }

  /** What adding a position answers. */
  function AddStatus(ps: seq<Position>, p: Position): Status {
    if p.name == "" || p.recoveryBps > BPS || p.defaultProbabilityBps > BPS then ErrArgument
    else if |ps| >= MAX_POSITIONS then ErrCapacity
    else if exists i | 0 <= i < |ps| :: ps[i].lane == p.lane then ErrDuplicate
    else Ok
  }

  class RiskPortfolio {
    var positions: seq<Position>

    constructor ()
      ensures positions == [] && PortfolioOk(positions)
    {
      positions := [];
    }

    method Insert(p: Position) returns (status: Status)
      modifies this
      ensures status == AddStatus(old(positions), p)
      ensures positions == if status == Ok then old(positions) + [p] else old(positions)
      ensures PortfolioOk(old(positions)) ==> PortfolioOk(positions)
    {
      if p.name == "" || p.recoveryBps > BPS || p.defaultProbabilityBps > BPS {
        return ErrArgument;
      }
      if |positions| >= MAX_POSITIONS {
        return ErrCapacity;
      }
      for index := 0 to |positions|
        invariant forall j | 0 <= j < index :: positions[j].lane != p.lane
      {
        if positions[index].lane == p.lane {
          return ErrDuplicate;
        }
      }
      positions := positions + [p];
      status := Ok;
    }
  }
}
