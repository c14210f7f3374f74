/** What the risk analysis guarantees for every portfolio, policy and capital. */
module RiskProofs {
  import opened Amounts
  import opened Sums
  import opened Routes
  import opened Risk

  // ---------- Shares ----------

  /** Shares lose less than one basis point each to rounding, and together never exceed the whole. */
  lemma {:induction false} ShareBounds(total: Amount, p: Position)
    requires 0 < total && (p.active ==> p.pending <= total)
    ensures 0 <= PendingOf()(p) * BPS && ShareOf(total)(p) * total <= PendingOf()(p) * BPS
    ensures p.active ==> PendingOf()(p) * BPS < (ShareOf(total)(p) + 1) * total
  {
    MulMonotone(0, PendingOf()(p), BPS);
    if p.active {
      RatioIsFloor(p.pending, total, BPS);
    }
  }

  /** The scaled pending total, share by share. */
  lemma {:induction false} SharesOfTotal(total: Amount, ps: seq<Position>)
    requires 0 < total && Sum(ps, PendingOf()) <= total
    ensures Sum(ps, ShareOf(total)) * total <= Sum(ps, PendingOf()) * BPS
    ensures Sum(ps, PendingOf()) * BPS <= (Sum(ps, ShareOf(total)) + Sum(ps, CountOf())) * total
    ensures Sum(ps, CountOf()) > 0
            ==> Sum(ps, PendingOf()) * BPS < (Sum(ps, ShareOf(total)) + Sum(ps, CountOf())) * total
    decreases |ps|
  {
    if |ps| > 0 {
      var n := |ps| - 1;
      SharesOfTotal(total, ps[..n]);
      ShareBounds(total, ps[n]);
      var s, m, c := Sum(ps[..n], ShareOf(total)), Sum(ps[..n], PendingOf()), Sum(ps[..n], CountOf());
      var share, pending, count := ShareOf(total)(ps[n]), PendingOf()(ps[n]), CountOf()(ps[n]);
      Distribute(s, share, total);
      Distribute(m, pending, BPS);
      Distribute(s + c, share + count, total);
      assert (s + c) + (share + count) == (s + share) + (c + count);
    }
  }

  lemma Distribute(x: int, y: int, f: int)
    ensures (x + y) * f == x * f + y * f
  {
  }

  /** Shares of the whole portfolio: at most 100 %, and short of it by less than one point per active position. */
  lemma {:induction false} SharesAddUp(total: Amount, ps: seq<Position>)
    requires 0 < total && total == Sum(ps, PendingOf()) && Sum(ps, CountOf()) > 0
    ensures Sum(ps, ShareOf(total)) <= BPS < Sum(ps, ShareOf(total)) + Sum(ps, CountOf()) + 1
    ensures BPS + 1 <= Sum(ps, ShareOf(total)) + Sum(ps, CountOf())
  {
    SharesOfTotal(total, ps);
    var s, c := Sum(ps, ShareOf(total)), Sum(ps, CountOf());
    if s > BPS {
      MulMonotone(BPS + 1, s, total);
    }
    if s + c <= BPS {
      MulMonotone(s + c, BPS, total);
    }
  }

  // ---------- Two-sided bound on the concentration index ----------

  lemma {:induction false} LargestBounds(ps: seq<Position>, f: Position -> nat, i: nat)
    requires i < |ps|
    ensures f(ps[i]) <= Largest(ps, f)
    decreases |ps|
  {
    var n := |ps| - 1;
    if i < n {
      assert ps[..n][i] == ps[i];
      LargestBounds(ps[..n], f, i);
    }
  }

  lemma {:induction false} LargestIsSome(ps: seq<Position>, f: Position -> nat, bound: nat)
    requires forall i | 0 <= i < |ps| :: f(ps[i]) <= bound
    ensures Largest(ps, f) <= bound
    decreases |ps|
  {
    if |ps| > 0 {
      var n := |ps| - 1;
      forall i | 0 <= i < n
        ensures f(ps[..n][i]) <= bound
      {
        assert ps[..n][i] == ps[i];
      }
      LargestIsSome(ps[..n], f, bound);
    }
  }

  lemma {:induction false} SquareUnderLargest(total: Amount, p: Position, largest: nat)
    requires ShareOf(total)(p) <= largest
    ensures SquareOf(total)(p) * BPS <= largest * ShareOf(total)(p)
  {
    var share := ShareOf(total)(p);
    MulMonotone(0, share, share);
    MulMonotone(share, largest, share);
  }

  /** Each squared share is at most the largest share times the share. */
  lemma {:induction false} SquaresUnderLargest(total: Amount, ps: seq<Position>, largest: nat)
    requires forall i | 0 <= i < |ps| :: ShareOf(total)(ps[i]) <= largest
    ensures Sum(ps, SquareOf(total)) * BPS <= largest * Sum(ps, ShareOf(total))
    decreases |ps|
  {
    hide SquareOf, ShareOf;
    if |ps| > 0 {
      var n := |ps| - 1;
      forall i | 0 <= i < n
        ensures ShareOf(total)(ps[..n][i]) <= largest
      {
        assert ps[..n][i] == ps[i];
      }
      SquaresUnderLargest(total, ps[..n], largest);
      SquareUnderLargest(total, ps[n], largest);
      Distribute(Sum(ps[..n], SquareOf(total)), SquareOf(total)(ps[n]), BPS);
      Distribute(Sum(ps[..n], ShareOf(total)), ShareOf(total)(ps[n]), largest);
    }
  }

  lemma CancelFactor(x: int, y: int, f: int)
    requires x * f <= y * f && 0 < f
    ensures x <= y
  {
  }

  lemma {:induction false} HhiUpper(total: Amount, ps: seq<Position>)
    requires 0 < total && total == Sum(ps, PendingOf()) && Sum(ps, CountOf()) > 0
    ensures Sum(ps, SquareOf(total)) <= Largest(ps, ShareOf(total)) <= BPS
  {
    var largest := Largest(ps, ShareOf(total));
    forall i | 0 <= i < |ps|
      ensures ShareOf(total)(ps[i]) <= largest
    {
      LargestBounds(ps, ShareOf(total), i);
    }
    LargestIsSome(ps, ShareOf(total), BPS);
    SquaresUnderLargest(total, ps, largest);
    SharesAddUp(total, ps);
    MulMonotone(Sum(ps, ShareOf(total)), BPS, largest);
    CancelFactor(Sum(ps, SquareOf(total)), largest, BPS);
  }

  /** Exact squares of the shares, before rounding. */
  function ExactSquare(total: Amount): Position -> nat {
    (p: Position) => MulMonotone(0, ShareOf(total)(p), ShareOf(total)(p)); ShareOf(total)(p) * ShareOf(total)(p)
  }

  /** The sum of (share - x)^2 over active positions, expanded. */
  lemma {:induction false} DeviationNonNegative(total: Amount, ps: seq<Position>, x: int)
    ensures Sum(ps, ExactSquare(total)) - 2 * x * Sum(ps, ShareOf(total)) + Sum(ps, CountOf()) * x * x >= 0
    decreases |ps|
  {
    if |ps| > 0 {
      var n := |ps| - 1;
      DeviationNonNegative(total, ps[..n], x);
      var s, c := ShareOf(total)(ps[n]), CountOf()(ps[n]);
      SquareExpands(Sum(ps[..n], ExactSquare(total)), Sum(ps[..n], ShareOf(total)), Sum(ps[..n], CountOf()), s, c, x);
    }
  }

  lemma SquareExpands(q: int, t: int, k: int, s: int, c: int, x: int)
    requires q - 2 * x * t + k * x * x >= 0
    requires c == 1 || (c == 0 && s == 0)
    ensures (q + s * s) - 2 * x * (t + s) + (k + c) * x * x >= 0
  {
    SquareNonNegative(s - x);
    assert (s - x) * (s - x) == s * s - 2 * x * s + x * x;
    assert 2 * x * (t + s) == 2 * x * t + 2 * x * s;
    assert (k + c) * x * x == k * x * x + c * (x * x);
  }

  lemma SquareNonNegative(x: int)
    ensures x * x >= 0
  {
  }

  /** Cauchy-Schwarz for the shares of active positions. */
  lemma {:induction false} CauchySchwarz(total: Amount, ps: seq<Position>)
    ensures Sum(ps, ShareOf(total)) * Sum(ps, ShareOf(total)) <= Sum(ps, CountOf()) * Sum(ps, ExactSquare(total))
    decreases |ps|
  {
    if |ps| > 0 {
      var n := |ps| - 1;
      CauchySchwarz(total, ps[..n]);
      var s, c := ShareOf(total)(ps[n]), CountOf()(ps[n]);
      DeviationNonNegative(total, ps[..n], s);
      CauchyStep(Sum(ps[..n], ShareOf(total)), Sum(ps[..n], CountOf()), Sum(ps[..n], ExactSquare(total)), s, c);
    }
  }

  lemma CauchyStep(t: int, k: int, q: int, s: int, c: int)
    requires t * t <= k * q && q - 2 * s * t + k * s * s >= 0
    requires c == 1 || (c == 0 && s == 0)
    ensures (t + s) * (t + s) <= (k + c) * (q + s * s)
  {
    assert (t + s) * (t + s) == t * t + 2 * s * t + s * s;
    if c == 1 {
      assert (k + 1) * (q + s * s) == k * q + k * (s * s) + q + s * s;
      assert k * s * s == k * (s * s);
    }
  }

  lemma {:induction false} RoundedSquares(total: Amount, ps: seq<Position>)
    ensures Sum(ps, ExactSquare(total)) <= BPS * Sum(ps, SquareOf(total)) + (BPS - 1) * Sum(ps, CountOf())
    decreases |ps|
  {
    if |ps| > 0 {
      var n := |ps| - 1;
      RoundedSquares(total, ps[..n]);
      MulMonotone(0, ShareOf(total)(ps[n]), ShareOf(total)(ps[n]));
      assert ExactSquare(total)(ps[n]) <= BPS * SquareOf(total)(ps[n]) + (BPS - 1) * CountOf()(ps[n]);
    }
  }

  /** For n active positions, n * (B*hhi + n*(B-1)) is at least (B - n + 1)^2. */
  lemma {:induction false} HhiLower(total: Amount, ps: seq<Position>)
    requires 0 < total && total == Sum(ps, PendingOf()) && 0 < Sum(ps, CountOf()) <= BPS + 1
    ensures var n, hhi := Sum(ps, CountOf()), Sum(ps, SquareOf(total));
            (BPS - n + 1) * (BPS - n + 1) <= n * (BPS * hhi + n * (BPS - 1))
  {
    var n, t, q := Sum(ps, CountOf()), Sum(ps, ShareOf(total)), Sum(ps, ExactSquare(total));
    SharesAddUp(total, ps);
    CauchySchwarz(total, ps);
    RoundedSquares(total, ps);
    MulMonotone(BPS - n + 1, t, BPS - n + 1);
    MulMonotone(BPS - n + 1, t, t);
    MulMonotone(q, BPS * Sum(ps, SquareOf(total)) + (BPS - 1) * n, n);
  }

  /** Every accepted report with pending volume: the index is between the Cauchy-Schwarz bound and the largest share. */
  lemma {:induction false} HhiBounds(policy: Policy, ps: Portfolio, available: Amount)
    requires Analyze(policy, ps, available).Success?
    ensures var r := Analyze(policy, ps, available).value;
            var n := r.totals.active;
            r.totals.pending > 0 ==>
              && r.hhi <= r.largestShare <= BPS
              && (BPS - n + 1) * (BPS - n + 1) <= n * (BPS * r.hhi + n * (BPS - 1))
  {
    var total := Sum(ps, PendingOf());
    SumBounded(ps, CountOf(), 1);
    if total > 0 {
      HhiUpper(total, ps);
      HhiLower(total, ps);
    }
  }

  // ---------- Coverage ----------

  /** The whole part and the remainder of a quotient, scaled apart. */
  lemma {:induction false} ScaledApart(available: nat, required: nat, q: nat, r: nat, f: nat)
    requires available == q * required + r && f * required <= r * BPS < (f + 1) * required
    ensures (q * BPS + f) * required <= available * BPS < (q * BPS + f + 1) * required
  {
    assert available * BPS == q * BPS * required + r * BPS;
    assert (q * BPS + f) * required == q * BPS * required + f * required;
    assert (q * BPS + f + 1) * required == q * BPS * required + (f + 1) * required;
  }

  lemma {:induction false} CoverageBelowCap(available: Amount, required: Amount)
    requires 0 < required && Floor(available, required) < 3
    ensures 0 <= available * BPS
    ensures Coverage(available, required) == Floor(available * BPS, required) < COVERAGE_CAP
  {
    MulMonotone(0, available, BPS);
    var q, r := Floor(available, required), Remainder(available, required);
    RatioIsFloor(r, required, BPS);
    var f := Ratio(r, required, BPS);
    assert f < BPS by {
      if f >= BPS {
        MulMonotone(BPS, f, required);
        assert false;
      }
    }
    ScaledApart(available, required, q, r, f);
    FloorUnique(available * BPS, required, q * BPS + f);
  }

  /** Coverage is the exact quotient of capital and requirement, capped at three times. */
  lemma {:induction false} CoverageExact(available: Amount, required: Amount)
    requires 0 < required
    ensures 0 <= available * BPS
    ensures Coverage(available, required) == Min(COVERAGE_CAP, Floor(available * BPS, required))
  {
    MulMonotone(0, available, BPS);
    if Floor(available, required) >= 3 {
      MulMonotone(3, Floor(available, required), required);
      FloorAtLeast(available * BPS, required, COVERAGE_CAP);
    } else {
      CoverageBelowCap(available, required);
    }
  }

  lemma {:induction false} CoverageAntitone(available: Amount, less: Amount, more: Amount)
    requires less <= more
    ensures Coverage(available, more) <= Coverage(available, less)
  {
    if 0 < less {
      CoverageExact(available, less);
      CoverageExact(available, more);
      FloorAntitone(available * BPS, less, more);
    } else if 0 < more {
      CoverageExact(available, more);
      if available == 0 {
        FloorUnique(0, more, 0);
      }
    }
  }

  /** Enough coverage means no shortfall. */
  lemma {:induction false} CoverageImpliesNoShortfall(required: Amount, minimum: U32, available: Amount)
    requires MulBps(required, minimum).Success? && 0 < minimum <= COVERAGE_CAP
    requires Coverage(available, required) >= minimum
    ensures available >= MulBps(required, minimum).value
  {
    var target := MulBps(required, minimum).value;
    if required > 0 && available < target {
      CoverageExact(available, required);
      var f := Floor(available * BPS, required);
      MulMonotone(minimum, f, required);
      MulMonotone(available + 1, target, BPS);
    }
  }

  /** No shortfall means coverage within one basis point of the minimum, once the requirement is not tiny. */
  lemma {:induction false} NoShortfallImpliesCoverage(required: Amount, minimum: U32, available: Amount)
    requires MulBps(required, minimum).Success? && 0 < minimum <= COVERAGE_CAP
    requires required >= BPS && available >= MulBps(required, minimum).value
    ensures Coverage(available, required) >= minimum - 1
  {
    var target := MulBps(required, minimum).value;
    CoverageExact(available, required);
    MulMonotone(target, available, BPS);
    assert required * minimum < (target + 1) * BPS;
    assert (minimum - 1) * required == minimum * required - required;
    FloorAtLeast(available * BPS, required, minimum - 1);
  }

  /** In a report the two capital gates agree up to one basis point. */
  lemma {:induction false} GatesAgree(policy: Policy, ps: Portfolio, available: Amount)
    requires Analyze(policy, ps, available).Success?
    ensures var r := Analyze(policy, ps, available).value;
            && (r.coverage >= policy.minimumCoverageBps ==> r.shortfall == 0)
            && (r.shortfall == 0 && r.required >= BPS ==> r.coverage >= policy.minimumCoverageBps - 1)
  {
    var r := Analyze(policy, ps, available).value;
    if r.coverage >= policy.minimumCoverageBps {
      CoverageImpliesNoShortfall(r.required, policy.minimumCoverageBps, available);
    }
    if r.shortfall == 0 && r.required >= BPS {
      NoShortfallImpliesCoverage(r.required, policy.minimumCoverageBps, available);
    }
  }

  // ---------- Stricter policies ----------

  /** At least as strict in all seven parameters. */
  predicate Stricter(q: Policy, p: Policy) {
    && q.stressDefaultBps >= p.stressDefaultBps
    && q.liquidityHaircutBps >= p.liquidityHaircutBps
    && q.concentrationThresholdBps <= p.concentrationThresholdBps
    && q.concentrationChargeBps >= p.concentrationChargeBps
    && q.minimumCoverageBps >= p.minimumCoverageBps
    && q.maximumSingleLaneBps <= p.maximumSingleLaneBps
    && q.maximumHhiBps <= p.maximumHhiBps
  }

  /** A smaller amount at a smaller rate is a smaller share, and fits when the larger one does. */
  lemma {:induction false} MulBpsMonotone(a: Amount, b: Amount, x: U32, y: U32)
    requires a <= b && x <= y && MulBps(b, y).Success?
    ensures MulBps(a, x).Success? && MulBps(a, x).value <= MulBps(b, y).value
  {
    MulMonotone(0, a, x);
    MulMonotone(a, b, x);
    MulMonotone(x, y, b);
    FloorMonotone(a * x, b * y, BPS);
  }

  lemma {:induction false} StressGrows(p: Policy, q: Policy, position: Position)
    requires Stricter(q, p) && Measurable(p, position) && Measurable(q, position)
    ensures StressOf(p)(position) <= StressOf(q)(position)
  {
    if position.active {
      MulBpsMonotone(position.pending, position.pending, p.stressDefaultBps, q.stressDefaultBps);
    }
  }

  lemma HaircutStays(p: Policy)
    requires PolicyOk(p)
    ensures (BPS - p.liquidityHaircutBps) % U32_SIZE == BPS - p.liquidityHaircutBps
  {
  }

  lemma {:induction false} GapGrows(p: Policy, q: Policy, position: Position)
    requires PolicyOk(p) && PolicyOk(q) && Stricter(q, p) && Measurable(p, position) && Measurable(q, position)
    ensures GapOf(p)(position) <= GapOf(q)(position)
  {
    HaircutStays(p);
    HaircutStays(q);
    if position.active {
      MulBpsMonotone(position.liquidity, position.liquidity, BPS - q.liquidityHaircutBps, BPS - p.liquidityHaircutBps);
    }
  }

  lemma {:induction false} AddOnGrows(p: Policy, q: Policy, total: Amount, position: Position)
    requires PolicyOk(p) && PolicyOk(q) && Stricter(q, p) && Chargeable(q, total, position)
    ensures AddOnOf(p, total)(position) <= AddOnOf(q, total)(position)
  {
    var share := Share(total, position);
    if position.active && share > p.concentrationThresholdBps {
      MulBpsMonotone(position.pending, position.pending, share - p.concentrationThresholdBps,
                     share - q.concentrationThresholdBps);
      var e, f := MulBps(position.pending, share - p.concentrationThresholdBps),
                  MulBps(position.pending, share - q.concentrationThresholdBps);
      MulBpsMonotone(e.value, f.value, p.concentrationChargeBps, q.concentrationChargeBps);
    }
  }

  lemma {:induction false} TotalsGrow(p: Policy, q: Policy, ps: seq<Position>)
    requires PolicyOk(p) && PolicyOk(q) && Stricter(q, p) && AllMeasurable(p, ps) && AllMeasurable(q, ps)
    ensures Sum(ps, StressOf(p)) <= Sum(ps, StressOf(q)) && Sum(ps, GapOf(p)) <= Sum(ps, GapOf(q))
  {
    hide Measurable;
    forall i | 0 <= i < |ps|
      ensures StressOf(p)(ps[i]) <= StressOf(q)(ps[i]) && GapOf(p)(ps[i]) <= GapOf(q)(ps[i])
    {
      assert Measurable(p, ps[i]) && Measurable(q, ps[i]);
      StressGrows(p, q, ps[i]);
      GapGrows(p, q, ps[i]);
    }
    SumPointwise(ps, ps, StressOf(p), StressOf(q));
    SumPointwise(ps, ps, GapOf(p), GapOf(q));
  }

  lemma {:induction false} AddOnsGrow(p: Policy, q: Policy, total: Amount, ps: seq<Position>)
    requires PolicyOk(p) && PolicyOk(q) && Stricter(q, p) && AllChargeable(q, total, ps)
    ensures Sum(ps, AddOnOf(p, total)) <= Sum(ps, AddOnOf(q, total))
  {
    forall i | 0 <= i < |ps|
      ensures AddOnOf(p, total)(ps[i]) <= AddOnOf(q, total)(ps[i])
    {
      assert Chargeable(q, total, ps[i]);
      AddOnGrows(p, q, total, ps[i]);
    }
    SumPointwise(ps, ps, AddOnOf(p, total), AddOnOf(q, total));
  }

  function Severity(d: Decision): nat {
    match d
    case Approve => 0
    case Review => 1
    case Hold => 2
  }

  lemma {:induction false} DecisionHardens(p: Policy, q: Policy, s: Amount, t: Amount, c: U32, d: U32, hhi: nat,
                                           largest: nat)
    requires Stricter(q, p) && s <= t && d <= c
    ensures Severity(Decide(p, s, c, hhi, largest)) <= Severity(Decide(q, t, d, hhi, largest))
  {
  }

  /** What an accepted analysis went through. */
  lemma {:induction false} AcceptedAnalysis(policy: Policy, ps: Portfolio, available: Amount)
    requires Analyze(policy, ps, available).Success?
    ensures PolicyOk(policy) && AllMeasurable(policy, ps) && Sum(ps, PendingOf()) <= U64_MAX
    ensures AllChargeable(policy, Sum(ps, PendingOf()), ps)
    ensures var r := Analyze(policy, ps, available).value;
            && r.totals == TotalsOf(policy, ps) && r.required == Required(policy, ps)
            && r.addOn == Sum(ps, AddOnOf(policy, Sum(ps, PendingOf())))
            && MulBps(r.required, policy.minimumCoverageBps) == Success(r.target)
            && r.coverage == Coverage(available, r.required)
            && r.shortfall == (if available >= r.target then 0 else r.target - available)
            && r.surplus == (if available >= r.target then available - r.target else 0)
            && r.hhi == Sum(ps, SquareOf(Sum(ps, PendingOf())))
            && r.largestShare == Largest(ps, ShareOf(Sum(ps, PendingOf())))
            && r.decision == Decide(policy, r.shortfall, r.coverage, r.hhi, r.largestShare)
  {
  }

  predicate Harder(r: Report, t: Report) {
    && r.totals.stress <= t.totals.stress && r.totals.gap <= t.totals.gap && r.addOn <= t.addOn
    && r.required <= t.required && r.target <= t.target && r.shortfall <= t.shortfall
    && t.coverage <= r.coverage && Severity(r.decision) <= Severity(t.decision)
  }

  /** A stricter policy never reports less loss, gap, add-on, capital or shortfall, never more coverage, and never
      decides more leniently. */
  lemma {:induction false} PolicyMonotone(p: Policy, q: Policy, ps: Portfolio, available: Amount)
    requires Stricter(q, p) && Analyze(p, ps, available).Success? && Analyze(q, ps, available).Success?
    ensures Harder(Analyze(p, ps, available).value, Analyze(q, ps, available).value)
  {
    hide Analyze, Decide, PolicyOk, AllMeasurable, AllChargeable, Coverage, Sum, Largest;
    AcceptedAnalysis(p, ps, available);
    AcceptedAnalysis(q, ps, available);
    var r, t := Analyze(p, ps, available).value, Analyze(q, ps, available).value;
    TotalsGrow(p, q, ps);
    AddOnsGrow(p, q, Sum(ps, PendingOf()), ps);
    MulBpsMonotone(r.required, t.required, p.minimumCoverageBps, q.minimumCoverageBps);
    CoverageAntitone(available, r.required, t.required);
    DecisionHardens(p, q, r.shortfall, t.shortfall, r.coverage, t.coverage, r.hhi, r.largestShare);
  }

  /** The product of a position's liquidity with what a policy leaves of it fits in 64 bits. */
  predicate HaircutFits(policy: Policy, p: Position) {
    p.active ==> p.liquidity * (BPS - policy.liquidityHaircutBps) <= U64_MAX
  }

  predicate AllHaircutsFit(policy: Policy, ps: seq<Position>) {
    forall i {:trigger HaircutFits(policy, ps[i])} | 0 <= i < |ps| :: HaircutFits(policy, ps[i])
  }

  lemma {:induction false} MeasurableIff(p: Policy, q: Policy, position: Position)
    requires PolicyOk(p) && Stricter(q, p) && Measurable(q, position)
    ensures Measurable(p, position) <==> HaircutFits(p, position)
  {
    HaircutStays(p);
    if position.active {
      MulBpsMonotone(position.pending, position.pending, p.stressDefaultBps, q.stressDefaultBps);
      hide MulBps, ExpectedLoss;
      assert MulBps(position.liquidity, BPS - p.liquidityHaircutBps).Success? <==> HaircutFits(p, position);
    }
  }

  lemma {:induction false} AllMeasurableIff(p: Policy, q: Policy, ps: seq<Position>)
    requires PolicyOk(p) && Stricter(q, p) && AllMeasurable(q, ps)
    ensures AllMeasurable(p, ps) <==> AllHaircutsFit(p, ps)
  {
    hide Measurable, HaircutFits, PolicyOk, Stricter;
    forall i | 0 <= i < |ps|
      ensures Measurable(p, ps[i]) <==> HaircutFits(p, ps[i])
    {
      assert Measurable(q, ps[i]);
      MeasurableIff(p, q, ps[i]);
    }
  }

  lemma {:induction false} ChargeableToo(p: Policy, q: Policy, total: Amount, position: Position)
    requires PolicyOk(p) && PolicyOk(q) && Stricter(q, p) && Chargeable(q, total, position)
    ensures Chargeable(p, total, position)
  {
    var share := Share(total, position);
    if position.active && share > p.concentrationThresholdBps {
      var x, y := share - p.concentrationThresholdBps, share - q.concentrationThresholdBps;
      MulBpsMonotone(position.pending, position.pending, x, y);
      var e, f := MulBps(position.pending, x), MulBps(position.pending, y);
      MulBpsMonotone(e.value, f.value, p.concentrationChargeBps, q.concentrationChargeBps);
    }
  }

  lemma {:induction false} AllChargeableToo(p: Policy, q: Policy, total: Amount, ps: seq<Position>)
    requires PolicyOk(p) && PolicyOk(q) && Stricter(q, p) && AllChargeable(q, total, ps)
    ensures AllChargeable(p, total, ps)
  {
    hide Chargeable, PolicyOk, Stricter;
    forall i | 0 <= i < |ps|
      ensures Chargeable(p, total, ps[i])
    {
      assert Chargeable(q, total, ps[i]);
      ChargeableToo(p, q, total, ps[i]);
    }
  }

  /** What it takes to be accepted. */
  predicate Passes(policy: Policy, ps: Portfolio) {
    && PolicyOk(policy)
    && FirstPass(policy, ps)
    && Sum(ps, CountOf()) != 0
    && SecondPass(policy, Sum(ps, PendingOf()), ps)
    && Required(policy, ps) <= U64_MAX
    && MulBps(Required(policy, ps), policy.minimumCoverageBps).Success?
  }

  lemma AcceptedIffPasses(policy: Policy, ps: Portfolio, available: Amount)
    ensures Analyze(policy, ps, available).Success? <==> Passes(policy, ps)
  {
    hide PolicyOk, AllMeasurable, AllChargeable, Required, Sum, Coverage, Largest, Decide, MulBps;
  }

  /** A portfolio accepted under a stricter policy is accepted under a milder one exactly when the milder haircut, which
      leaves more liquidity, still fits: every other figure only shrinks. */
  lemma {:induction false} MilderAcceptedIff(p: Policy, q: Policy, ps: Portfolio, available: Amount)
    requires Stricter(q, p) && PolicyOk(p) && Analyze(q, ps, available).Success?
    ensures Analyze(p, ps, available).Success? <==> AllHaircutsFit(p, ps)
  {
    var total := Sum(ps, PendingOf());
    hide Analyze, PolicyOk, Stricter, AllMeasurable, AllChargeable, AllHaircutsFit, Sum;
    AcceptedIffPasses(p, ps, available);
    AcceptedIffPasses(q, ps, available);
    AllMeasurableIff(p, q, ps);
    if AllHaircutsFit(p, ps) {
      TotalsGrow(p, q, ps);
      AllChargeableToo(p, q, total, ps);
      AddOnsGrow(p, q, total, ps);
      MilderCapital(p, q, Required(p, ps), Required(q, ps));
    }
  }

  lemma {:induction false} MilderCapital(p: Policy, q: Policy, less: nat, more: Amount)
    requires Stricter(q, p) && less <= more && MulBps(more, q.minimumCoverageBps).Success?
    ensures MulBps(less, p.minimumCoverageBps).Success?
  {
    MulBpsMonotone(less, more, p.minimumCoverageBps, q.minimumCoverageBps);
  }

  /** The presets are valid, and the severe one is the stricter: what it accepts the operating one accepts too, unless
      some liquidity is too large for its haircut, and then the severe report is the harder. */
  lemma {:induction false} SevereIsHarder(ps: Portfolio, available: Amount)
    ensures PolicyOk(OPERATING) && PolicyOk(SEVERE)
    ensures Analyze(SEVERE, ps, available).Success? ==>
              && (Analyze(OPERATING, ps, available).Success? <==> AllHaircutsFit(OPERATING, ps))
              && (Analyze(OPERATING, ps, available).Success? ==>
                    Harder(Analyze(OPERATING, ps, available).value, Analyze(SEVERE, ps, available).value))
  {
    hide Analyze, Harder, AllHaircutsFit;
    if Analyze(SEVERE, ps, available).Success? {
      MilderAcceptedIff(OPERATING, SEVERE, ps, available);
      if Analyze(OPERATING, ps, available).Success? {
        PolicyMonotone(OPERATING, SEVERE, ps, available);
      }
    }
  }

  // ---------- Order and inactive positions do not matter ----------

  function Actives(ps: seq<Position>): seq<Position> {
    if |ps| == 0 then []
    else Actives(ps[..|ps| - 1]) + (if Last(ps).active then [Last(ps)] else [])
  }

  lemma {:induction false} SumOfActives(ps: seq<Position>, f: Position -> nat)
    requires forall p: Position | !p.active :: f(p) == 0
    ensures Sum(Actives(ps), f) == Sum(ps, f)
    decreases |ps|
  {
    if |ps| > 0 {
      var n := |ps| - 1;
      SumOfActives(ps[..n], f);
      if ps[n].active {
        SumAppend(Actives(ps[..n]), ps[n], f);
      } else {
        assert Actives(ps) == Actives(ps[..n]) && f(ps[n]) == 0;
      }
    }
  }

  lemma {:induction false} LargestOfActives(ps: seq<Position>, f: Position -> nat)
    requires forall p: Position | !p.active :: f(p) == 0
    ensures Largest(Actives(ps), f) == Largest(ps, f)
    decreases |ps|
  {
    if |ps| > 0 {
      var n := |ps| - 1;
      LargestOfActives(ps[..n], f);
      if ps[n].active {
        assert (Actives(ps[..n]) + [ps[n]])[..|Actives(ps[..n])|] == Actives(ps[..n]);
      } else {
        assert Actives(ps) == Actives(ps[..n]) && f(ps[n]) == 0;
      }
    }
  }

  lemma {:induction false} MembersOfActives(ps: seq<Position>)
    ensures forall p :: p in Actives(ps) <==> p in ps && p.active
    decreases |ps|
  {
    if |ps| > 0 {
      var n := |ps| - 1;
      MembersOfActives(ps[..n]);
      assert ps == ps[..n] + [ps[n]];
    }
  }

  /** Taking one occurrence of the last element out of a permutation. */
  function Without<T>(xs: seq<T>, i: nat): seq<T>
    requires i < |xs|
  {
    xs[..i] + xs[i + 1..]
  }

  lemma {:induction false} WithoutParts<T>(xs: seq<T>, i: nat)
    requires i < |xs|
    ensures multiset(Without(xs, i)) == multiset(xs) - multiset{xs[i]}
    ensures forall f: T -> nat :: Sum(xs, f) == Sum(Without(xs, i), f) + f(xs[i])
  {
    assert xs == xs[..i] + [xs[i]] + xs[i + 1..];
    forall f: T -> nat
      ensures Sum(xs, f) == Sum(Without(xs, i), f) + f(xs[i])
    {
      SumConcat(xs[..i] + [xs[i]], xs[i + 1..], f);
      SumAppend(xs[..i], xs[i], f);
      SumConcat(xs[..i], xs[i + 1..], f);
    }
  }

  /** A sum depends only on which summands there are, not on their order. */
  lemma {:induction false} SumPermuted<T>(xs: seq<T>, ys: seq<T>, f: T -> nat)
    requires multiset(xs) == multiset(ys)
    ensures Sum(xs, f) == Sum(ys, f)
    decreases |xs|
  {
    assert |multiset(xs)| == |xs| && |multiset(ys)| == |ys|;
    if |xs| > 0 {
      var n := |xs| - 1;
      assert xs == xs[..n] + [xs[n]];
      assert xs[n] in multiset(ys);
      var i :| 0 <= i < |ys| && ys[i] == xs[n];
      WithoutParts(ys, i);
      assert multiset(xs[..n]) == multiset(xs) - multiset{xs[n]};
      SumPermuted(xs[..n], Without(ys, i), f);
    }
  }

  lemma {:induction false} LargestByMembers(xs: seq<Position>, ys: seq<Position>, f: Position -> nat)
    requires forall p :: p in xs ==> p in ys
    ensures Largest(xs, f) <= Largest(ys, f)
    decreases |xs|
  {
    if |xs| > 0 {
      var n := |xs| - 1;
      LargestByMembers(xs[..n], ys, f);
      assert xs[n] in xs;
      var i :| 0 <= i < |ys| && ys[i] == xs[n];
      LargestBounds(ys, f, i);
    }
  }

  /** Two portfolios with the same active positions, in any order and with any inactive ones between them. */
  predicate SameActives(xs: seq<Position>, ys: seq<Position>) {
    multiset(Actives(xs)) == multiset(Actives(ys))
  }

  lemma {:induction false} SumsAgree(xs: seq<Position>, ys: seq<Position>, f: Position -> nat)
    requires SameActives(xs, ys) && forall p: Position | !p.active :: f(p) == 0
    ensures Sum(xs, f) == Sum(ys, f)
  {
    SumOfActives(xs, f);
    SumOfActives(ys, f);
    SumPermuted(Actives(xs), Actives(ys), f);
  }

  lemma {:induction false} MembersAgree(xs: seq<Position>, ys: seq<Position>)
    requires SameActives(xs, ys)
    ensures forall p :: p in Actives(xs) <==> p in Actives(ys)
  {
    assert forall p :: p in Actives(xs) <==> p in multiset(Actives(xs));
    assert forall p :: p in Actives(ys) <==> p in multiset(Actives(ys));
  }

  lemma {:induction false} LargestAgree(xs: seq<Position>, ys: seq<Position>, f: Position -> nat)
    requires SameActives(xs, ys) && forall p: Position | !p.active :: f(p) == 0
    ensures Largest(xs, f) == Largest(ys, f)
  {
    MembersAgree(xs, ys);
    LargestOfActives(xs, f);
    LargestOfActives(ys, f);
    LargestByMembers(Actives(xs), Actives(ys), f);
    LargestByMembers(Actives(ys), Actives(xs), f);
  }

  lemma {:induction false} MeasurableAgree(policy: Policy, xs: seq<Position>, ys: seq<Position>)
    requires SameActives(xs, ys) && AllMeasurable(policy, xs)
    ensures AllMeasurable(policy, ys)
  {
    MembersAgree(xs, ys);
    MembersOfActives(xs);
    MembersOfActives(ys);
    forall i | 0 <= i < |ys|
      ensures Measurable(policy, ys[i])
    {
      if ys[i].active {
        assert ys[i] in Actives(xs);
      }
    }
  }

  lemma {:induction false} ChargeableAgree(policy: Policy, total: Amount, xs: seq<Position>, ys: seq<Position>)
    requires SameActives(xs, ys) && AllChargeable(policy, total, xs)
    ensures AllChargeable(policy, total, ys)
  {
    MembersAgree(xs, ys);
    MembersOfActives(xs);
    MembersOfActives(ys);
    forall i | 0 <= i < |ys|
      ensures Chargeable(policy, total, ys[i])
    {
      if ys[i].active {
        assert ys[i] in Actives(xs);
      }
    }
  }

  lemma {:induction false} TotalsAgree(policy: Policy, xs: seq<Position>, ys: seq<Position>)
    requires SameActives(xs, ys)
    ensures TotalsOf(policy, xs) == TotalsOf(policy, ys)
  {
    SumsAgree(xs, ys, GrossOf());
    SumsAgree(xs, ys, PendingOf());
    SumsAgree(xs, ys, LiquidityOf());
    SumsAgree(xs, ys, ExpectedOf());
    SumsAgree(xs, ys, StressOf(policy));
    SumsAgree(xs, ys, GapOf(policy));
    SumsAgree(xs, ys, FeeOf());
    SumsAgree(xs, ys, CountOf());
  }

  /** The analysis, status included, depends only on the multiset of active positions. */
  lemma {:induction false} OrderIndependent(policy: Policy, xs: seq<Position>, ys: seq<Position>, available: Amount)
    requires SameActives(xs, ys)
    ensures Analyze(policy, xs, available) == Analyze(policy, ys, available)
  {
    hide SameActives, PolicyOk, Sum, Largest, AllMeasurable, AllChargeable, Decide, Coverage;
    assert SameActives(ys, xs) by {
      SameActivesSymmetric(xs, ys);
    }
    TotalsAgree(policy, xs, ys);
    if AllMeasurable(policy, xs) || AllMeasurable(policy, ys) {
      if AllMeasurable(policy, xs) {
        MeasurableAgree(policy, xs, ys);
      } else {
        MeasurableAgree(policy, ys, xs);
      }
    }
    if FirstPass(policy, xs) {
      var total := Sum(xs, PendingOf());
      SumsAgree(xs, ys, AddOnOf(policy, total));
      SumsAgree(xs, ys, SquareOf(total));
      LargestAgree(xs, ys, ShareOf(total));
      if AllChargeable(policy, total, xs) {
        ChargeableAgree(policy, total, xs, ys);
      } else if AllChargeable(policy, total, ys) {
        ChargeableAgree(policy, total, ys, xs);
      }
    }
  }

  lemma SameActivesSymmetric(xs: seq<Position>, ys: seq<Position>)
    requires SameActives(xs, ys)
    ensures SameActives(ys, xs)
  {
  }
}
