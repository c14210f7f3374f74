/** Settlement plans and their compaction (src/route.c). */
module Routes {
  import opened Amounts
  import opened Digests
  import opened Sums

  const MAX_ROUTE_HOPS: int := 8

  datatype Hop = Hop(
    lane: Digest, fromVault: Digest, toVault: Digest, bridge: Digest,
    amountHint: Amount, weightBps: U32, priority: U32)

  datatype Plan = Plan(
    settlementLane: Digest, beneficiary: Digest, operatorAccount: Digest, memo: Digest,
    hops: seq<Hop>, minNet: Amount, maxFeeBps: U32, quoteEpoch: Amount, settleAfter: Amount)

  datatype CompactedPlan = CompactedPlan(
    plan: Plan, digestBefore: Digest, digestAfter: Digest,
    effectiveBeneficiary: Digest, effectiveLane: Digest, removedHops: nat)

  /** Appends a hop to a plan's eight-slot buffer in place. */
  method AddHop(hops: array<Hop>, count: nat, hop: Hop) returns (status: Status, newCount: nat)
    requires hops.Length == MAX_ROUTE_HOPS && count <= MAX_ROUTE_HOPS
    modifies hops
    ensures status == (if count < MAX_ROUTE_HOPS then Ok else ErrCapacity)
    ensures newCount <= MAX_ROUTE_HOPS
    ensures hops[..newCount] == if status == Ok then old(hops[..count]) + [hop] else old(hops[..count])
  {
    if count >= MAX_ROUTE_HOPS {
      return ErrCapacity, count;
    }
    hops[count] := hop;
    return Ok, count + 1;
  }

  predicate Compatible(left: Hop, right: Hop) {
    left.lane == right.lane && left.toVault == right.fromVault && left.bridge == right.bridge
  }

  // ---------- Maximal runs: what compaction means ----------

  /** A non-empty stretch of hops, each compatible with the next. */
  predicate Chain(hops: seq<Hop>) {
    |hops| > 0 && forall i | 0 < i < |hops| :: Compatible(hops[i - 1], hops[i])
  }

  const ZERO_DIGEST: Digest := seq(32, _ => 0)
  const ZERO_HOP: Hop := Hop(ZERO_DIGEST, ZERO_DIGEST, ZERO_DIGEST, ZERO_DIGEST, 0, 0, 0)

  type Run = hops: seq<Hop> | Chain(hops) witness [ZERO_HOP]

  function Last<T>(xs: seq<T>): T
    requires |xs| > 0
  {
    xs[|xs| - 1]
  }

  function Flatten(runs: seq<Run>): seq<Hop> {
    if |runs| == 0 then [] else Flatten(runs[..|runs| - 1]) + Last(runs)
  }

  /** The second run starts with a hop that does not fit the first run's last hop. */
  predicate Separate(left: Run, right: Run) {
    !Compatible(Last(left), right[0])
  }

  predicate AllSeparate(runs: seq<Run>) {
    forall i | 0 < i < |runs| :: Separate(runs[i - 1], runs[i])
  }

  /** The runs cut the route exactly where two neighbours do not fit. */
  predicate MaximalRuns(runs: seq<Run>, hops: seq<Hop>) {
    Flatten(runs) == hops && AllSeparate(runs)
  }

  /** The runs of a route, built hop by hop: a hop either prolongs the last run or opens a new one. */
  function Runs(hops: seq<Hop>): (runs: seq<Run>)
    ensures |runs| == 0 <==> |hops| == 0
    ensures |hops| > 0 ==> Last(Last(runs)) == Last(hops)
  {
    if |hops| == 0 then []
    else
      var n := |hops| - 1;
      var runs := Runs(hops[..n]);
      if n > 0 && Compatible(hops[n - 1], hops[n])
      then ProlongLast(runs, hops[n])
      else runs + [[hops[n]]]
  }

  function Prolong(run: Run, hop: Hop): (longer: Run)
    requires Compatible(Last(run), hop)
    ensures longer == run + [hop]
  {
    run + [hop]
  }

  function TopPriority(run: seq<Hop>): U32
    requires |run| > 0
  {
    if |run| == 1 then run[0].priority
    else Max(TopPriority(run[..|run| - 1]), Last(run).priority)
  }

  /** One hop standing for a run: the first hop's source, lane, bridge and weight, the last hop's target and amount, the
      highest priority. */
  function Collapse(run: Run): Hop {
    run[0].(toVault := Last(run).toVault, amountHint := Last(run).amountHint, priority := TopPriority(run))
  }

  function CollapseAll(runs: seq<Run>): (merged: seq<Hop>)
    ensures |merged| == |runs|
    ensures forall i | 0 <= i < |runs| :: merged[i] == Collapse(runs[i])
  {
    if |runs| == 0 then [] else CollapseAll(runs[..|runs| - 1]) + [Collapse(Last(runs))]
  }

  function Merged(hops: seq<Hop>): (merged: seq<Hop>)
    ensures |merged| == |Runs(hops)|
  {
    CollapseAll(Runs(hops))
  }

  lemma {:induction false} AppendRun(runs: seq<Run>, run: Run)
    requires AllSeparate(runs) && (|runs| > 0 ==> Separate(Last(runs), run))
    ensures AllSeparate(runs + [run]) && Flatten(runs + [run]) == Flatten(runs) + run
  {
    assert (runs + [run])[..|runs|] == runs;
  }

  lemma {:induction false} DropRun(runs: seq<Run>)
    requires AllSeparate(runs) && |runs| > 0
    ensures AllSeparate(runs[..|runs| - 1])
    ensures |runs| > 1 ==> Separate(Last(runs[..|runs| - 1]), Last(runs))
  {
    var front := runs[..|runs| - 1];
    forall i | 0 < i < |front|
      ensures Separate(front[i - 1], front[i])
    {
      assert Separate(runs[i - 1], runs[i]);
    }
  }

  function ProlongLast(runs: seq<Run>, hop: Hop): seq<Run>
    requires |runs| > 0 && Compatible(Last(Last(runs)), hop)
  {
    runs[..|runs| - 1] + [Prolong(Last(runs), hop)]
  }

  lemma {:induction false} ProlongLastSeparates(runs: seq<Run>, hop: Hop)
    requires |runs| > 0 && Compatible(Last(Last(runs)), hop) && AllSeparate(runs)
    ensures AllSeparate(ProlongLast(runs, hop)) && Flatten(ProlongLast(runs, hop)) == Flatten(runs) + [hop]
  {
    var front, last := runs[..|runs| - 1], Last(runs);
    DropRun(runs);
    assert Prolong(last, hop)[0] == last[0];
    AppendRun(front, Prolong(last, hop));
    assert Flatten(front) + (last + [hop]) == (Flatten(front) + last) + [hop];
  }

  lemma {:induction false} RunsAreMaximal(hops: seq<Hop>)
    ensures MaximalRuns(Runs(hops), hops)
  {
    if |hops| > 0 {
      var n := |hops| - 1;
      RunsAreMaximal(hops[..n]);
      var before := Runs(hops[..n]);
      assert hops == hops[..n] + [hops[n]];
      if n > 0 && Compatible(hops[n - 1], hops[n]) {
        ProlongLastSeparates(before, hops[n]);
      } else {
        AppendRun(before, [hops[n]]);
      }
    }
  }

  lemma {:induction false} FlattenKnown(runs: seq<Run>)
    requires |runs| > 0
    ensures |Flatten(runs)| >= |Last(runs)| && Last(Flatten(runs)) == Last(Last(runs))
  {
  }

  /** Dropping the last hop of a cut leaves a cut. */
  lemma {:induction false} MaximalRunsDrop(runs: seq<Run>, hops: seq<Hop>) returns (shorter: seq<Run>)
    requires MaximalRuns(runs, hops) && |hops| > 0
    ensures |runs| > 0 && MaximalRuns(shorter, hops[..|hops| - 1])
    ensures if |Last(runs)| == 1 then runs == shorter + [[Last(hops)]]
            else |shorter| == |runs| && shorter[..|runs| - 1] == runs[..|runs| - 1]
                 && Last(runs) == Last(shorter) + [Last(hops)]
  {
    var m, n := |runs| - 1, |hops| - 1;
    FlattenKnown(runs);
    var last: seq<Hop> := runs[m];
    if |last| == 1 {
      shorter := runs[..m];
      DropRun(runs);
      assert last == [hops[n]];
      assert runs == shorter + [last];
    } else {
      var cut: seq<Hop> := last[..|last| - 1];
      assert Chain(cut);
      shorter := runs[..m] + [cut];
      assert shorter[..m] == runs[..m];
      assert last == cut + [hops[n]];
      DropRun(runs);
      AppendRun(runs[..m], cut);
    }
  }

  /** The last hop opens a run of its own: it does not fit its neighbour. */
  lemma NewRunUnique(runs: seq<Run>, shorter: seq<Run>, hops: seq<Hop>)
    requires |hops| > 0 && shorter == Runs(hops[..|hops| - 1]) && Flatten(shorter) == hops[..|hops| - 1]
    requires runs == shorter + [[Last(hops)]] && AllSeparate(runs)
    ensures runs == Runs(hops)
  {
    var m, n := |shorter|, |hops| - 1;
    if n > 0 {
      FlattenKnown(shorter);
      assert hops[..n][n - 1] == hops[n - 1];
      assert Separate(runs[m - 1], runs[m]);
    }
    hide Flatten, Compatible, AllSeparate;
  }

  /** The last hop prolongs the last run: it fits its neighbour. */
  lemma LongerRunUnique(runs: seq<Run>, shorter: seq<Run>, hops: seq<Hop>)
    requires |hops| > 1 && shorter == Runs(hops[..|hops| - 1]) && Flatten(shorter) == hops[..|hops| - 1]
    requires |shorter| == |runs| > 0 && shorter[..|runs| - 1] == runs[..|runs| - 1]
    requires Last(runs) == Last(shorter) + [Last(hops)]
    ensures runs == Runs(hops)
  {
    FlattenKnown(shorter);
    ChainEndFits(Last(runs));
    LastTwo(Last(runs), Last(shorter), hops);
    FrontAndLast(runs);
    hide *;
    RunsProlong(hops, shorter);
  }

  lemma FrontAndLast<T>(xs: seq<T>)
    requires |xs| > 0
    ensures xs == xs[..|xs| - 1] + [Last(xs)]
  {
  }

  lemma LastTwo(longer: seq<Hop>, run: seq<Hop>, hops: seq<Hop>)
    requires |run| > 0 && |hops| > 1 && longer == run + [Last(hops)]
    ensures |longer| > 1 && longer[|longer| - 2] == Last(run) && longer[|longer| - 1] == Last(hops)
    ensures Last(hops[..|hops| - 1]) == hops[|hops| - 2]
  {
  }

  lemma ChainEndFits(run: Run)
    requires |run| > 1
    ensures Compatible(run[|run| - 2], run[|run| - 1])
  {
    hide Compatible;
  }

  lemma RunsProlong(hops: seq<Hop>, shorter: seq<Run>)
    requires |hops| > 1 && shorter == Runs(hops[..|hops| - 1]) && |shorter| > 0
    requires Compatible(hops[|hops| - 2], Last(hops)) && Last(Last(shorter)) == hops[|hops| - 2]
    ensures Compatible(Last(Last(shorter)), Last(hops))
    ensures Runs(hops) == shorter[..|shorter| - 1] + [Prolong(Last(shorter), Last(hops))]
  {
    hide Compatible;
  }

  /** There is only one way to cut a route into maximal runs. */
  lemma {:induction false} MaximalRunsUnique(runs: seq<Run>, hops: seq<Hop>)
    requires MaximalRuns(runs, hops)
    ensures runs == Runs(hops)
    decreases |hops|
  {
    if |hops| > 0 {
      var n := |hops| - 1;
      var shorter := MaximalRunsDrop(runs, hops);
      MaximalRunsUnique(shorter, hops[..n]);
      hide Runs, Flatten, Compatible;
      if |Last(runs)| == 1 {
        NewRunUnique(runs, shorter, hops);
      } else {
        LongerRunIsLong(runs, hops);
        LongerRunUnique(runs, shorter, hops);
      }
    } else if |runs| > 0 {
      FlattenKnown(runs);
    }
  }

  lemma LongerRunIsLong(runs: seq<Run>, hops: seq<Hop>)
    requires Flatten(runs) == hops && |runs| > 0 && |Last(runs)| != 1
    ensures |hops| > 1
  {
    FlattenKnown(runs);
  }

  // ---------- Greedy merging agrees with the runs ----------

  /** Testing a hop against the merged predecessor is testing it against the original neighbour. */
  lemma {:induction false} CollapseActsAsLast(run: Run)
    ensures Collapse(run).lane == Last(run).lane && Collapse(run).bridge == Last(run).bridge
    ensures Collapse(run).toVault == Last(run).toVault && Collapse(run).fromVault == run[0].fromVault
  {
    ChainSharesLane(run);
  }

  lemma {:induction false} ChainSharesLane(hops: seq<Hop>)
    requires Chain(hops)
    ensures hops[0].lane == Last(hops).lane && hops[0].bridge == Last(hops).bridge
  {
    if |hops| > 1 {
      var n := |hops| - 1;
      assert Compatible(hops[n - 1], hops[n]);
      ChainSharesLane(hops[..n]);
    }
  }

  /** The hop that replaces the merged predecessor when its neighbour fits. */
  function Absorb(prev: Hop, next: Hop): Hop {
    prev.(toVault := next.toVault, amountHint := next.amountHint, priority := Max(prev.priority, next.priority))
  }

  lemma {:induction false} ProlongAbsorbs(run: Run, hop: Hop)
    requires Compatible(Last(run), hop)
    ensures Collapse(Prolong(run, hop)) == Absorb(Collapse(run), hop)
  {
    assert (run + [hop])[..|run|] == run;
  }

  /** One turn of the greedy loop: absorb the hop into the last merged one, or append it. */
  function MergeInto(done: seq<Hop>, hop: Hop): seq<Hop> {
    if |done| > 0 && Compatible(Last(done), hop)
    then done[..|done| - 1] + [Absorb(Last(done), hop)]
    else done + [hop]
  }

  function Greedy(hops: seq<Hop>): seq<Hop> {
    if |hops| == 0 then [] else MergeInto(Greedy(hops[..|hops| - 1]), Last(hops))
  }

  lemma {:induction false} MergedStep(hops: seq<Hop>, i: nat)
    requires i < |hops|
    ensures Merged(hops[..i + 1]) == MergeInto(Merged(hops[..i]), hops[i])
  {
    var runs := Runs(hops[..i]);
    assert hops[..i + 1][..i] == hops[..i];
    if i > 0 {
      CollapseActsAsLast(Last(runs));
      if Compatible(hops[i - 1], hops[i]) {
        ProlongAbsorbs(Last(runs), hops[i]);
        CollapseAllAppend(runs[..|runs| - 1], Prolong(Last(runs), hops[i]));
        assert CollapseAll(runs)[..|runs| - 1] == CollapseAll(runs[..|runs| - 1]);
      } else {
        CollapseAllAppend(runs, [hops[i]]);
      }
    } else {
      CollapseAllAppend(runs, [hops[i]]);
    }
  }

  /** Merging greedily, hop by hop, gives one hop per maximal run. */
  lemma {:induction false} GreedyIsMerged(hops: seq<Hop>)
    ensures Greedy(hops) == Merged(hops)
  {
    if |hops| > 0 {
      var n := |hops| - 1;
      GreedyIsMerged(hops[..n]);
      MergedStep(hops, n);
      assert hops[..n + 1] == hops;
    }
  }

  lemma {:induction false} CollapseAllAppend(runs: seq<Run>, run: Run)
    ensures CollapseAll(runs + [run]) == CollapseAll(runs) + [Collapse(run)]
  {
    assert (runs + [run])[..|runs|] == runs;
  }

  /** The loop body: edits the last occupied slot in place, or fills the next one. */
  method MergeHop(buffer: array<Hop>, count: nat, next: Hop) returns (occupied: nat)
    requires count < buffer.Length
    modifies buffer
    ensures count <= occupied <= count + 1
    ensures buffer[..occupied] == MergeInto(old(buffer[..count]), next)
  {
    if count > 0 && Compatible(buffer[count - 1], next) {
      var prev := buffer[count - 1];
      prev := prev.(toVault := next.toVault);
      prev := prev.(amountHint := next.amountHint);
      if next.priority > prev.priority {
        prev := prev.(priority := next.priority);
      }
      buffer[count - 1] := prev;
      return count;
    }
    buffer[count] := next;
    occupied := count + 1;
  }

  /** In-place compaction over the eight-slot hop buffer of a copied plan. */
  method CompactHops(hops: seq<Hop>, buffer: array<Hop>) returns (count: nat, removed: nat)
    requires |hops| <= MAX_ROUTE_HOPS <= buffer.Length
    modifies buffer
    ensures count <= buffer.Length && buffer[..count] == Merged(hops)
    ensures count + removed == |hops|
  {
    count, removed := 0, 0;
    for i := 0 to |hops|
      invariant count <= i && count + removed == i
      invariant buffer[..count] == Greedy(hops[..i])
    {
      assert hops[..i + 1][..i] == hops[..i];
      var occupied := MergeHop(buffer, count, hops[i]);
      if occupied == count {
        removed := removed + 1;
      }
      count := occupied;
    }
    assert hops[..|hops|] == hops;
    GreedyIsMerged(hops);
  }

  /** What compaction returns for a plan. */
  function Compact(digest: Plan -> Digest, plan: Plan): Result<CompactedPlan> {
    if |plan.hops| > MAX_ROUTE_HOPS then Failure(ErrArgument)
    else
      var merged := Merged(plan.hops);
      var lane := if |merged| > 0 then Last(merged).lane else plan.settlementLane;
      var compacted := plan.(hops := merged, settlementLane := lane);
      MergedCounts(plan.hops);
      Success(CompactedPlan(
                compacted, digest(plan), digest(compacted), compacted.beneficiary, lane, |plan.hops| - |merged|))
  }

  method PlanCompact(digest: Plan -> Digest, plan: Plan) returns (r: Result<CompactedPlan>)
    ensures r == Compact(digest, plan)
  {
    if |plan.hops| > MAX_ROUTE_HOPS {
      return Failure(ErrArgument);
    }
    var before := digest(plan);
    var buffer := new Hop[MAX_ROUTE_HOPS](_ => ZERO_HOP);
    var count, removed := CompactHops(plan.hops, buffer);
    var compacted := plan.(hops := buffer[..count]);
    if count > 0 {
      compacted := compacted.(settlementLane := buffer[count - 1].lane);
    }
    r := Success(CompactedPlan(
                   compacted, before, digest(compacted), compacted.beneficiary, compacted.settlementLane, removed));
  }

  // ---------- What compaction guarantees ----------

  lemma {:induction false} MergedCounts(hops: seq<Hop>)
    ensures |Merged(hops)| <= |hops|
    ensures |hops| > 0 ==> |Merged(hops)| > 0 && Last(Merged(hops)).lane == Last(hops).lane
  {
    RunsAreMaximal(hops);
    FlattenIsLong(Runs(hops));
    if |hops| > 0 {
      CollapseActsAsLast(Last(Runs(hops)));
    }
  }

  lemma {:induction false} FlattenIsLong(runs: seq<Run>)
    ensures |runs| <= |Flatten(runs)|
  {
    if |runs| > 0 {
      FlattenIsLong(runs[..|runs| - 1]);
    }
  }

  predicate Irreducible(hops: seq<Hop>) {
    forall i | 0 < i < |hops| :: !Compatible(hops[i - 1], hops[i])
  }

  /** No two neighbours of a compacted route can be merged again. */
  lemma {:induction false} MergedIsIrreducible(hops: seq<Hop>)
    ensures Irreducible(Merged(hops))
  {
    RunsAreMaximal(hops);
    var runs := Runs(hops);
    forall i | 0 < i < |runs|
      ensures !Compatible(Merged(hops)[i - 1], Merged(hops)[i])
    {
      assert Separate(runs[i - 1], runs[i]);
      CollapseActsAsLast(runs[i - 1]);
      CollapseActsAsLast(runs[i]);
    }
  }

  /** A route is a fixed point of compaction exactly when no neighbours fit. */
  lemma {:induction false} CompactionFixedPoints(hops: seq<Hop>)
    ensures Merged(hops) == hops <==> Irreducible(hops)
  {
    if Merged(hops) == hops {
      MergedIsIrreducible(hops);
    }
    if Irreducible(hops) {
      IrreducibleStays(hops);
    }
  }

  lemma {:induction false} IrreducibleStays(hops: seq<Hop>)
    requires Irreducible(hops)
    ensures Merged(hops) == hops
  {
    if |hops| > 0 {
      var n := |hops| - 1;
      IrreducibleStays(hops[..n]);
      MergedStep(hops, n);
      assert hops[..n + 1] == hops;
      assert hops == hops[..n] + [hops[n]];
    }
  }

  lemma {:induction false} CompactionIdempotent(hops: seq<Hop>)
    ensures Merged(Merged(hops)) == Merged(hops)
  {
    MergedIsIrreducible(hops);
    CompactionFixedPoints(Merged(hops));
  }

  /** Compaction of any plan is the collapse of any cut of its route into maximal runs. */
  lemma {:induction false} CompactionIsMaximalRuns(digest: Plan -> Digest, plan: Plan, runs: seq<Run>)
    requires |plan.hops| <= MAX_ROUTE_HOPS
    requires MaximalRuns(runs, plan.hops)
    ensures Compact(digest, plan).Success?
    ensures var c := Compact(digest, plan).value;
            && c.plan.hops == CollapseAll(runs)
            && c.effectiveLane == (if |plan.hops| > 0 then Last(plan.hops).lane else plan.settlementLane)
            && c.plan == plan.(hops := CollapseAll(runs), settlementLane := c.effectiveLane)
            && c.digestBefore == digest(plan) && c.digestAfter == digest(c.plan)
            && |c.plan.hops| + c.removedHops == |plan.hops|
            && c.effectiveBeneficiary == plan.beneficiary
            && Irreducible(c.plan.hops)
  {
    MaximalRunsUnique(runs, plan.hops);
    MergedCounts(plan.hops);
    MergedIsIrreducible(plan.hops);
  }

  lemma {:induction false} TopIsLargest(run: seq<Hop>)
    requires |run| > 0
    ensures forall i | 0 <= i < |run| :: run[i].priority <= TopPriority(run)
    ensures exists i | 0 <= i < |run| :: run[i].priority == TopPriority(run)
  {
    if |run| > 1 {
      var n := |run| - 1;
      TopIsLargest(run[..n]);
      var i :| 0 <= i < n && run[..n][i].priority == TopPriority(run[..n]);
      assert run[i] == run[..n][i] && run[n] == Last(run);
      forall j | 0 <= j < |run|
        ensures run[j].priority <= TopPriority(run)
      {
        assert j < n ==> run[j] == run[..n][j];
      }
      assert run[if TopPriority(run) == TopPriority(run[..n]) then i else n].priority == TopPriority(run);
    } else {
      assert run[0].priority == TopPriority(run);
    }
  }

  /** A run goes from vault to vault on one lane over one bridge. The hop it becomes leads from where it starts to where
      it ends on that lane and bridge, with the first hop's weight, the last hop's amount, and the highest priority. */
  lemma {:induction false} RunBecomesHop(run: Run)
    ensures forall i | 0 < i < |run| :: run[i].fromVault == run[i - 1].toVault
    ensures forall i | 0 <= i < |run| :: run[i].lane == run[0].lane && run[i].bridge == run[0].bridge
    ensures var hop, last := Collapse(run), run[|run| - 1];
            && hop == Hop(run[0].lane, run[0].fromVault, last.toVault, run[0].bridge, last.amountHint, run[0].weightBps,
                          hop.priority)
            && (forall i | 0 <= i < |run| :: run[i].priority <= hop.priority)
            && (exists i | 0 <= i < |run| :: run[i].priority == hop.priority)
  {
    TopIsLargest(run);
    assert forall i | 0 < i < |run| :: Compatible(run[i - 1], run[i]);
    SameThroughout(run, |run|);
    hide TopPriority;
  }

  lemma {:induction false} SameThroughout(run: Run, n: nat)
    requires n <= |run|
    ensures forall i | 0 <= i < n :: run[i].lane == run[0].lane && run[i].bridge == run[0].bridge
  {
    if n > 1 {
      SameThroughout(run, n - 1);
      assert Compatible(run[n - 2], run[n - 1]);
    }
  }

  /** Two runs of a cut are two because the next does not start where the last one ends, or changes lane or bridge. */
  lemma {:induction false} CutsHaveReasons(runs: seq<Run>, hops: seq<Hop>, i: nat)
    requires MaximalRuns(runs, hops) && 0 < i < |runs|
    ensures var left, right := Last(runs[i - 1]), runs[i][0];
            left.toVault != right.fromVault || left.lane != right.lane || left.bridge != right.bridge
  {
    assert Separate(runs[i - 1], runs[i]);
  }

  /** Compacting a compacted plan changes nothing and removes nothing. */
  lemma {:induction false} CompactTwice(digest: Plan -> Digest, plan: Plan)
    requires Compact(digest, plan).Success?
    ensures var c := Compact(digest, plan).value;
            && Compact(digest, c.plan).Success?
            && Compact(digest, c.plan).value.plan == c.plan
            && Compact(digest, c.plan).value.removedHops == 0
            && Compact(digest, c.plan).value.effectiveLane == c.effectiveLane
  {
    MergedCounts(plan.hops);
    CompactionIdempotent(plan.hops);
  }

  // ---------- Flow ----------

  /** What a hop takes out of, or brings into, a vault. */
  function HopOut(vault: Digest): Hop -> nat {
    (hop: Hop) => if hop.fromVault == vault then hop.amountHint else 0
  }

  function HopIn(vault: Digest): Hop -> nat {
    (hop: Hop) => if hop.toVault == vault then hop.amountHint else 0
  }

  function NetFlow(hops: seq<Hop>, vault: Digest): int {
    Sum(hops, HopOut(vault)) - Sum(hops, HopIn(vault))
  }

  function At(here: bool): int {
    if here then 1 else 0
  }

  /** How far the amounts inside one run drift from hop to hop, as seen at one vault: each change of amount counts at
      the junction where it happens and against the run's source. */
  function Drift(run: seq<Hop>, vault: Digest): int
    requires |run| > 0
  {
    if |run| == 1 then 0
    else
      var n := |run| - 1;
      Drift(run[..n], vault)
      + (run[n].amountHint - run[n - 1].amountHint)
      * (At(run[n].fromVault == vault) - At(run[0].fromVault == vault))
  }

  function TotalDrift(runs: seq<Run>, vault: Digest): int {
    if |runs| == 0 then 0 else TotalDrift(runs[..|runs| - 1], vault) + Drift(Last(runs), vault)
  }

  lemma {:induction false} NetFlowConcat(xs: seq<Hop>, ys: seq<Hop>, vault: Digest)
    ensures NetFlow(xs + ys, vault) == NetFlow(xs, vault) + NetFlow(ys, vault)
  {
    SumConcat(xs, ys, HopOut(vault));
    SumConcat(xs, ys, HopIn(vault));
  }

  lemma {:induction false} NetFlowSingle(hop: Hop, vault: Digest)
    ensures NetFlow([hop], vault) == hop.amountHint * (At(hop.fromVault == vault) - At(hop.toVault == vault))
  {
    assert [hop] == [] + [hop];
    SumAppend([], hop, HopOut(vault));
    SumAppend([], hop, HopIn(vault));
  }

  lemma {:induction false} RunFlow(run: Run, vault: Digest)
    ensures NetFlow(run, vault)
         == Last(run).amountHint * (At(run[0].fromVault == vault) - At(Last(run).toVault == vault))
            + Drift(run, vault)
  {
    hide NetFlow;
    if |run| == 1 {
      NetFlowSingle(run[0], vault);
      assert run == [run[0]];
    } else {
      RunFlow(Front(run), vault);
      LastJoins(run, vault);
      JunctionCancels(Last(Front(run)).amountHint, Last(run).amountHint, At(run[0].fromVault == vault),
                      At(Last(run).fromVault == vault), At(Last(run).toVault == vault));
    }
  }

  function Front(run: Run): Run
    requires |run| > 1
  {
    assert Chain(run[..|run| - 1]);
    run[..|run| - 1]
  }

  lemma {:induction false} LastJoins(run: Run, vault: Digest)
    requires |run| > 1
    ensures NetFlow(run, vault)
         == NetFlow(Front(run), vault)
            + Last(run).amountHint * (At(Last(run).fromVault == vault) - At(Last(run).toVault == vault))
    ensures Front(run)[0] == run[0] && Last(Front(run)).toVault == Last(run).fromVault
  {
    var n := |run| - 1;
    assert Compatible(run[n - 1], run[n]);
    assert run == Front(run) + [run[n]];
    hide NetFlow;
    NetFlowSingle(run[n], vault);
    NetFlowConcat(Front(run), [run[n]], vault);
  }

  lemma JunctionCancels(a: int, b: int, source: int, junction: int, target: int)
    ensures a * (source - junction) + b * (junction - target)
         == b * (source - target) + (b - a) * (junction - source)
  {
  }

  /** Compaction moves the net flow of every vault by exactly the drift inside the merged runs. */
  lemma {:induction false} FlowOfRuns(runs: seq<Run>, vault: Digest)
    ensures NetFlow(Flatten(runs), vault) == NetFlow(CollapseAll(runs), vault) + TotalDrift(runs, vault)
  {
    if |runs| > 0 {
      var m := |runs| - 1;
      FlowOfRuns(runs[..m], vault);
      RunFlow(runs[m], vault);
      NetFlowSingle(Collapse(runs[m]), vault);
      NetFlowConcat(Flatten(runs[..m]), runs[m], vault);
      NetFlowConcat(CollapseAll(runs[..m]), [Collapse(runs[m])], vault);
    }
  }

  /** Compaction of a whole route: the flow at each vault, before and after. */
  lemma {:induction false} CompactionFlow(hops: seq<Hop>, vault: Digest)
    ensures NetFlow(hops, vault) == NetFlow(Merged(hops), vault) + TotalDrift(Runs(hops), vault)
  {
    RunsAreMaximal(hops);
    FlowOfRuns(Runs(hops), vault);
  }

  predicate EvenRun(run: seq<Hop>) {
    forall i | 0 < i < |run| :: run[i].amountHint == run[i - 1].amountHint
  }

  lemma {:induction false} EvenRunHasNoDrift(run: seq<Hop>, vault: Digest)
    requires |run| > 0 && EvenRun(run)
    ensures Drift(run, vault) == 0
  {
    if |run| > 1 {
      var n := |run| - 1;
      EvenRunHasNoDrift(run[..n], vault);
      assert run[n].amountHint == run[n - 1].amountHint;
    }
  }

  /** When the hops of each merged run carry equal amounts, compaction leaves the net flow at every vault as it was. */
  lemma {:induction false} CompactionPreservesFlow(hops: seq<Hop>, vault: Digest)
    requires forall i | 0 <= i < |Runs(hops)| :: EvenRun(Runs(hops)[i])
    ensures NetFlow(Merged(hops), vault) == NetFlow(hops, vault)
  {
    CompactionFlow(hops, vault);
    NoTotalDrift(Runs(hops), vault);
  }

  lemma {:induction false} NoTotalDrift(runs: seq<Run>, vault: Digest)
    requires forall i | 0 <= i < |runs| :: EvenRun(runs[i])
    ensures TotalDrift(runs, vault) == 0
  {
    if |runs| > 0 {
      NoTotalDrift(runs[..|runs| - 1], vault);
      assert EvenRun(Last(runs));
      EvenRunHasNoDrift(Last(runs), vault);
    }
  }

  lemma {:induction false} PairMerges(first: Hop, second: Hop)
    requires Compatible(first, second)
    ensures Merged([first, second]) == [Absorb(first, second)]
  {
    var hops := [first, second];
    assert hops[..1] == [first] && [first][..0] == [];
    GreedyIsMerged(hops);
    assert Greedy([first]) == [first];
  }

  lemma {:induction false} PairFlowAt(first: Hop, second: Hop, vault: Digest)
    requires Compatible(first, second)
    ensures NetFlow([first, second], vault) - NetFlow(Merged([first, second]), vault)
         == (first.amountHint - second.amountHint) * (At(first.fromVault == vault) - At(first.toVault == vault))
  {
    PairMerges(first, second);
    assert [first, second] == [first] + [second];
    hide NetFlow, Merged, At;
    NetFlowConcat([first], [second], vault);
    NetFlowSingle(first, vault);
    NetFlowSingle(second, vault);
    NetFlowSingle(Absorb(first, second), vault);
    var source, junction := At(first.fromVault == vault), At(first.toVault == vault);
    PairCancels(first.amountHint, second.amountHint, source, junction, At(second.toVault == vault));
  }

  lemma PairCancels(a: int, b: int, source: int, junction: int, target: int)
    ensures a * (source - junction) + b * (junction - target) - b * (source - target) == (a - b) * (source - junction)
  {
  }

  /** Merging two hops keeps the flow everywhere exactly when they carry the same amount or the first goes nowhere. */
  lemma {:induction false} PairFlowPreservedIff(first: Hop, second: Hop)
    requires Compatible(first, second)
    ensures (forall vault :: NetFlow(Merged([first, second]), vault) == NetFlow([first, second], vault))
       <==> first.amountHint == second.amountHint || first.fromVault == first.toVault
  {
    hide NetFlow, Merged, Compatible;
    forall vault
      ensures NetFlow([first, second], vault) - NetFlow(Merged([first, second]), vault)
           == (first.amountHint - second.amountHint) * (At(first.fromVault == vault) - At(first.toVault == vault))
    {
      PairFlowAt(first, second, vault);
    }
    if first.amountHint != second.amountHint && first.fromVault != first.toVault {
      assert NetFlow([first, second], first.fromVault) - NetFlow(Merged([first, second]), first.fromVault)
          == first.amountHint - second.amountHint;
    }
  }
}
