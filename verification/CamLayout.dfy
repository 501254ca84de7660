/**
 Attention token layouts around Async CAM: cutting the parent batch into stage tensors,
 laying them out over the tensor-parallel ranks, and restoring the parent layout.

 All ranks run in lock step: a `Group` holds the rows of every rank, and a method does on
 each rank what the Python code does on one, so an all-gather is the concatenation of the group.
 */
module CamLayout {
  import opened Options
  import opened Arith
  import opened Rows
  import opened StagePlanner

  /** The first guard that fires, where the Python code raises. */
  datatype Guard =
    | ParentNotShardable
    | HiddenRows
    | ResidualRows
    | PositionRows
    | InputIdRows
    | StageNotShardable
    | OutputCount
    | StageOutputRows
    | GatheredRows
    | MixedResiduals
    | RouteRows
    | PayloadRows

  datatype Checked<+T> = Fine(value: T) | Raised(guard: Guard)

  /** `attentionPlans` counts the per-stage attention metadata. */
  datatype UbatchPlan = UbatchPlan(attentionPlans: int, stages: seq<Stage>, parentTokens: int, sequenceParallel: bool)

  // ------------------------------------------------------- plan validation

  /** Contiguous non-empty slices from token 0, each inside its extent, all inside the parent. */
  ghost predicate WellFormed(p: UbatchPlan) {
    && |p.stages| > 0 && p.attentionPlans == |p.stages|
    && ContiguousTo(p.stages, |p.stages|)
    && p.parentTokens >= Tokens(p)
  }

  ghost predicate ContiguousTo(stages: seq<Stage>, n: nat)
    requires n <= |stages|
  {
    forall i :: 0 <= i < n ==> Follows(stages, i)
  }

  /** Stage `i` starts where the previous one stops and fits its extent. */
  ghost predicate Follows(stages: seq<Stage>, i: nat)
    requires i < |stages|
  {
    && stages[i].tokenStart == (if i == 0 then 0 else stages[i - 1].tokenStop)
    && 0 < stages[i].ActualTokens() <= stages[i].inputTokens
  }

  /** Real tokens of the batch. */
  function Tokens(p: UbatchPlan): int
    requires |p.stages| > 0
  {
    p.stages[|p.stages| - 1].tokenStop
  }

  method ValidatePlan(p: UbatchPlan) returns (ok: bool)
    ensures ok <==> WellFormed(p)
    ensures ok <==>
              && |p.stages| > 0 && p.attentionPlans == |p.stages|
              && p.stages[0].tokenStart == 0
              && (forall i :: 0 < i < |p.stages| ==> p.stages[i].tokenStart == p.stages[i - 1].tokenStop)
              && (forall i :: 0 <= i < |p.stages| ==>
                    0 < p.stages[i].tokenStop - p.stages[i].tokenStart <= p.stages[i].inputTokens)
              && p.parentTokens >= p.stages[|p.stages| - 1].tokenStop
  {
    if |p.stages| == 0 || p.attentionPlans != |p.stages| {
      return false;
    }
    var expectedStart := 0;
    for i := 0 to |p.stages|
      invariant ContiguousTo(p.stages, i)
      invariant expectedStart == if i == 0 then 0 else p.stages[i - 1].tokenStop
    {
      var stage := p.stages[i];
      assert WellFormed(p) ==> Follows(p.stages, i);
      assert i > 0 ==> expectedStart == p.stages[i - 1].tokenStop;
      if stage.tokenStart != expectedStart || stage.ActualTokens() <= 0 {
        return false;
      }
      if stage.ActualTokens() > stage.inputTokens {
        return false;
      }
      expectedStart := stage.tokenStop;
    }
    FollowsMeans(p.stages);
    return p.parentTokens >= expectedStart;
  }

  lemma FollowsMeans(stages: seq<Stage>)
    ensures ContiguousTo(stages, |stages|) <==>
            && (|stages| > 0 ==> stages[0].tokenStart == 0)
            && (forall i :: 0 < i < |stages| ==> stages[i].tokenStart == stages[i - 1].tokenStop)
            && (forall i :: 0 <= i < |stages| ==> 0 < stages[i].tokenStop - stages[i].tokenStart <= stages[i].inputTokens)
  {
    if ContiguousTo(stages, |stages|) {
      assert |stages| > 0 ==> Follows(stages, 0);
      forall i | 0 < i < |stages|
        ensures stages[i].tokenStart == stages[i - 1].tokenStop
      {
        assert Follows(stages, i);
      }
      forall i | 0 <= i < |stages|
        ensures 0 < stages[i].tokenStop - stages[i].tokenStart <= stages[i].inputTokens
      {
        assert Follows(stages, i);
      }
    }
  }

  lemma {:induction false} SlicesInBatch(p: UbatchPlan, i: nat)
    requires WellFormed(p) && i < |p.stages|
    ensures 0 <= p.stages[i].tokenStart < p.stages[i].tokenStop <= Tokens(p)
    decreases |p.stages| - i
  {
    StartNonNegative(p, i);
    assert Follows(p.stages, i);
    if i + 1 < |p.stages| {
      assert Follows(p.stages, i + 1);
      SlicesInBatch(p, i + 1);
    }
  }

  lemma {:induction false} StartNonNegative(p: UbatchPlan, i: nat)
    requires WellFormed(p) && i < |p.stages|
    ensures 0 <= p.stages[i].tokenStart
  {
    assert Follows(p.stages, i);
    if i > 0 {
      assert Follows(p.stages, i - 1);
      StartNonNegative(p, i - 1);
    }
  }

  /** What the planner produces is a plan for every parent extent that covers the batch. */
  lemma PlannerPlansAreWellFormed(counts: seq<int>, split: Split, sp: bool, tp: int, parent: int)
    requires StagePlanner.Plan(counts, split, sp, tp).Staged? && parent >= Sum(counts, |counts|)
    ensures var Staged(a, b) := StagePlanner.Plan(counts, split, sp, tp);
            var p := UbatchPlan(2, [a, b], parent, sp);
            && WellFormed(p) && Tokens(p) == Sum(counts, |counts|)
            && (sp ==> Divisible(p, tp))
  {
    hide StagePlanner.Plan, Intersects;
    PlannerCovers(counts, split, sp, tp);
  }

  ghost predicate Divisible(p: UbatchPlan, tp: int)
    requires tp > 0
  {
    forall i :: 0 <= i < |p.stages| ==> p.stages[i].inputTokens % tp == 0
  }

  // -------------------------------------------------------- group layouts

  /** The rows of every tensor-parallel rank, in rank order. */
  type Group<R> = seq<seq<R>>

  /** `rows` as the group holds it: one shard per rank, or a full copy on every rank. */
  function LayOut<R>(rows: seq<R>, tp: int, sp: bool): (g: Group<R>)
    requires tp > 0 && (sp ==> |rows| % tp == 0)
    ensures |g| == tp
  {
    if sp then Shards(rows, tp) else seq(tp, _ => rows)
  }

  function LocalRows(rows: int, tp: int, sp: bool): int
    requires tp > 0
  {
    if sp then rows / tp else rows
  }

  /** The rows a coherent group stands for. */
  function Whole<R>(g: Group<R>, sp: bool): seq<R>
    requires |g| > 0
  {
    if sp then Gather(g) else g[0]
  }

  /** Every rank has `n` rows, and without sequence parallelism all ranks have the same ones. */
  ghost predicate Coherent<R>(g: Group<R>, tp: int, n: int, sp: bool) {
    && |g| == tp
    && (forall r :: 0 <= r < tp ==> |g[r]| == n)
    && (!sp ==> forall r :: 0 <= r < tp ==> g[r] == g[0])
  }

  lemma CoherentSize<R>(g: Group<R>, tp: nat, n: int, sp: bool)
    requires Coherent(g, tp, n, sp)
    ensures |g| == tp
  {
  }

  lemma LaidOutIsCoherent<R>(rows: seq<R>, tp: int, sp: bool)
    requires tp > 0 && (sp ==> |rows| % tp == 0)
    ensures Coherent(LayOut(rows, tp, sp), tp, LocalRows(|rows|, tp, sp), sp)
    ensures Whole(LayOut(rows, tp, sp), sp) == rows
  {
    if sp {
      GatherOfShards(rows, tp);
    }
  }

  lemma CoherentIsLaidOut<R>(g: Group<R>, tp: int, n: nat, sp: bool)
    requires tp > 0 && Coherent(g, tp, n, sp)
    ensures |Whole(g, sp)| == (if sp then tp * n else n) && (sp ==> |Whole(g, sp)| % tp == 0)
    ensures g == LayOut(Whole(g, sp), tp, sp)
  {
    if sp {
      GatherSize(g, n);
      Multiple(tp, n);
      forall r | 0 <= r < tp
        ensures g[r] == LayOut(Gather(g), tp, sp)[r]
      {
        ShardOfGather(g, n, r);
      }
    }
  }

  /** Rank `r` holds at place `j` the row at that place of its shard, or of its copy. */
  lemma LayOutAt<R>(rows: seq<R>, tp: nat, sp: bool, r: nat, j: nat)
    requires r < tp && (sp ==> |rows| % tp == 0) && j < if sp then |rows| / tp else |rows|
    ensures |LayOut(rows, tp, sp)[r]| == if sp then |rows| / tp else |rows|
    ensures var i := if sp then r * (|rows| / tp) + j else j;
            0 <= i < |rows| && LayOut(rows, tp, sp)[r][j] == rows[i]
  {
    if sp {
      ShardFits(|rows|, tp, r);
    }
  }

  /** The row at place `i` of what a coherent group stands for: the ranks' rows in rank order, or any rank's copy. */
  lemma WholeAt<R>(g: Group<R>, tp: nat, n: nat, sp: bool, r: nat, j: nat)
    requires r < tp && j < n && Coherent(g, tp, n, sp)
    ensures |Whole(g, sp)| == if sp then tp * n else n
    ensures var i := if sp then r * n + j else j;
            0 <= i < |Whole(g, sp)| && Whole(g, sp)[i] == g[r][j]
  {
    if sp {
      GatherSize(g, n);
      GatherBlock(g, n, r);
      assert (r + 1) * n == r * n + n;
      assert Gather(g)[r * n + j] == Gather(g)[r * n..(r + 1) * n][j];
    } else {
      assert g[r] == g[0];
    }
  }

  // ------------------------------------------------------------ stage inputs

  /** One stage's rows cut from the whole batch and padded to the stage's extent. */
  function StageRows<R>(whole: seq<R>, st: Stage, z: R): (r: seq<R>)
    requires 0 <= st.tokenStart <= st.tokenStop <= |whole| && st.ActualTokens() <= st.inputTokens
    ensures |r| == st.inputTokens
  {
    Pad(whole[st.tokenStart..st.tokenStop], st.inputTokens, z)
  }

  lemma StageRowsAt<R>(whole: seq<R>, st: Stage, z: R, i: nat)
    requires 0 <= st.tokenStart <= st.tokenStop <= |whole| && st.tokenStop - st.tokenStart <= st.inputTokens
    requires i < st.inputTokens
    ensures StageRows(whole, st, z)[i] == if i < st.tokenStop - st.tokenStart then whole[st.tokenStart + i] else z
  {
    var cut := whole[st.tokenStart..st.tokenStop];
    if i < |cut| {
      assert StageRows(whole, st, z)[i] == StageRows(whole, st, z)[..|cut|][i];
    }
  }

  /** What rank `r` holds at place `j` of a stage: the token at that place of the stage, or a zero row. */
  lemma StageRowOnRank<R>(whole: seq<R>, st: Stage, tp: nat, sp: bool, z: R, r: nat, j: nat)
    requires SliceFits(st, |whole|) && r < tp && (sp ==> st.inputTokens % tp == 0)
    requires j < if sp then st.inputTokens / tp else st.inputTokens
    ensures j < |LayOut(StageRows(whole, st, z), tp, sp)[r]|
    ensures var i := if sp then r * (st.inputTokens / tp) + j else j;
            && 0 <= i < st.inputTokens
            && LayOut(StageRows(whole, st, z), tp, sp)[r][j]
               == (if i < st.tokenStop - st.tokenStart then whole[st.tokenStart + i] else z)
  {
    hide LayOut, StageRows;
    var rows, i := StageRows(whole, st, z), if sp then r * (st.inputTokens / tp) + j else j;
    LayOutAt(rows, tp, sp, r, j);
    assert i == if sp then r * (|rows| / tp) + j else j;
    StageRowsAt(whole, st, z, i);
  }

  ghost predicate SlicesFit(stages: seq<Stage>, rows: int) {
    forall i :: 0 <= i < |stages| ==> SliceFits(stages[i], rows)
  }

  ghost predicate SliceFits(st: Stage, rows: int) {
    0 <= st.tokenStart <= st.tokenStop <= rows && st.ActualTokens() <= st.inputTokens
  }

  lemma PlanSlicesFit(p: UbatchPlan)
    requires WellFormed(p)
    ensures 0 <= Tokens(p) <= p.parentTokens
    ensures SlicesFit(p.stages, Tokens(p)) && SlicesFit(p.stages, p.parentTokens)
  {
    SlicesInBatch(p, |p.stages| - 1);
    forall i | 0 <= i < |p.stages|
      ensures SliceFits(p.stages[i], Tokens(p))
    {
      SlicesInBatch(p, i);
      assert Follows(p.stages, i);
    }
  }

  /** The group holds enough rows to cut the stage, and the stage divides over the ranks. */
  ghost predicate Cuttable<R>(g: Group<R>, st: Stage, sp: bool)
    requires |g| > 0
  {
    && (sp ==> st.inputTokens % |g| == 0 && SliceFits(st, |Gather(g)|))
    && (!sp ==> forall r :: 0 <= r < |g| ==> SliceFits(st, |g[r]|))
  }

  /** One stage of the group's tensor, on every rank. */
  function Cut<R>(g: Group<R>, st: Stage, sp: bool, z: R): (c: Group<R>)
    requires |g| > 0 && Cuttable(g, st, sp)
    ensures |c| == |g|
  {
    if sp then Shards(StageRows(Gather(g), st, z), |g|)
    else seq(|g|, r requires 0 <= r < |g| => StageRows(g[r], st, z))
  }

  lemma CutIsLaidOut<R>(g: Group<R>, tp: int, n: nat, st: Stage, sp: bool, z: R)
    requires tp > 0 && Coherent(g, tp, n, sp) && Cuttable(g, st, sp)
    ensures SliceFits(st, |Whole(g, sp)|)
    ensures Cut(g, st, sp, z) == LayOut(StageRows(Whole(g, sp), st, z), tp, sp)
  {
    assert sp || g[0] == Whole(g, sp);
  }

  datatype StageInputs<H, R, P> =
    StageInputs(hidden: seq<Group<H>>, residuals: seq<Option<Group<R>>>, positions: seq<Group<P>>)

  datatype Zeros<H, R, P> = Zeros(hidden: H, residual: R, position: P)

  predicate HasRows<R>(g: Group<R>, n: int) {
    forall r :: 0 <= r < |g| ==> |g[r]| == n
  }

  /** The parent batch as the model hands it over. */
  ghost predicate InputsFit<H, R, P>(hidden: Group<H>, residual: Option<Group<R>>, positions: seq<P>, p: UbatchPlan)
    requires |hidden| > 0
  {
    var tp := |hidden|;
    && HasRows(hidden, LocalRows(p.parentTokens, tp, p.sequenceParallel))
    && (residual.Some? ==> HasRows(residual.value, LocalRows(p.parentTokens, tp, p.sequenceParallel)))
    && |positions| == p.parentTokens
    && (p.sequenceParallel ==> tp > 1 && p.parentTokens % tp == 0 && Divisible(p, tp))
  }

  /** Stage `i` of the inputs is stage `i` of the plan cut from each parent tensor. */
  ghost predicate StageBuilt<H, R, P>(v: StageInputs<H, R, P>, i: nat, hidden: Group<H>, residual: Option<Group<R>>,
                                      positions: seq<P>, p: UbatchPlan, zeros: Zeros<H, R, P>)
    requires |hidden| > 0 && (residual.Some? ==> |residual.value| == |hidden|)
    requires i < |v.hidden| == |v.residuals| == |v.positions| <= |p.stages|
  {
    var st, sp := p.stages[i], p.sequenceParallel;
    && Cuttable(hidden, st, sp) && v.hidden[i] == Cut(hidden, st, sp, zeros.hidden)
    && (residual.None? ==> v.residuals[i] == None)
    && (residual.Some? ==> Cuttable(residual.value, st, sp)
                           && v.residuals[i] == Some(Cut(residual.value, st, sp, zeros.residual)))
    && SliceFits(st, |positions|)
    && v.positions[i] == LayOut(StageRows(positions, st, zeros.position), |hidden|, sp)
  }

  lemma ReplicasCut<R>(g: Group<R>, p: UbatchPlan, i: nat)
    requires WellFormed(p) && |g| > 0 && i < |p.stages| && HasRows(g, p.parentTokens)
    ensures Cuttable(g, p.stages[i], false)
  {
    PlanSlicesFit(p);
  }

  lemma ShardsCut<R>(g: Group<R>, p: UbatchPlan, i: nat)
    requires WellFormed(p) && |g| > 0 && i < |p.stages| && p.parentTokens % |g| == 0
    requires HasRows(g, p.parentTokens / |g|) && p.stages[i].inputTokens % |g| == 0
    ensures |Gather(g)| == p.parentTokens && Cuttable(g, p.stages[i], true)
  {
    PlanSlicesFit(p);
    GatherSize(g, p.parentTokens / |g|);
  }

  /**
   build_async_moe_stage_inputs on every rank. `positions` is whole on every rank; with sequence
   parallelism the hidden states and the residual are gathered side by side in one all-gather.
   */
  method BuildStageInputs<H, R, P>(hidden: Group<H>, residual: Option<Group<R>>, positions: seq<P>,
                                   p: UbatchPlan, zeros: Zeros<H, R, P>)
    returns (r: Checked<StageInputs<H, R, P>>)
    requires WellFormed(p) && |hidden| > 0 && (residual.Some? ==> |residual.value| == |hidden|)
    ensures r.Fine? <==> InputsFit(hidden, residual, positions, p)
    ensures r.Fine? <==>
              && var tp := |hidden|;
                 var rows := if p.sequenceParallel then p.parentTokens / tp else p.parentTokens;
              && (forall k :: 0 <= k < tp ==> |hidden[k]| == rows)
              && (residual.Some? ==> forall k :: 0 <= k < tp ==> |residual.value[k]| == rows)
              && |positions| == p.parentTokens
              && (p.sequenceParallel ==>
                    tp > 1 && p.parentTokens % tp == 0 && forall i :: 0 <= i < |p.stages| ==> p.stages[i].inputTokens % tp == 0)
    ensures r.Fine? ==>
              && |r.value.hidden| == |r.value.residuals| == |r.value.positions| == |p.stages|
              && forall i :: 0 <= i < |p.stages| ==> StageBuilt(r.value, i, hidden, residual, positions, p, zeros)
  {
    PlanSlicesFit(p);
    var tp := |hidden|;
    if p.sequenceParallel && (tp <= 1 || p.parentTokens % tp != 0) {
      return Raised(ParentNotShardable);
    }
    var localRows := LocalRows(p.parentTokens, tp, p.sequenceParallel);
    if !HasRows(hidden, localRows) {
      return Raised(HiddenRows);
    }
    if residual.Some? && !HasRows(residual.value, localRows) {
      return Raised(ResidualRows);
    }
    if p.sequenceParallel {
      r := BuildSharded(hidden, residual, positions, p, zeros);
    } else {
      r := BuildReplicated(hidden, residual, positions, p, zeros);
    }
  }

  method BuildReplicated<H, R, P>(hidden: Group<H>, residual: Option<Group<R>>, positions: seq<P>,
                                  p: UbatchPlan, zeros: Zeros<H, R, P>)
    returns (r: Checked<StageInputs<H, R, P>>)
    requires WellFormed(p) && !p.sequenceParallel && |hidden| > 0 && HasRows(hidden, p.parentTokens)
    requires residual.Some? ==> |residual.value| == |hidden| && HasRows(residual.value, p.parentTokens)
    ensures r.Fine? <==> |positions| == p.parentTokens
    ensures r.Fine? ==>
              && |r.value.hidden| == |r.value.residuals| == |r.value.positions| == |p.stages|
              && forall i :: 0 <= i < |p.stages| ==> StageBuilt(r.value, i, hidden, residual, positions, p, zeros)
  {
    if |positions| != p.parentTokens {
      return Raised(PositionRows);
    }
    PlanSlicesFit(p);
    forall i | 0 <= i < |p.stages|
      ensures Cuttable(hidden, p.stages[i], false)
      ensures residual.Some? ==> Cuttable(residual.value, p.stages[i], false)
    {
      ReplicasCut(hidden, p, i);
      if residual.Some? {
        ReplicasCut(residual.value, p, i);
      }
    }
    var n := |p.stages|;
    return Fine(StageInputs(
        seq(n, i requires 0 <= i < n => Cut(hidden, p.stages[i], false, zeros.hidden)),
        seq(n, i requires 0 <= i < n =>
          if residual.None? then None else Some(Cut(residual.value, p.stages[i], false, zeros.residual))),
        seq(n, i requires 0 <= i < n => LayOut(StageRows(positions, p.stages[i], zeros.position), |hidden|, false))));
  }

  method BuildSharded<H, R, P>(hidden: Group<H>, residual: Option<Group<R>>, positions: seq<P>,
                               p: UbatchPlan, zeros: Zeros<H, R, P>)
    returns (r: Checked<StageInputs<H, R, P>>)
    requires WellFormed(p) && p.sequenceParallel && |hidden| > 0 && p.parentTokens % |hidden| == 0
    requires HasRows(hidden, p.parentTokens / |hidden|)
    requires residual.Some? ==> |residual.value| == |hidden| && HasRows(residual.value, p.parentTokens / |hidden|)
    ensures r.Fine? <==> |positions| == p.parentTokens && Divisible(p, |hidden|)
    ensures r.Fine? ==>
              && |r.value.hidden| == |r.value.residuals| == |r.value.positions| == |p.stages|
              && forall i :: 0 <= i < |p.stages| ==> StageBuilt(r.value, i, hidden, residual, positions, p, zeros)
  {
    var tp := |hidden|;
    var allHidden, allResidual := GatherParent(hidden, residual);
    if |positions| != p.parentTokens {
      return Raised(PositionRows);
    }
    PlanSlicesFit(p);
    var v: StageInputs<H, R, P> := StageInputs([], [], []);
    for i := 0 to |p.stages|
      invariant |v.hidden| == |v.residuals| == |v.positions| == i
      invariant forall j :: 0 <= j < i ==> p.stages[j].inputTokens % tp == 0
      invariant forall j :: 0 <= j < i ==> StageBuilt(v, j, hidden, residual, positions, p, zeros)
    {
      var stage := p.stages[i];
      if stage.inputTokens % tp != 0 {
        return Raised(StageNotShardable);
      }
      ShardsCut(hidden, p, i);
      if residual.Some? {
        ShardsCut(residual.value, p, i);
      }
      var stageResidual: Option<Group<R>> :=
        if allResidual.None? then None else Some(Shards(StageRows(allResidual.value, stage, zeros.residual), tp));
      ghost var before := v;
      v := StageInputs(v.hidden + [Shards(StageRows(allHidden, stage, zeros.hidden), tp)],
                       v.residuals + [stageResidual],
                       v.positions + [Shards(StageRows(positions, stage, zeros.position), tp)]);
      forall j | 0 <= j < i
        ensures StageBuilt(v, j, hidden, residual, positions, p, zeros)
      {
        assert StageBuilt(before, j, hidden, residual, positions, p, zeros);
      }
      assert StageBuilt(v, i, hidden, residual, positions, p, zeros);
    }
    return Fine(v);
  }

  /** One all-gather of hidden states and residuals side by side, split again afterwards. */
  method GatherParent<H, R>(hidden: Group<H>, residual: Option<Group<R>>) returns (h: seq<H>, k: Option<seq<R>>)
    requires residual.Some? ==> |residual.value| == |hidden|
    requires residual.Some? ==> forall r :: 0 <= r < |hidden| ==> |residual.value[r]| == |hidden[r]|
    ensures h == Gather(hidden)
    ensures k == if residual.None? then None else Some(Gather(residual.value))
  {
    if residual.None? {
      return Gather(hidden), None;
    }
    var combined := Gather(Combined(hidden, residual.value));
    GatherOfZips(hidden, residual.value, Combined(hidden, residual.value));
    return Firsts(combined), Some(Seconds(combined));
  }

  function Combined<H, R>(hidden: Group<H>, residual: Group<R>): (c: Group<(H, R)>)
    requires |hidden| == |residual| && forall r :: 0 <= r < |hidden| ==> |hidden[r]| == |residual[r]|
    ensures |c| == |hidden| && forall r :: 0 <= r < |c| ==> c[r] == Zip(hidden[r], residual[r])
  {
    seq(|hidden|, r requires 0 <= r < |hidden| => Zip(hidden[r], residual[r]))
  }

  // ----------------------------------------------------------- stage outputs

  ghost predicate RowsMatch<R>(outputs: seq<seq<R>>, stages: seq<Stage>) {
    |outputs| == |stages| && forall i :: 0 <= i < |stages| ==> |outputs[i]| == stages[i].inputTokens
  }

  ghost predicate Trimmable<R>(outputs: seq<seq<R>>, stages: seq<Stage>) {
    |outputs| == |stages| && forall i :: 0 <= i < |stages| ==> 0 <= stages[i].ActualTokens() <= |outputs[i]|
  }

  /** The real rows of each stage, its padding trimmed. */
  function Trims<R>(outputs: seq<seq<R>>, stages: seq<Stage>): (r: seq<seq<R>>)
    requires Trimmable(outputs, stages)
    ensures |r| == |stages| && forall i :: 0 <= i < |stages| ==> r[i] == outputs[i][..stages[i].ActualTokens()]
  {
    seq(|stages|, i requires 0 <= i < |stages| => outputs[i][..stages[i].ActualTokens()])
  }

  lemma PlanTrims<R>(outputs: seq<seq<R>>, p: UbatchPlan)
    requires WellFormed(p) && RowsMatch(outputs, p.stages)
    ensures Trimmable(outputs, p.stages)
  {
    forall i | 0 <= i < |p.stages|
      ensures 0 <= p.stages[i].ActualTokens() <= |outputs[i]|
    {
      assert Follows(p.stages, i);
    }
  }

  method TrimRealStageOutputs<R>(outputs: seq<seq<R>>, p: UbatchPlan) returns (r: Checked<seq<seq<R>>>)
    requires WellFormed(p) && |outputs| == |p.stages|
    ensures r.Fine? <==> RowsMatch(outputs, p.stages)
    ensures r.Fine? ==> Trimmable(outputs, p.stages) && r.value == Trims(outputs, p.stages)
    ensures r.Raised? ==> r.guard == StageOutputRows
  {
    var trimmed: seq<seq<R>> := [];
    for i := 0 to |p.stages|
      invariant |trimmed| == i
      invariant forall j :: 0 <= j < i ==> |outputs[j]| == p.stages[j].inputTokens
      invariant forall j :: 0 <= j < i ==> 0 <= p.stages[j].ActualTokens() <= |outputs[j]|
      invariant forall j :: 0 <= j < i ==> trimmed[j] == outputs[j][..p.stages[j].ActualTokens()]
    {
      assert Follows(p.stages, i);
      if |outputs[i]| != p.stages[i].inputTokens {
        return Raised(StageOutputRows);
      }
      trimmed := trimmed + [outputs[i][..p.stages[i].ActualTokens()]];
    }
    assert Trimmable(outputs, p.stages) && trimmed == Trims(outputs, p.stages);
    return Fine(trimmed);
  }

  /** The real rows of all stages in parent order. */
  function RealRows<R>(outputs: seq<seq<R>>, stages: seq<Stage>): seq<R>
    requires Trimmable(outputs, stages)
  {
    Gather(Trims(outputs, stages))
  }

  lemma {:induction false} RealRowsSize<R>(outputs: seq<seq<R>>, p: UbatchPlan, n: nat)
    requires WellFormed(p) && RowsMatch(outputs, p.stages) && Trimmable(outputs, p.stages) && n <= |p.stages|
    ensures |Gather(Trims(outputs, p.stages)[..n])| == if n == 0 then 0 else p.stages[n - 1].tokenStop
  {
    if n > 0 {
      RealRowsSize(outputs, p, n - 1);
      assert Follows(p.stages, n - 1);
      var trims := Trims(outputs, p.stages);
      assert trims[..n] == trims[..n - 1] + [trims[n - 1]];
      GatherAppend(trims[..n - 1], trims[n - 1]);
    }
  }

  lemma RealRowsCountTokens<R>(outputs: seq<seq<R>>, p: UbatchPlan)
    requires WellFormed(p) && RowsMatch(outputs, p.stages)
    ensures Trimmable(outputs, p.stages) && |RealRows(outputs, p.stages)| == Tokens(p)
  {
    PlanTrims(outputs, p);
    RealRowsSize(outputs, p, |p.stages|);
    assert Trims(outputs, p.stages)[..|p.stages|] == Trims(outputs, p.stages);
  }

  /** The parent tensor: every stage's real rows in order, then zero rows up to the parent extent. */
  function ParentRows<R>(outputs: seq<seq<R>>, p: UbatchPlan, z: R): (r: seq<R>)
    requires WellFormed(p) && RowsMatch(outputs, p.stages)
    ensures |r| == p.parentTokens
  {
    RealRowsCountTokens(outputs, p);
    Pad(RealRows(outputs, p.stages), p.parentTokens, z)
  }

  /** The parent's row at place `q` is the row of the stage that covers `q`, and zero rows follow the real ones. */
  lemma {:induction false} ParentRowsAt<R>(outputs: seq<seq<R>>, p: UbatchPlan, z: R, i: nat, q: nat)
    requires WellFormed(p) && RowsMatch(outputs, p.stages) && q < p.parentTokens && i < |p.stages|
    ensures p.stages[i].tokenStart <= q < p.stages[i].tokenStop ==>
              && q - p.stages[i].tokenStart < |outputs[i]|
              && ParentRows(outputs, p, z)[q] == outputs[i][q - p.stages[i].tokenStart]
    ensures q >= p.stages[|p.stages| - 1].tokenStop ==> ParentRows(outputs, p, z)[q] == z
  {
    RealRowsCountTokens(outputs, p);
    if p.stages[i].tokenStart <= q < p.stages[i].tokenStop {
      var trims, rows := Trims(outputs, p.stages), RealRows(outputs, p.stages);
      assert Follows(p.stages, i);
      SlicesInBatch(p, i);
      RealRowsSize(outputs, p, i);
      GatherAt(trims, i, q - p.stages[i].tokenStart);
      assert ParentRows(outputs, p, z)[q] == ParentRows(outputs, p, z)[..|rows|][q];
    }
  }

  /** What rank `r` holds of every stage. */
  function OnRank<R>(outputs: seq<Group<R>>, r: nat): (o: seq<seq<R>>)
    requires forall i :: 0 <= i < |outputs| ==> r < |outputs[i]|
    ensures |o| == |outputs| && forall i :: 0 <= i < |o| ==> o[i] == outputs[i][r]
  {
    seq(|outputs|, i requires 0 <= i < |outputs| => outputs[i][r])
  }

  /** Every stage gathered over the group. */
  function Gathered<R>(outputs: seq<Group<R>>): (o: seq<seq<R>>)
    ensures |o| == |outputs| && forall i :: 0 <= i < |o| ==> o[i] == Gather(outputs[i])
  {
    seq(|outputs|, i requires 0 <= i < |outputs| => Gather(outputs[i]))
  }

  ghost predicate AllOfSize<R>(outputs: seq<Group<R>>, tp: nat) {
    forall i :: 0 <= i < |outputs| ==> |outputs[i]| == tp
  }

  ghost predicate Restorable<R>(outputs: seq<Group<R>>, p: UbatchPlan, tp: nat)
    requires tp > 0 && AllOfSize(outputs, tp)
  {
    if p.sequenceParallel then RowsMatch(Gathered(outputs), p.stages) && p.parentTokens % tp == 0
    else forall r :: 0 <= r < tp ==> RowsMatch(OnRank(outputs, r), p.stages)
  }

  lemma RestorableMeans<R>(outputs: seq<Group<R>>, p: UbatchPlan, tp: nat)
    requires tp > 0 && AllOfSize(outputs, tp)
    ensures |outputs| == |p.stages| && p.sequenceParallel ==>
              (Restorable(outputs, p, tp) <==>
                 && p.parentTokens % tp == 0
                 && forall i :: 0 <= i < |outputs| ==> |Gather(outputs[i])| == p.stages[i].inputTokens)
    ensures |outputs| == |p.stages| && !p.sequenceParallel ==>
              (Restorable(outputs, p, tp) <==>
                 forall i, k :: 0 <= i < |outputs| && 0 <= k < tp ==> |outputs[i][k]| == p.stages[i].inputTokens)
  {
    if p.sequenceParallel {
      assert forall i :: 0 <= i < |outputs| ==> Gathered(outputs)[i] == Gather(outputs[i]);
    } else if |outputs| == |p.stages| {
      forall i, k | 0 <= i < |outputs| && 0 <= k < tp && Restorable(outputs, p, tp)
        ensures |outputs[i][k]| == p.stages[i].inputTokens
      {
        assert RowsMatch(OnRank(outputs, k), p.stages) && OnRank(outputs, k)[i] == outputs[i][k];
      }
    }
  }

  function Restored<R>(outputs: seq<Group<R>>, p: UbatchPlan, tp: nat, z: R): Group<R>
    requires WellFormed(p) && tp > 0 && AllOfSize(outputs, tp) && Restorable(outputs, p, tp)
  {
    if p.sequenceParallel then Shards(ParentRows(Gathered(outputs), p, z), tp)
    else seq(tp, r requires 0 <= r < tp => ParentRows(OnRank(outputs, r), p, z))
  }

  /** restore_async_moe_stage_outputs on every rank; `outputs[i][r]` is stage `i` on rank `r`. */
  method RestoreStageOutputs<R>(outputs: seq<Group<R>>, p: UbatchPlan, tp: nat, z: R) returns (r: Checked<Group<R>>)
    requires WellFormed(p) && tp > 0 && AllOfSize(outputs, tp)
    ensures r.Fine? <==> |outputs| == |p.stages| && Restorable(outputs, p, tp)
    ensures r.Fine? <==>
              && |outputs| == |p.stages|
              && (p.sequenceParallel ==>
                    && p.parentTokens % tp == 0
                    && forall i :: 0 <= i < |outputs| ==> |Gather(outputs[i])| == p.stages[i].inputTokens)
              && (!p.sequenceParallel ==>
                    forall i, k :: 0 <= i < |outputs| && 0 <= k < tp ==> |outputs[i][k]| == p.stages[i].inputTokens)
    ensures r.Fine? ==> r.value == Restored(outputs, p, tp, z)
  {
    RestorableMeans(outputs, p, tp);
    if |outputs| != |p.stages| {
      return Raised(OutputCount);
    }
    if !p.sequenceParallel {
      var restored: Group<R> := [];
      for rank := 0 to tp
        invariant |restored| == rank
        invariant forall k :: 0 <= k < rank ==> RowsMatch(OnRank(outputs, k), p.stages)
        invariant forall k :: 0 <= k < rank ==> restored[k] == ParentRows(OnRank(outputs, k), p, z)
      {
        var trimmed := TrimRealStageOutputs(OnRank(outputs, rank), p);
        if trimmed.Raised? {
          return Raised(trimmed.guard);
        }
        RealRowsCountTokens(OnRank(outputs, rank), p);
        restored := restored + [Pad(Gather(trimmed.value), p.parentTokens, z)];
      }
      return Fine(restored);
    }
    var all := Gathered(outputs);
    for i := 0 to |all|
      invariant forall j :: 0 <= j < i ==> |all[j]| == p.stages[j].inputTokens
    {
      if |all[i]| != p.stages[i].inputTokens {
        return Raised(GatheredRows);
      }
    }
    var trimmed := TrimRealStageOutputs(all, p);
    if trimmed.Raised? {
      return Raised(trimmed.guard);
    }
    RealRowsCountTokens(all, p);
    var parent := Pad(Gather(trimmed.value), p.parentTokens, z);
    if |parent| % tp != 0 {
      return Raised(ParentNotShardable);
    }
    return Fine(Shards(parent, tp));
  }

  ghost predicate LaidOut<R>(outputs: seq<Group<R>>, wholes: seq<seq<R>>, tp: nat, sp: bool)
    requires tp > 0
  {
    && |outputs| == |wholes|
    && (sp ==> forall i :: 0 <= i < |wholes| ==> |wholes[i]| % tp == 0)
    && forall i :: 0 <= i < |wholes| ==> outputs[i] == LayOut(wholes[i], tp, sp)
  }

  /** Restoring stages that the group holds coherently lays the parent rows out over the group. */
  lemma RestoredIsLaidOut<R>(outputs: seq<Group<R>>, wholes: seq<seq<R>>, p: UbatchPlan, tp: nat, z: R)
    requires WellFormed(p) && tp > 0 && LaidOut(outputs, wholes, tp, p.sequenceParallel)
    requires RowsMatch(wholes, p.stages) && (p.sequenceParallel ==> p.parentTokens % tp == 0)
    ensures AllOfSize(outputs, tp) && Restorable(outputs, p, tp)
    ensures Restored(outputs, p, tp, z) == LayOut(ParentRows(wholes, p, z), tp, p.sequenceParallel)
  {
    if p.sequenceParallel {
      forall i | 0 <= i < |wholes|
        ensures Gathered(outputs)[i] == wholes[i]
      {
        GatherOfShards(wholes[i], tp);
      }
      assert Gathered(outputs) == wholes;
    } else {
      forall r | 0 <= r < tp
        ensures OnRank(outputs, r) == wholes
      {
      }
    }
  }

  // ------------------------------------------------------------- round trip

  ghost predicate AreStages<A, B>(outputs: seq<seq<B>>, f: A -> B, whole: seq<A>, p: UbatchPlan, z: A) {
    && SlicesFit(p.stages, |whole|) && |outputs| == |p.stages|
    && forall i :: 0 <= i < |p.stages| ==> outputs[i] == Map(f, StageRows(whole, p.stages[i], z))
  }

  /** Cutting, mapping every row and restoring keeps the mapped real rows in order. */
  lemma MappedStagesMatch<A, B>(f: A -> B, whole: seq<A>, z: A, outputs: seq<seq<B>>, p: UbatchPlan)
    requires WellFormed(p) && AreStages(outputs, f, whole, p, z)
    ensures RowsMatch(outputs, p.stages) && Trimmable(outputs, p.stages)
  {
    PlanTrims(outputs, p);
  }

  /** One stage further, the gathered real rows reach that stage's stop. */
  lemma NextMappedStage<A, B>(f: A -> B, whole: seq<A>, z: A, trims: seq<seq<B>>, output: seq<B>, st: Stage)
    requires trims != [] && SliceFits(st, |whole|) && output == Map(f, StageRows(whole, st, z))
    requires trims[|trims| - 1] == output[..st.ActualTokens()]
    requires Gather(trims[..|trims| - 1]) == Map(f, whole[..st.tokenStart])
    ensures Gather(trims) == Map(f, whole[..st.tokenStop])
  {
    hide StageRows, Gather, Map;
    var n := |trims| - 1;
    assert trims == trims[..n] + [trims[n]];
    GatherAppend(trims[..n], trims[n]);
    TrimOfStage(f, whole, st, z);
    MapOfPrefix(f, whole, st.tokenStart, st.tokenStop);
  }

  lemma {:induction false} RealRowsOfMappedStages<A, B>(f: A -> B, whole: seq<A>, z: A, outputs: seq<seq<B>>,
                                                        p: UbatchPlan, n: nat)
    requires WellFormed(p) && n <= |p.stages| && AreStages(outputs, f, whole, p, z)
    ensures RowsMatch(outputs, p.stages) && Trimmable(outputs, p.stages)
    ensures var stop := if n == 0 then 0 else p.stages[n - 1].tokenStop;
            0 <= stop <= |whole| && Gather(Trims(outputs, p.stages)[..n]) == Map(f, whole[..stop])
  {
    MappedStagesMatch(f, whole, z, outputs, p);
    if n == 0 {
      assert Trims(outputs, p.stages)[..0] == [] && Map(f, whole[..0]) == [];
    } else {
      hide StageRows, Gather, Map, RowsMatch, Trimmable;
      RealRowsOfMappedStages(f, whole, z, outputs, p, n - 1);
      var trims := Trims(outputs, p.stages)[..n];
      assert Follows(p.stages, n - 1);
      assert trims[..n - 1] == Trims(outputs, p.stages)[..n - 1];
      NextMappedStage(f, whole, z, trims, outputs[n - 1], p.stages[n - 1]);
    }
  }

  lemma MapOfPrefix<A, B>(f: A -> B, whole: seq<A>, start: nat, stop: nat)
    requires start <= stop <= |whole|
    ensures Map(f, whole[..stop]) == Map(f, whole[..start]) + Map(f, whole[start..stop])
  {
    assert whole[..stop] == whole[..start] + whole[start..stop];
  }

  lemma TrimOfStage<A, B>(f: A -> B, whole: seq<A>, st: Stage, z: A)
    requires SliceFits(st, |whole|)
    ensures Map(f, StageRows(whole, st, z))[..st.ActualTokens()] == Map(f, whole[st.tokenStart..st.tokenStop])
  {
    var rows, cut := StageRows(whole, st, z), whole[st.tokenStart..st.tokenStop];
    assert rows[..|cut|] == cut;
    forall i | 0 <= i < |cut|
      ensures Map(f, rows)[..|cut|][i] == Map(f, cut)[i]
    {
      assert rows[i] == rows[..|cut|][i];
    }
  }

  /** The padding each stage added is gone: the parent rows are the mapped real rows, then zeros. */
  lemma ParentOfMappedStages<A, B>(f: A -> B, whole: seq<A>, za: A, zb: B, outputs: seq<seq<B>>, p: UbatchPlan)
    requires WellFormed(p) && AreStages(outputs, f, whole, p, za)
    ensures RowsMatch(outputs, p.stages) && 0 <= Tokens(p) <= |whole| && Tokens(p) <= p.parentTokens
    ensures ParentRows(outputs, p, zb) == Pad(Map(f, whole[..Tokens(p)]), p.parentTokens, zb)
  {
    RealRowsOfMappedStages(f, whole, za, outputs, p, |p.stages|);
    assert Trims(outputs, p.stages)[..|p.stages|] == Trims(outputs, p.stages);
  }

  /**
   The layout round trip on all ranks: cut `whole` into the plan's stages, map every row of every
   rank's stage tensors by any function, and restore. No guard fires, and the group holds the mapped
   real rows in parent order followed by zero padding, in the same layout it started from.
   */
  method RoundTrip<A, B>(whole: seq<A>, p: UbatchPlan, tp: nat, f: A -> B, za: A, zb: B) returns (r: Checked<Group<B>>)
    requires WellFormed(p) && tp > 0 && |whole| == p.parentTokens
    requires p.sequenceParallel ==> tp > 1 && p.parentTokens % tp == 0 && Divisible(p, tp)
    ensures 0 <= Tokens(p) <= p.parentTokens
    ensures r == Fine(LayOut(Pad(Map(f, whole[..Tokens(p)]), p.parentTokens, zb), tp, p.sequenceParallel))
  {
    PlanSlicesFit(p);
    var sp, n := p.sequenceParallel, |p.stages|;
    LaidOutIsCoherent(whole, tp, sp);
    var built := BuildStageInputs(LayOut(whole, tp, sp), Option<Group<A>>.None, whole, p, Zeros(za, za, za));
    var inputs := built.value.hidden;
    ghost var wholes := seq(n, i requires 0 <= i < n => Map(f, StageRows(whole, p.stages[i], za)));
    forall i | 0 <= i < n
      ensures inputs[i] == LayOut(StageRows(whole, p.stages[i], za), tp, sp)
    {
      assert StageBuilt(built.value, i, LayOut(whole, tp, sp), None, whole, p, Zeros(za, za, za));
      CutIsLaidOut(LayOut(whole, tp, sp), tp, LocalRows(|whole|, tp, sp), p.stages[i], sp, za);
    }
    var outputs := seq(n, i requires 0 <= i < n => MapGroup(f, inputs[i]));
    forall i | 0 <= i < n
      ensures outputs[i] == LayOut(wholes[i], tp, sp)
    {
      MapOfLaidOut(f, StageRows(whole, p.stages[i], za), tp, sp);
    }
    ParentOfMappedStages(f, whole, za, zb, wholes, p);
    RestoredIsLaidOut(outputs, wholes, p, tp, zb);
    r := RestoreStageOutputs(outputs, p, tp, zb);
  }

  function MapGroup<A, B>(f: A -> B, g: Group<A>): (m: Group<B>)
    ensures |m| == |g| && forall r :: 0 <= r < |g| ==> m[r] == Map(f, g[r])
  {
    seq(|g|, r requires 0 <= r < |g| => Map(f, g[r]))
  }

  /** A per-row function on every rank is the same function on the rows the group stands for. */
  lemma MapOfLaidOut<A, B>(f: A -> B, rows: seq<A>, tp: nat, sp: bool)
    requires tp > 0 && (sp ==> |rows| % tp == 0)
    ensures MapGroup(f, LayOut(rows, tp, sp)) == LayOut(Map(f, rows), tp, sp)
  {
    if sp {
      forall r | 0 <= r < tp
        ensures Map(f, Shard(rows, tp, r)) == Shard(Map(f, rows), tp, r)
      {
        ShardOfMap(f, rows, tp, r);
      }
    }
  }

  lemma ShardOfMap<A, B>(f: A -> B, rows: seq<A>, tp: int, rank: int)
    requires tp > 0 && |rows| % tp == 0 && 0 <= rank < tp
    ensures Shard(Map(f, rows), tp, rank) == Map(f, Shard(rows, tp, rank))
  {
    ShardFits(|rows|, tp, rank);
    var n := |rows| / tp;
    var lo, hi := rank * n, (rank + 1) * n;
    assert Map(f, rows)[lo..hi] == Map(f, rows[lo..hi]);
  }

  lemma PadOfMap<A, B>(f: A -> B, rows: seq<A>, n: int, z: A)
    requires |rows| <= n
    ensures Pad(Map(f, rows), n, f(z)) == Map(f, Pad(rows, n, z))
  {
    var a, b := Pad(Map(f, rows), n, f(z)), Map(f, Pad(rows, n, z));
    forall i | 0 <= i < n
      ensures a[i] == b[i]
    {
      if i < |rows| {
        assert a[i] == a[..|rows|][i] && Pad(rows, n, z)[i] == Pad(rows, n, z)[..|rows|][i];
      }
    }
  }

  /** Restoring commutes with any per-row function, so tensors may be restored side by side. */
  lemma ParentOfMaps<A, B>(f: A -> B, outputs: seq<seq<A>>, images: seq<seq<B>>, p: UbatchPlan, z: A)
    requires WellFormed(p) && RowsMatch(outputs, p.stages) && |images| == |outputs|
    requires forall i :: 0 <= i < |outputs| ==> images[i] == Map(f, outputs[i])
    ensures RowsMatch(images, p.stages) && ParentRows(images, p, f(z)) == Map(f, ParentRows(outputs, p, z))
  {
    PlanTrims(outputs, p);
    PlanTrims(images, p);
    forall i | 0 <= i < |outputs|
      ensures Trims(images, p.stages)[i] == Map(f, Trims(outputs, p.stages)[i])
    {
    }
    GatherOfMaps(f, Trims(outputs, p.stages), Trims(images, p.stages));
    RealRowsCountTokens(outputs, p);
    PadOfMap(f, RealRows(outputs, p.stages), p.parentTokens, z);
  }

  lemma CombinedOfLaidOut<H, R>(hidden: seq<H>, residual: seq<R>, tp: nat, sp: bool)
    requires tp > 0 && |hidden| == |residual| && (sp ==> |hidden| % tp == 0)
    ensures var h, k := LayOut(hidden, tp, sp), LayOut(residual, tp, sp);
            && (forall r :: 0 <= r < tp ==> |h[r]| == |k[r]|)
            && Combined(h, k) == LayOut(Zip(hidden, residual), tp, sp)
  {
    if sp {
      forall r | 0 <= r < tp
        ensures Zip(Shard(hidden, tp, r), Shard(residual, tp, r)) == Shard(Zip(hidden, residual), tp, r)
      {
        ShardFits(|hidden|, tp, r);
      }
    }
  }
}
