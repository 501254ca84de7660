/**
 The whole DeepSeek V2 forward around the two-stage pipeline: a dense prefix on the parent batch,
 the cut into stages, the pipeline, and the restored parent layout.
 */
module AsyncCamV2Forward {
  import opened Options
  import opened Rows
  import opened CamLayout
  import opened StagedBatch
  import opened CamConnector
  import opened CamSchedule
  import opened AsyncCamV2

  // ------------------------------------------------------------ restoring state

  function Values<T>(options: seq<Option<T>>): (v: seq<T>)
    requires forall i :: 0 <= i < |options| ==> options[i].Some?
    ensures |v| == |options| && forall i :: 0 <= i < |v| ==> options[i] == Some(v[i])
  {
    seq(|options|, i requires 0 <= i < |options| => options[i].value)
  }

  function SplitFirst<A, B>(g: Group<(A, B)>): (f: Group<A>)
    ensures |f| == |g| && forall r :: 0 <= r < |g| ==> f[r] == Firsts(g[r])
  {
    seq(|g|, r requires 0 <= r < |g| => Firsts(g[r]))
  }

  function SplitSecond<A, B>(g: Group<(A, B)>): (f: Group<B>)
    ensures |f| == |g| && forall r :: 0 <= r < |g| ==> f[r] == Seconds(g[r])
  {
    seq(|g|, r requires 0 <= r < |g| => Seconds(g[r]))
  }

  predicate SameRows<A, B>(a: Group<A>, b: Group<B>) {
    |a| == |b| && forall r :: 0 <= r < |a| ==> |a[r]| == |b[r]|
  }

  function Zipped<A, B>(a: seq<seq<A>>, b: seq<seq<B>>): (z: seq<seq<(A, B)>>)
    requires |a| == |b| && forall i :: 0 <= i < |a| ==> |a[i]| == |b[i]|
    ensures |z| == |a| && forall i :: 0 <= i < |z| ==> z[i] == Zip(a[i], b[i])
  {
    seq(|a|, i requires 0 <= i < |a| => Zip(a[i], b[i]))
  }

  /** Splitting the restored pairs gives the restored hidden states and the restored residual. */
  lemma SplitOfRestored<A(!new), B(!new)>(hidden: seq<seq<A>>, residual: seq<seq<B>>, p: UbatchPlan, tp: nat, za: A, zb: B)
    requires WellFormed(p) && tp > 0 && RowsMatch(hidden, p.stages) && RowsMatch(residual, p.stages)
    requires p.sequenceParallel ==> p.parentTokens % tp == 0
    ensures RowsMatch(Zipped(hidden, residual), p.stages)
    ensures var g := LayOut(ParentRows(Zipped(hidden, residual), p, (za, zb)), tp, p.sequenceParallel);
            && SplitFirst(g) == LayOut(ParentRows(hidden, p, za), tp, p.sequenceParallel)
            && SplitSecond(g) == LayOut(ParentRows(residual, p, zb), tp, p.sequenceParallel)
  {
    hide ParentRows, LayOut, MapGroup, SplitFirst, SplitSecond;
    var pairs, sp := Zipped(hidden, residual), p.sequenceParallel;
    var first, second := (x: (A, B)) => x.0, (x: (A, B)) => x.1;
    forall i | 0 <= i < |pairs|
      ensures hidden[i] == Map(first, pairs[i]) && residual[i] == Map(second, pairs[i])
    {
    }
    ParentOfMaps(first, pairs, hidden, p, (za, zb));
    ParentOfMaps(second, pairs, residual, p, (za, zb));
    var parent := ParentRows(pairs, p, (za, zb));
    MapOfLaidOut(first, parent, tp, sp);
    MapOfLaidOut(second, parent, tp, sp);
    SplitsAreMaps(LayOut(parent, tp, sp), first, second);
  }

  lemma SplitsAreMaps<A(!new), B(!new)>(g: Group<(A, B)>, first: ((A, B)) -> A, second: ((A, B)) -> B)
    requires forall x :: first(x) == x.0 && second(x) == x.1
    ensures SplitFirst(g) == MapGroup(first, g) && SplitSecond(g) == MapGroup(second, g)
  {
    forall r | 0 <= r < |g|
      ensures Firsts(g[r]) == Map(first, g[r]) && Seconds(g[r]) == Map(second, g[r])
    {
    }
  }

  /** _restore_async_moe_stage_state on every rank. */
  method RestoreStageState(hidden: seq<Group<Hidden>>, residual: seq<Option<Group<Residual>>>, p: UbatchPlan, tp: nat,
                           m: Model, ghost hiddenRows: seq<seq<Hidden>>, ghost residualRows: seq<seq<Residual>>)
    returns (r: Outcome<StageState>)
    requires WellFormed(p) && tp > 0 && AllOfSize(hidden, tp) && |hidden| == |residual|
    requires forall i :: 0 <= i < |residual| ==> residual[i].Some? ==> |residual[i].value| == tp
    ensures (forall i :: 0 <= i < |residual| ==> residual[i].None?) && Holds(hidden, hiddenRows, p, tp) ==>
              r == Done(StageState(LayOut(ParentRows(hiddenRows, p, m.zeroHidden), tp, p.sequenceParallel), None))
    ensures (exists i :: 0 <= i < |residual| && residual[i].None?) && (exists i :: 0 <= i < |residual| && residual[i].Some?) ==>
              r == Failed(BadLayout(MixedResiduals))
    ensures (forall i :: 0 <= i < |residual| ==> residual[i].Some?) && |residual| > 0
            && Holds(hidden, hiddenRows, p, tp) && Holds(Values(residual), residualRows, p, tp) ==>
              r == Done(StageState(LayOut(ParentRows(hiddenRows, p, m.zeroHidden), tp, p.sequenceParallel),
                                   Some(LayOut(ParentRows(residualRows, p, m.zeroResidual), tp, p.sequenceParallel))))
  {
    if forall i :: 0 <= i < |residual| ==> residual[i].None? {
      if Holds(hidden, hiddenRows, p, tp) {
        RestoredIsLaidOut(hidden, hiddenRows, p, tp, m.zeroHidden);
      }
      var only := RestoreStageOutputs(hidden, p, tp, m.zeroHidden);
      return if only.Raised? then Failed(BadLayout(only.guard)) else Done(StageState(only.value, None));
    }
    if exists i :: 0 <= i < |residual| && residual[i].None? {
      return Failed(BadLayout(MixedResiduals));
    }
    var residuals := Values(residual);
    ghost var expected := Holds(hidden, hiddenRows, p, tp) && Holds(residuals, residualRows, p, tp);
    if expected {
      CombinedStages(hidden, residuals, hiddenRows, residualRows, p, tp, m.zeroHidden, m.zeroResidual);
      SplitOfRestored(hiddenRows, residualRows, p, tp, m.zeroHidden, m.zeroResidual);
    }
    if exists i :: 0 <= i < |hidden| && !SameRows(hidden[i], residuals[i]) {
      return Failed(BadLayout(ResidualRows));
    }
    var combined := seq(|hidden|, i requires 0 <= i < |hidden| => Combined(hidden[i], residuals[i]));
    var restored := RestoreStageOutputs(combined, p, tp, (m.zeroHidden, m.zeroResidual));
    if restored.Raised? {
      return Failed(BadLayout(restored.guard));
    }
    return Done(StageState(SplitFirst(restored.value), Some(SplitSecond(restored.value))));
  }

  lemma CombinedStages<H, R>(hidden: seq<Group<H>>, residuals: seq<Group<R>>, hiddenRows: seq<seq<H>>,
                             residualRows: seq<seq<R>>, p: UbatchPlan, tp: nat, zh: H, zr: R)
    requires WellFormed(p) && tp > 0 && Holds(hidden, hiddenRows, p, tp) && Holds(residuals, residualRows, p, tp)
    ensures RowsMatch(Zipped(hiddenRows, residualRows), p.stages)
    ensures |hidden| == |residuals| && forall i :: 0 <= i < |hidden| ==> SameRows(hidden[i], residuals[i])
    ensures var combined := seq(|hidden|, i requires 0 <= i < |hidden| => Combined(hidden[i], residuals[i]));
            && AllOfSize(combined, tp) && Restorable(combined, p, tp)
            && Restored(combined, p, tp, (zh, zr))
               == LayOut(ParentRows(Zipped(hiddenRows, residualRows), p, (zh, zr)), tp, p.sequenceParallel)
  {
    forall i | 0 <= i < |hidden|
      ensures SameRows(hidden[i], residuals[i])
      ensures Combined(hidden[i], residuals[i]) == LayOut(Zipped(hiddenRows, residualRows)[i], tp, p.sequenceParallel)
    {
      CombinedOfLaidOut(hiddenRows[i], residualRows[i], tp, p.sequenceParallel);
    }
    var combined := seq(|hidden|, i requires 0 <= i < |hidden| => Combined(hidden[i], residuals[i]));
    RestoredIsLaidOut(combined, Zipped(hiddenRows, residualRows), p, tp, (zh, zr));
  }

  // -------------------------------------------------------------- the forward

  datatype ModelLayer = Dense(index: int) | Moe(index: int)

  /** A dense layer on the parent batch of the whole group. */
  type DenseLayer = (int, seq<Position>, StageState) -> StageState

  ghost predicate DenseKeepsRows(dense: DenseLayer, tp: nat, n: nat, sp: bool) {
    forall layer, positions, st | Sound(st, tp, n, sp) :: Sound(dense(layer, positions, st), tp, n, sp)
  }

  function FirstMoe(layers: seq<ModelLayer>): (k: nat)
    ensures k <= |layers| && (forall i :: 0 <= i < k ==> layers[i].Dense?) && (k < |layers| ==> layers[k].Moe?)
  {
    if layers == [] || layers[0].Moe? then 0 else 1 + FirstMoe(layers[1..])
  }

  function Indices(layers: seq<ModelLayer>): (s: seq<int>)
    ensures |s| == |layers| && forall i :: 0 <= i < |s| ==> s[i] == layers[i].index
  {
    seq(|layers|, i requires 0 <= i < |layers| => layers[i].index)
  }

  /** The rows of one stage, before its first MoE layer. */
  ghost function StageEntry(m: Model, st: StageState, p: UbatchPlan, tp: nat, n: nat, s: nat, positions: int): StageState
    requires tp > 0 && PlanFits(p, tp, n, positions) && Sound(st, tp, n, p.sequenceParallel) && s < 2
  {
    PlanSlicesFit(p);
    WholeIsParent(st.hidden, p, tp, n, positions);
    StageState(
      LayOut(StageRows(Whole(st.hidden, p.sequenceParallel), p.stages[s], m.zeroHidden), tp, p.sequenceParallel),
      match st.residual
      case None => None
      case Some(residual) =>
        WholeIsParent(residual, p, tp, n, positions);
        Some(LayOut(StageRows(Whole(residual, p.sequenceParallel), p.stages[s], m.zeroResidual), tp, p.sequenceParallel)))
  }

  ghost function StagePositions(m: Model, positions: seq<Position>, p: UbatchPlan, tp: nat, s: nat): Group<Position>
    requires tp > 0 && s < 2 && |p.stages| == 2 && SliceFits(p.stages[s], |positions|)
    requires p.sequenceParallel ==> p.stages[s].inputTokens % tp == 0
  {
    LayOut(StageRows(positions, p.stages[s], m.zeroPosition), tp, p.sequenceParallel)
  }

  /** A stage's rows after all MoE layers, run one after the other on that stage alone. */
  ghost function StageResult(m: Model, moe: seq<int>, st: StageState, positions: seq<Position>, p: UbatchPlan,
                             tp: nat, n: nat, s: nat): StageState
    requires tp > 0 && PlanFits(p, tp, n, |positions|) && Sound(st, tp, n, p.sequenceParallel) && s < 2
  {
    PlanSlicesFit(p);
    assert SliceFits(p.stages[s], |positions|);
    Fold(m, moe, |moe|, s, StagePositions(m, positions, p, tp, s), StageEntry(m, st, p, tp, n, s, |positions|))
  }

  lemma EntryIsSound(m: Model, st: StageState, p: UbatchPlan, tp: nat, n: nat, s: nat, positions: int)
    requires tp > 0 && PlanFits(p, tp, n, positions) && Sound(st, tp, n, p.sequenceParallel) && s < 2
    ensures var rows := LocalRows(p.stages[s].inputTokens, tp, p.sequenceParallel);
            rows >= 0 && Sound(StageEntry(m, st, p, tp, n, s, positions), tp, rows, p.sequenceParallel)
  {
    hide Coherent, StageRows;
    PlanSlicesFit(p);
    assert SliceFits(p.stages[s], p.parentTokens);
    CoherentSize(st.hidden, tp, n, p.sequenceParallel);
    WholeIsParent(st.hidden, p, tp, n, positions);
    LaidOutIsCoherent(StageRows(Whole(st.hidden, p.sequenceParallel), p.stages[s], m.zeroHidden), tp, p.sequenceParallel);
    if st.residual.Some? {
      CoherentSize(st.residual.value, tp, n, p.sequenceParallel);
      WholeIsParent(st.residual.value, p, tp, n, positions);
      var whole := Whole(st.residual.value, p.sequenceParallel);
      LaidOutIsCoherent(StageRows(whole, p.stages[s], m.zeroResidual), tp, p.sequenceParallel);
    }
  }

  /** What build_async_moe_stage_inputs produces for a coherent batch is the stage's entry state. */
  lemma BuiltIsEntry(v: StageInputs<Hidden, Residual, Position>, m: Model, st: StageState, positions: seq<Position>,
                     p: UbatchPlan, tp: nat, n: nat, s: nat)
    requires tp > 0 && PlanFits(p, tp, n, |positions|) && Sound(st, tp, n, p.sequenceParallel) && s < 2
    requires |v.hidden| == |v.residuals| == |v.positions| == 2
    requires StageBuilt(v, s, st.hidden, st.residual, positions, p, Zeros(m.zeroHidden, m.zeroResidual, m.zeroPosition))
    ensures SliceFits(p.stages[s], |positions|)
    ensures StageState(v.hidden[s], v.residuals[s]) == StageEntry(m, st, p, tp, n, s, |positions|)
    ensures v.positions[s] == StagePositions(m, positions, p, tp, s)
  {
    hide LayOut, StageRows, Whole;
    CutIsLaidOut(st.hidden, tp, n, p.stages[s], p.sequenceParallel, m.zeroHidden);
    if st.residual.Some? {
      CutIsLaidOut(st.residual.value, tp, n, p.stages[s], p.sequenceParallel, m.zeroResidual);
    }
  }

  lemma StageResultIsSound(m: Model, moe: seq<int>, st: StageState, positions: seq<Position>, p: UbatchPlan,
                           tp: nat, n: nat, s: nat)
    requires tp > 0 && PlanFits(p, tp, n, |positions|) && Sound(st, tp, n, p.sequenceParallel) && s < 2
    requires Faithful(m, tp, p.sequenceParallel) && |moe| > 0
    ensures var f := StageResult(m, moe, st, positions, p, tp, n, s);
            var rows := LocalRows(p.stages[s].inputTokens, tp, p.sequenceParallel);
            f.residual.Some? && rows >= 0 && Sound(f, tp, rows, p.sequenceParallel)
  {
    hide StageEntry, StagePositions, PlanFits, Coherent;
    EntryIsSound(m, st, p, tp, n, s, |positions|);
    PositionsFit(p, tp, n, |positions|, s);
    var rows, entry := LocalRows(p.stages[s].inputTokens, tp, p.sequenceParallel), StageEntry(m, st, p, tp, n, s, |positions|);
    var at := StagePositions(m, positions, p, tp, s);
    var last := |moe| - 1;
    FoldIsSound(m, moe, last, s, at, entry, tp, rows, p.sequenceParallel);
    var before := Fold(m, moe, last, s, at, entry);
    LayerIsSound(m, moe[last], s, at, before, tp, rows, p.sequenceParallel);
    assert KeepsRows(m, moe[last], s, at, before, tp, rows, p.sequenceParallel);
    var a := m.attend(moe[last], s, at, before);
    CoherentSize(a.hidden, tp, rows, p.sequenceParallel);
    CoherentRowsAgree(a.hidden, a.routes.value, rows, p.sequenceParallel);
  }

  /** The parent state made of both stages' results: their real rows in parent order, then zero rows. */
  ghost function ForwardResult(m: Model, moe: seq<int>, st: StageState, positions: seq<Position>, p: UbatchPlan,
                               tp: nat, n: nat): StageState
    requires tp > 0 && PlanFits(p, tp, n, |positions|) && Sound(st, tp, n, p.sequenceParallel)
    requires Faithful(m, tp, p.sequenceParallel) && |moe| > 0
  {
    var sp := p.sequenceParallel;
    var a, b := StageResult(m, moe, st, positions, p, tp, n, 0), StageResult(m, moe, st, positions, p, tp, n, 1);
    StageResultIsSound(m, moe, st, positions, p, tp, n, 0);
    StageResultIsSound(m, moe, st, positions, p, tp, n, 1);
    StagesHold(a.hidden, b.hidden, p, tp, n, |positions|);
    StagesHold(a.residual.value, b.residual.value, p, tp, n, |positions|);
    StageState(
      LayOut(ParentRows(TwoWholes(a.hidden, b.hidden, sp), p, m.zeroHidden), tp, sp),
      Some(LayOut(ParentRows(TwoWholes(a.residual.value, b.residual.value, sp), p, m.zeroResidual), tp, sp)))
  }

  /**
   The result without its layouts: each stage starts from its own tokens of the batch and its own positions,
   runs the MoE layers one after the other, and the parent stands for the real rows of where the two end.
   */
  lemma ForwardRuns(m: Model, moe: seq<int>, st: StageState, positions: seq<Position>, p: UbatchPlan, tp: nat, n: nat)
    returns (at: (Group<Position>, Group<Position>), a: seq<StageState>, b: seq<StageState>)
    requires tp > 0 && PlanFits(p, tp, n, |positions|) && Sound(st, tp, n, p.sequenceParallel)
    requires Faithful(m, tp, p.sequenceParallel) && |moe| > 0
    ensures |a| == |b| == |moe| + 1
    ensures Enters(m, st, positions, p, tp, n, 0, at.0, a) && RunsThrough(m, moe, 0, at.0, a)
    ensures Enters(m, st, positions, p, tp, n, 1, at.1, b) && RunsThrough(m, moe, 1, at.1, b)
    ensures var result, c, d := ForwardResult(m, moe, st, positions, p, tp, n), a[|moe|], b[|moe|];
            && |c.hidden| > 0 && |d.hidden| > 0 && JoinedFrom(result.hidden, c.hidden, d.hidden, p, tp, m.zeroHidden)
            && result.residual.Some? && c.residual.Some? && d.residual.Some?
            && |c.residual.value| > 0 && |d.residual.value| > 0
            && JoinedFrom(result.residual.value, c.residual.value, d.residual.value, p, tp, m.zeroResidual)
  {
    hide StageEntry, StagePositions, PlanFits, Fold, RunsThrough, JoinedFrom, Enters, LayOut, ParentRows, Sound, Faithful;
    var sp := p.sequenceParallel;
    at := (StagePositionsOf(m, positions, p, tp, n, 0), StagePositionsOf(m, positions, p, tp, n, 1));
    a := StageRun(m, moe, st, positions, p, tp, n, 0);
    b := StageRun(m, moe, st, positions, p, tp, n, 1);
    var c, d := a[|moe|], b[|moe|];
    StageResultHolds(m, moe, st, positions, p, tp, n);
    LaidOutIsJoined(c.hidden, d.hidden, p, tp, m.zeroHidden);
    LaidOutIsJoined(c.residual.value, d.residual.value, p, tp, m.zeroResidual);
  }

  ghost function StagePositionsOf(m: Model, positions: seq<Position>, p: UbatchPlan, tp: nat, n: nat, s: nat): Group<Position>
    requires tp > 0 && PlanFits(p, tp, n, |positions|) && s < 2
  {
    PositionsFit(p, tp, n, |positions|, s);
    StagePositions(m, positions, p, tp, s)
  }

  /** Stage `s` starts from its own tokens of the hidden states and the residual, at its own positions. */
  ghost predicate Enters(m: Model, st: StageState, positions: seq<Position>, p: UbatchPlan, tp: nat, n: nat, s: nat,
                         at: Group<Position>, run: seq<StageState>)
    requires tp > 0 && PlanFits(p, tp, n, |positions|) && Sound(st, tp, n, p.sequenceParallel) && s < 2
  {
    PlanSlicesFit(p);
    WholeIsParent(st.hidden, p, tp, n, |positions|);
    var sp, stage := p.sequenceParallel, p.stages[s];
    && |run| > 0 && CutFrom(run[0].hidden, Whole(st.hidden, sp), stage, tp, sp, m.zeroHidden)
    && CutFrom(at, positions, stage, tp, sp, m.zeroPosition)
    && match st.residual
       case None => run[0].residual.None?
       case Some(residual) =>
         WholeIsParent(residual, p, tp, n, |positions|);
         && run[0].residual.Some?
         && CutFrom(run[0].residual.value, Whole(residual, sp), stage, tp, sp, m.zeroResidual)
  }

  lemma StageRun(m: Model, moe: seq<int>, st: StageState, positions: seq<Position>, p: UbatchPlan, tp: nat, n: nat, s: nat)
    returns (run: seq<StageState>)
    requires tp > 0 && PlanFits(p, tp, n, |positions|) && Sound(st, tp, n, p.sequenceParallel) && s < 2
    requires Faithful(m, tp, p.sequenceParallel)
    ensures Enters(m, st, positions, p, tp, n, s, StagePositionsOf(m, positions, p, tp, n, s), run)
    ensures |run| == |moe| + 1 && RunsThrough(m, moe, s, StagePositionsOf(m, positions, p, tp, n, s), run)
    ensures run[|moe|] == StageResult(m, moe, st, positions, p, tp, n, s)
  {
    hide LayOut, StageRows, Whole, Faithful, RunsThrough, CutFrom;
    var sp := p.sequenceParallel;
    PlanSlicesFit(p);
    PositionsFit(p, tp, n, |positions|, s);
    WholeIsParent(st.hidden, p, tp, n, |positions|);
    LaidOutIsCut(Whole(st.hidden, sp), p.stages[s], tp, sp, m.zeroHidden);
    LaidOutIsCut(positions, p.stages[s], tp, sp, m.zeroPosition);
    if st.residual.Some? {
      WholeIsParent(st.residual.value, p, tp, n, |positions|);
      LaidOutIsCut(Whole(st.residual.value, sp), p.stages[s], tp, sp, m.zeroResidual);
    }
    EntryIsSound(m, st, p, tp, n, s, |positions|);
    run := FoldRunsThrough(m, moe, s, StagePositionsOf(m, positions, p, tp, n, s), StageEntry(m, st, p, tp, n, s, |positions|),
                           tp, LocalRows(p.stages[s].inputTokens, tp, sp), sp);
  }

  lemma StageResultHolds(m: Model, moe: seq<int>, st: StageState, positions: seq<Position>, p: UbatchPlan, tp: nat, n: nat)
    requires tp > 0 && PlanFits(p, tp, n, |positions|) && Sound(st, tp, n, p.sequenceParallel)
    requires Faithful(m, tp, p.sequenceParallel) && |moe| > 0
    ensures var a, b := StageResult(m, moe, st, positions, p, tp, n, 0), StageResult(m, moe, st, positions, p, tp, n, 1);
            && a.residual.Some? && b.residual.Some?
            && |a.hidden| > 0 && |b.hidden| > 0 && |a.residual.value| > 0 && |b.residual.value| > 0
            && WellFormed(p) && |p.stages| == 2
            && Holds([a.hidden, b.hidden], TwoWholes(a.hidden, b.hidden, p.sequenceParallel), p, tp)
            && Holds([a.residual.value, b.residual.value],
                     TwoWholes(a.residual.value, b.residual.value, p.sequenceParallel), p, tp)
  {
    hide StageResult, Coherent, Faithful, Holds, TwoWholes;
    StageResultIsSound(m, moe, st, positions, p, tp, n, 0);
    StageResultIsSound(m, moe, st, positions, p, tp, n, 1);
    var a, b := StageResult(m, moe, st, positions, p, tp, n, 0), StageResult(m, moe, st, positions, p, tp, n, 1);
    StagesHold(a.hidden, b.hidden, p, tp, n, |positions|);
    StagesHold(a.residual.value, b.residual.value, p, tp, n, |positions|);
  }

  /**
   When every stage's run works row by row, cutting the batch is invisible: the parent holds those
   rows of the whole batch, in order, and zero rows after the real ones.
   */
  lemma RowwiseRunsAreUncut(f: Hidden -> Hidden, m: Model, moe: seq<int>, st: StageState, positions: seq<Position>,
                            p: UbatchPlan, tp: nat, n: nat)
    requires tp > 0 && PlanFits(p, tp, n, |positions|) && Sound(st, tp, n, p.sequenceParallel)
    requires Faithful(m, tp, p.sequenceParallel) && |moe| > 0
    requires forall s: nat :: s < 2 ==> RunsRowwise(f, m, moe, st, positions, p, tp, n, s)
    ensures |st.hidden| > 0 && 0 <= Tokens(p) <= |Whole(st.hidden, p.sequenceParallel)| && Tokens(p) <= p.parentTokens
    ensures ForwardResult(m, moe, st, positions, p, tp, n).hidden
            == LayOut(Pad(Map(f, Whole(st.hidden, p.sequenceParallel)[..Tokens(p)]), p.parentTokens, m.zeroHidden),
                      tp, p.sequenceParallel)
  {
    hide StageResult, LayOut, Whole, StageRows, ParentRows, Coherent, Faithful, Pad;
    CoherentSize(st.hidden, tp, n, p.sequenceParallel);
    WholeIsParent(st.hidden, p, tp, n, |positions|);
    PlanSlicesFit(p);
    assert RunsRowwise(f, m, moe, st, positions, p, tp, n, 0) && RunsRowwise(f, m, moe, st, positions, p, tp, n, 1);
    var sp := p.sequenceParallel;
    var a, b := StageResult(m, moe, st, positions, p, tp, n, 0), StageResult(m, moe, st, positions, p, tp, n, 1);
    ParentOfMappedStages(f, Whole(st.hidden, sp), m.zeroHidden, m.zeroHidden, TwoWholes(a.hidden, b.hidden, sp), p);
  }

  ghost predicate RunsRowwise(f: Hidden -> Hidden, m: Model, moe: seq<int>, st: StageState, positions: seq<Position>,
                              p: UbatchPlan, tp: nat, n: nat, s: nat)
    requires tp > 0 && PlanFits(p, tp, n, |positions|) && Sound(st, tp, n, p.sequenceParallel) && s < 2
  {
    PlanSlicesFit(p);
    WholeIsParent(st.hidden, p, tp, n, |positions|);
    var result := StageResult(m, moe, st, positions, p, tp, n, s);
    && |result.hidden| > 0
    && Whole(result.hidden, p.sequenceParallel)
       == Map(f, StageRows(Whole(st.hidden, p.sequenceParallel), p.stages[s], m.zeroHidden))
  }

  lemma InputsFitPlan(st: StageState, positions: seq<Position>, p: UbatchPlan, tp: nat, n: nat)
    requires WellFormed(p) && |p.stages| == 2 && tp > 0 && Sound(st, tp, n, p.sequenceParallel)
    ensures |st.hidden| == tp && (st.residual.Some? ==> |st.residual.value| == tp)
    ensures InputsFit(st.hidden, st.residual, positions, p) <==> PlanFits(p, tp, n, |positions|)
  {
    assert |st.hidden[0]| == n;
  }

  /** The MoE part: cut, pipeline, restore. */
  method RunMoe(m: Model, moe: seq<int>, st: StageState, positions: seq<Position>, p: UbatchPlan, tp: nat,
                connector: Connector, ghost n: nat)
    returns (r: Outcome<StageState>)
    requires WellFormed(p) && |p.stages| == 2 && tp > 0 && |moe| > 0
    requires Faithful(m, tp, p.sequenceParallel) && Sound(st, tp, n, p.sequenceParallel)
    requires connector.experts == m.experts && connector.pending == map[] && connector.wire == []
    modifies connector
    ensures !PlanFits(p, tp, n, |positions|) ==> r.Failed? && r.failure.BadLayout?
    ensures PlanFits(p, tp, n, |positions|) ==>
              && r == Done(ForwardResult(m, moe, st, positions, p, tp, n))
              && connector.pending == map[] && connector.wire == []
              && connector.trace == old(connector.trace) + Schedule(moe)
  {
    hide Faithful, Fold, StageBuilt, LayOut, Cut, StageRows, ParentRows, Schedule, KeepsRows, PlanFits, InputsFit, Coherent;
    InputsFitPlan(st, positions, p, tp, n);
    var inputs := BuildStageInputs(st.hidden, st.residual, positions, p, Zeros(m.zeroHidden, m.zeroResidual, m.zeroPosition));
    if inputs.Raised? {
      return Failed(BadLayout(inputs.guard));
    }
    var v := inputs.value;
    var pipeline := new Pipeline(m, p, tp, v, connector);
    ghost var entry := (StageEntry(m, st, p, tp, n, 0, |positions|), StageEntry(m, st, p, tp, n, 1, |positions|));
    PositionsFit(p, tp, n, |positions|, 0);
    PositionsFit(p, tp, n, |positions|, 1);
    BuiltIsEntry(v, m, st, positions, p, tp, n, 0);
    BuiltIsEntry(v, m, st, positions, p, tp, n, 1);
    EntryIsSound(m, st, p, tp, n, 0, |positions|);
    EntryIsSound(m, st, p, tp, n, 1, |positions|);
    var ran := pipeline.RunStages(moe, entry);
    match ran {
      case Failed(failure) => return Failed(failure);
      case Done(_) =>
    }
    ghost var a, b := StageResult(m, moe, st, positions, p, tp, n, 0), StageResult(m, moe, st, positions, p, tp, n, 1);
    StageResultIsSound(m, moe, st, positions, p, tp, n, 0);
    StageResultIsSound(m, moe, st, positions, p, tp, n, 1);
    StagesHold(a.hidden, b.hidden, p, tp, n, |positions|);
    StagesHold(a.residual.value, b.residual.value, p, tp, n, |positions|);
    assert pipeline.hidden == [a.hidden, b.hidden] && pipeline.residual == [a.residual, b.residual];
    assert Values(pipeline.residual) == [a.residual.value, b.residual.value];
    r := RestoreStageState(pipeline.hidden, pipeline.residual, p, tp, m,
                           TwoWholes(a.hidden, b.hidden, p.sequenceParallel),
                           TwoWholes(a.residual.value, b.residual.value, p.sequenceParallel));
  }

  /**
   run_async_moe_ubatch_afd_forward on every rank. `n` is the row count each rank starts with, and `states`
   are the parent states of the dense layers in front. The stages are cut from the last of them; the result is
   every stage's own sequential run of the MoE layers, the stages' real rows in parent order and zero rows
   after them (`ForwardRuns`).
   */
  method RunForward(m: Model, dense: DenseLayer, layers: seq<ModelLayer>, input: StageState, positions: seq<Position>,
                    p: UbatchPlan, runtimeSequenceParallel: bool, tp: nat, connector: Connector, ghost n: nat)
    returns (r: Outcome<StageState>, ghost states: seq<StageState>)
    requires WellFormed(p) && |p.stages| == 2 && tp > 0
    requires Faithful(m, tp, p.sequenceParallel) && DenseKeepsRows(dense, tp, n, p.sequenceParallel)
    requires Sound(input, tp, n, p.sequenceParallel)
    requires connector.experts == m.experts && connector.pending == map[] && connector.wire == []
    modifies connector
    ensures r == Failed(ModeMismatch) <==> runtimeSequenceParallel != p.sequenceParallel
    ensures r == Failed(NotContiguousMoe) <==>
              && runtimeSequenceParallel == p.sequenceParallel
              && exists i, j :: 0 <= i < j < |layers| && layers[i].Moe? && layers[j].Dense?
    ensures r != Failed(ModeMismatch) && r != Failed(NotContiguousMoe) ==>
              && 1 <= |states| <= |layers| + 1 && states[0] == input
              && var k := |states| - 1;
                 var st := states[k];
              && (forall i :: 0 <= i < k ==> states[i + 1] == dense(layers[i].index, positions, states[i]))
              && (forall i :: 0 <= i < k ==> layers[i].Dense?) && (forall i :: k <= i < |layers| ==> layers[i].Moe?)
              && Sound(st, tp, n, p.sequenceParallel)
              && (k == |layers| ==> r == Done(st) && unchanged(connector))
              && (k < |layers| && !PlanFits(p, tp, n, |positions|) ==> r.Failed?)
              && (k < |layers| && PlanFits(p, tp, n, |positions|) ==>
                    var moe := Indices(layers[k..]);
                    && r == Done(ForwardResult(m, moe, st, positions, p, tp, n))
                    && connector.pending == map[] && connector.wire == []
                    && connector.trace == old(connector.trace) + Schedule(moe))
  {
    hide Faithful, ForwardResult, Schedule, PlanFits, WellFormed, Sound;
    states := [input];
    if runtimeSequenceParallel != p.sequenceParallel {
      return Failed(ModeMismatch), states;
    }
    var firstMoe := FirstMoe(layers);
    if exists i :: firstMoe <= i < |layers| && !layers[i].Moe? {
      return Failed(NotContiguousMoe), states;
    }
    var st := input;
    for k := 0 to firstMoe
      invariant |states| == k + 1 && states[0] == input && states[k] == st
      invariant forall i :: 0 <= i < k ==> states[i + 1] == dense(layers[i].index, positions, states[i])
      invariant Sound(st, tp, n, p.sequenceParallel)
    {
      st := dense(layers[k].index, positions, st);
      states := states + [st];
    }
    if firstMoe == |layers| {
      return Done(st), states;
    }
    r := RunMoe(m, Indices(layers[firstMoe..]), st, positions, p, tp, connector, n);
  }
}
