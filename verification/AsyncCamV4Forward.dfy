/**
 The whole DeepSeek V4 two-stage forward: the cut into stages with their token ids, the schedule, and
 the restored parent layout.
 */
module AsyncCamV4Forward {
  import opened Options
  import opened CamLayout
  import opened StagedBatch
  import opened CamConnector
  import opened CamSchedule
  import opened AsyncCamV4

  /** A stage's rows before the first layer. */
  ghost function StageEntry(m: Model, input: Group<Stream>, p: UbatchPlan, tp: nat, n: nat, s: nat, positions: int)
    : Group<Stream>
    requires tp > 0 && PlanFits(p, tp, n, positions) && Coherent(input, tp, n, p.sequenceParallel) && s < 2
  {
    PlanSlicesFit(p);
    WholeIsParent(input, p, tp, n, positions);
    LayOut(StageRows(Whole(input, p.sequenceParallel), p.stages[s], m.zeroStream), tp, p.sequenceParallel)
  }

  /** The stage's own positions and token ids. */
  ghost function ContextOf(m: Model, positions: seq<Position>, inputIds: seq<int>, p: UbatchPlan, tp: nat, n: nat, s: nat)
    : StageContext
    requires tp > 0 && PlanFits(p, tp, n, |positions|) && |inputIds| >= Tokens(p) && s < 2
  {
    PlanSlicesFit(p);
    assert SliceFits(p.stages[s], Tokens(p)) && SliceFits(p.stages[s], |positions|);
    StageContext(LayOut(StageRows(positions, p.stages[s], m.zeroPosition), tp, p.sequenceParallel),
                 LayOut(StageRows(inputIds, p.stages[s], PAD_INPUT_ID), tp, p.sequenceParallel))
  }

  /** A stage's rows after all layers, run one after the other on that stage alone. */
  ghost function StageResult(m: Model, layers: seq<int>, input: Group<Stream>, positions: seq<Position>, inputIds: seq<int>,
                             p: UbatchPlan, tp: nat, n: nat, s: nat): Group<Stream>
    requires tp > 0 && PlanFits(p, tp, n, |positions|) && |inputIds| >= Tokens(p) && s < 2
    requires Coherent(input, tp, n, p.sequenceParallel)
  {
    Fold(m, layers, |layers|, s, ContextOf(m, positions, inputIds, p, tp, n, s), StageEntry(m, input, p, tp, n, s, |positions|))
  }

  lemma EntryIsCoherent(m: Model, input: Group<Stream>, p: UbatchPlan, tp: nat, n: nat, s: nat, positions: int)
    requires tp > 0 && PlanFits(p, tp, n, positions) && Coherent(input, tp, n, p.sequenceParallel) && s < 2
    ensures var rows := LocalRows(p.stages[s].inputTokens, tp, p.sequenceParallel);
            rows >= 0 && Coherent(StageEntry(m, input, p, tp, n, s, positions), tp, rows, p.sequenceParallel)
  {
    hide Coherent, StageRows;
    PlanSlicesFit(p);
    assert SliceFits(p.stages[s], p.parentTokens);
    CoherentSize(input, tp, n, p.sequenceParallel);
    WholeIsParent(input, p, tp, n, positions);
    LaidOutIsCoherent(StageRows(Whole(input, p.sequenceParallel), p.stages[s], m.zeroStream), tp, p.sequenceParallel);
  }

  lemma StageResultIsCoherent(m: Model, layers: seq<int>, input: Group<Stream>, positions: seq<Position>, inputIds: seq<int>,
                              p: UbatchPlan, tp: nat, n: nat, s: nat)
    requires tp > 0 && PlanFits(p, tp, n, |positions|) && |inputIds| >= Tokens(p) && s < 2
    requires Faithful(m, tp, p.sequenceParallel) && Coherent(input, tp, n, p.sequenceParallel)
    ensures var rows := LocalRows(p.stages[s].inputTokens, tp, p.sequenceParallel);
            rows >= 0 && Coherent(StageResult(m, layers, input, positions, inputIds, p, tp, n, s), tp, rows, p.sequenceParallel)
  {
    hide Coherent, Faithful;
    EntryIsCoherent(m, input, p, tp, n, s, |positions|);
    FoldIsCoherent(m, layers, |layers|, s, ContextOf(m, positions, inputIds, p, tp, n, s),
                   StageEntry(m, input, p, tp, n, s, |positions|), tp,
                   LocalRows(p.stages[s].inputTokens, tp, p.sequenceParallel), p.sequenceParallel);
  }

  /** Both stages' results in the parent layout: their real rows in parent order, then zero rows. */
  ghost function ForwardResult(m: Model, layers: seq<int>, input: Group<Stream>, positions: seq<Position>, inputIds: seq<int>,
                               p: UbatchPlan, tp: nat, n: nat): Group<Stream>
    requires tp > 0 && PlanFits(p, tp, n, |positions|) && |inputIds| >= Tokens(p)
    requires Faithful(m, tp, p.sequenceParallel) && Coherent(input, tp, n, p.sequenceParallel)
  {
    var a := StageResult(m, layers, input, positions, inputIds, p, tp, n, 0);
    var b := StageResult(m, layers, input, positions, inputIds, p, tp, n, 1);
    StageResultIsCoherent(m, layers, input, positions, inputIds, p, tp, n, 0);
    StageResultIsCoherent(m, layers, input, positions, inputIds, p, tp, n, 1);
    StagesHold(a, b, p, tp, n, |positions|);
    LayOut(ParentRows(TwoWholes(a, b, p.sequenceParallel), p, m.zeroStream), tp, p.sequenceParallel)
  }

  /** Stage `s` starts from its own tokens of the batch, at its own positions and ids. */
  ghost predicate Enters(m: Model, input: Group<Stream>, positions: seq<Position>, inputIds: seq<int>, p: UbatchPlan,
                         tp: nat, n: nat, s: nat, context: StageContext, run: seq<Group<Stream>>)
    requires tp > 0 && PlanFits(p, tp, n, |positions|) && |inputIds| >= Tokens(p) && s < 2
    requires Coherent(input, tp, n, p.sequenceParallel)
  {
    PlanSlicesFit(p);
    WholeIsParent(input, p, tp, n, |positions|);
    var sp, stage := p.sequenceParallel, p.stages[s];
    assert SliceFits(stage, Tokens(p)) && SliceFits(stage, |positions|);
    && |run| > 0 && CutFrom(run[0], Whole(input, sp), stage, tp, sp, m.zeroStream)
    && CutFrom(context.positions, positions, stage, tp, sp, m.zeroPosition)
    && CutFrom(context.inputIds, inputIds, stage, tp, sp, -1)
  }

  lemma StageRun(m: Model, layers: seq<int>, input: Group<Stream>, positions: seq<Position>, inputIds: seq<int>,
                 p: UbatchPlan, tp: nat, n: nat, s: nat)
    returns (run: seq<Group<Stream>>)
    requires tp > 0 && PlanFits(p, tp, n, |positions|) && |inputIds| >= Tokens(p) && s < 2
    requires Faithful(m, tp, p.sequenceParallel) && Coherent(input, tp, n, p.sequenceParallel)
    ensures var context := ContextOf(m, positions, inputIds, p, tp, n, s);
            && |run| == |layers| + 1 && RunsThrough(m, layers, s, context, run)
            && Enters(m, input, positions, inputIds, p, tp, n, s, context, run)
    ensures run[|layers|] == StageResult(m, layers, input, positions, inputIds, p, tp, n, s)
  {
    hide LayOut, StageRows, Whole, Faithful, RunsThrough, CutFrom, Coherent;
    var sp := p.sequenceParallel;
    PlanSlicesFit(p);
    PositionsFit(p, tp, n, |positions|, s);
    assert SliceFits(p.stages[s], Tokens(p));
    WholeIsParent(input, p, tp, n, |positions|);
    CoherentSize(input, tp, n, sp);
    LaidOutIsCut(Whole(input, sp), p.stages[s], tp, sp, m.zeroStream);
    LaidOutIsCut(positions, p.stages[s], tp, sp, m.zeroPosition);
    LaidOutIsCut(inputIds, p.stages[s], tp, sp, PAD_INPUT_ID);
    EntryIsCoherent(m, input, p, tp, n, s, |positions|);
    run := FoldRunsThrough(m, layers, s, ContextOf(m, positions, inputIds, p, tp, n, s),
                           StageEntry(m, input, p, tp, n, s, |positions|), tp, LocalRows(p.stages[s].inputTokens, tp, sp), sp);
  }

  /**
   The result without its layouts: each stage starts from its own tokens, positions and ids, runs the layers
   one after the other, and the parent stands for the real rows of where the two end.
   */
  lemma ForwardRuns(m: Model, layers: seq<int>, input: Group<Stream>, positions: seq<Position>, inputIds: seq<int>,
                    p: UbatchPlan, tp: nat, n: nat)
    returns (context: (StageContext, StageContext), a: seq<Group<Stream>>, b: seq<Group<Stream>>)
    requires tp > 0 && PlanFits(p, tp, n, |positions|) && |inputIds| >= Tokens(p)
    requires Faithful(m, tp, p.sequenceParallel) && Coherent(input, tp, n, p.sequenceParallel)
    ensures |a| == |b| == |layers| + 1
    ensures Enters(m, input, positions, inputIds, p, tp, n, 0, context.0, a) && RunsThrough(m, layers, 0, context.0, a)
    ensures Enters(m, input, positions, inputIds, p, tp, n, 1, context.1, b) && RunsThrough(m, layers, 1, context.1, b)
    ensures var result, c, d := ForwardResult(m, layers, input, positions, inputIds, p, tp, n), a[|layers|], b[|layers|];
            |c| > 0 && |d| > 0 && JoinedFrom(result, c, d, p, tp, m.zeroStream)
  {
    hide StageEntry, ContextOf, PlanFits, StageResult, RunsThrough, JoinedFrom, Enters, LayOut, ParentRows, Coherent, Faithful;
    context := (ContextOf(m, positions, inputIds, p, tp, n, 0), ContextOf(m, positions, inputIds, p, tp, n, 1));
    a := StageRun(m, layers, input, positions, inputIds, p, tp, n, 0);
    b := StageRun(m, layers, input, positions, inputIds, p, tp, n, 1);
    StageResultIsCoherent(m, layers, input, positions, inputIds, p, tp, n, 0);
    StageResultIsCoherent(m, layers, input, positions, inputIds, p, tp, n, 1);
    StagesHold(a[|layers|], b[|layers|], p, tp, n, |positions|);
    LaidOutIsJoined(a[|layers|], b[|layers|], p, tp, m.zeroStream);
  }

  lemma InputsFitPlan(input: Group<Stream>, positions: seq<Position>, p: UbatchPlan, tp: nat, n: nat)
    requires WellFormed(p) && |p.stages| == 2 && tp > 0 && Coherent(input, tp, n, p.sequenceParallel)
    ensures |input| == tp
    ensures InputsFit(input, Option<Group<Stream>>.None, positions, p) <==> PlanFits(p, tp, n, |positions|)
  {
    assert |input[0]| == n;
  }

  /** What the stage builders produce for a coherent batch is the stage's entry and context. */
  lemma BuiltIsEntry(v: StageInputs<Stream, Stream, Position>, ids: Group<int>, m: Model, input: Group<Stream>,
                     positions: seq<Position>, inputIds: seq<int>, p: UbatchPlan, tp: nat, n: nat, s: nat)
    requires tp > 0 && PlanFits(p, tp, n, |positions|) && Coherent(input, tp, n, p.sequenceParallel) && s < 2
    requires |v.hidden| == |v.residuals| == |v.positions| == 2 && |inputIds| >= Tokens(p)
    requires StageBuilt(v, s, input, Option<Group<Stream>>.None, positions, p,
                        Zeros(m.zeroStream, m.zeroStream, m.zeroPosition))
    requires IdsLaidOut(ids, inputIds, p.stages[s], tp, p.sequenceParallel)
    ensures v.hidden[s] == StageEntry(m, input, p, tp, n, s, |positions|)
    ensures StageContext(v.positions[s], ids) == ContextOf(m, positions, inputIds, p, tp, n, s)
  {
    hide LayOut, StageRows, Whole;
    CutIsLaidOut(input, tp, n, p.stages[s], p.sequenceParallel, m.zeroStream);
  }

  /** run_async_moe_ubatch_forward on every rank, from the embedded batch to the restored hidden states. */
  method RunForward(m: Model, layers: seq<int>, input: Group<Stream>, positions: seq<Position>, inputIds: seq<int>,
                    p: UbatchPlan, runtimeSequenceParallel: bool, tp: nat, connector: Connector, ghost n: nat)
    returns (r: Outcome<Group<Stream>>)
    requires WellFormed(p) && tp > 0 && Faithful(m, tp, p.sequenceParallel) && Coherent(input, tp, n, p.sequenceParallel)
    requires connector.experts == m.experts && connector.pending == map[] && connector.wire == []
    modifies connector
    ensures r.Done? <==>
              && |p.stages| == 2 && runtimeSequenceParallel == p.sequenceParallel
              && PlanFits(p, tp, n, |positions|) && |inputIds| >= Tokens(p) && Gated(m, layers)
    ensures r.Done? ==>
              && r.value == ForwardResult(m, layers, input, positions, inputIds, p, tp, n)
              && connector.pending == map[] && connector.wire == []
              && connector.trace == old(connector.trace) + if layers == [] then [] else Schedule(layers)
  {
    hide Faithful, Fold, StageBuilt, LayOut, Cut, StageRows, ParentRows, Schedule, KeepsRows, InputsFit, Coherent;
    if |p.stages| != 2 {
      return Failed(NotTwoStages);
    }
    if runtimeSequenceParallel != p.sequenceParallel {
      return Failed(ModeMismatch);
    }
    InputsFitPlan(input, positions, p, tp, n);
    hide PlanFits;
    var zeros := Zeros(m.zeroStream, m.zeroStream, m.zeroPosition);
    var inputs := BuildStageInputs(input, Option<Group<Stream>>.None, positions, p, zeros);
    if inputs.Raised? {
      return Failed(BadLayout(inputs.guard));
    }
    var v := inputs.value;
    var ids := PadStageInputIds(inputIds, p, tp);
    if ids.Raised? {
      return Failed(BadLayout(ids.guard));
    }
    ghost var entry := (StageEntry(m, input, p, tp, n, 0, |positions|), StageEntry(m, input, p, tp, n, 1, |positions|));
    BuiltIsEntry(v, ids.value[0], m, input, positions, inputIds, p, tp, n, 0);
    BuiltIsEntry(v, ids.value[1], m, input, positions, inputIds, p, tp, n, 1);
    EntryIsCoherent(m, input, p, tp, n, 0, |positions|);
    EntryIsCoherent(m, input, p, tp, n, 1, |positions|);
    ghost var rows := (LocalRows(p.stages[0].inputTokens, tp, p.sequenceParallel),
                       LocalRows(p.stages[1].inputTokens, tp, p.sequenceParallel));
    var contexts := [StageContext(v.positions[0], ids.value[0]), StageContext(v.positions[1], ids.value[1])];
    var stages := new Stages(m, tp, p.sequenceParallel, contexts, v.hidden, connector);
    var ran := stages.RunSchedule(layers, entry, rows);
    match ran {
      case Failed(failure) => return Failed(failure);
      case Done(_) =>
    }
    ghost var a := StageResult(m, layers, input, positions, inputIds, p, tp, n, 0);
    ghost var b := StageResult(m, layers, input, positions, inputIds, p, tp, n, 1);
    StageResultIsCoherent(m, layers, input, positions, inputIds, p, tp, n, 0);
    StageResultIsCoherent(m, layers, input, positions, inputIds, p, tp, n, 1);
    StagesHold(a, b, p, tp, n, |positions|);
    assert stages.hidden == [a, b];
    RestoredIsLaidOut([a, b], TwoWholes(a, b, p.sequenceParallel), p, tp, m.zeroStream);
    var restored := RestoreStageOutputs(stages.hidden, p, tp, m.zeroStream);
    match restored {
      case Raised(guard) => return Failed(BadLayout(guard));
      case Fine(value) => return Done(value);
    }
  }
}
