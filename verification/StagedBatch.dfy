/**
 A planned batch on the tensor-parallel group: when its plan fits, and when its stages can be restored.
 */
module StagedBatch {
  import opened StagePlanner
  import opened CamLayout

  /** The plan fits a batch that gives every rank `n` rows. */
  ghost predicate PlanFits(p: UbatchPlan, tp: nat, n: int, positions: int)
    requires tp > 0
  {
    && WellFormed(p) && |p.stages| == STAGE_COUNT
    && n == LocalRows(p.parentTokens, tp, p.sequenceParallel) && positions == p.parentTokens
    && (p.sequenceParallel ==> tp > 1 && p.parentTokens % tp == 0 && Divisible(p, tp))
  }

  /** A planned batch fits whenever the parent extent covers it and divides over the ranks. */
  lemma PlannedBatchFits(counts: seq<int>, split: Split, sp: bool, tp: nat, parent: int)
    requires Plan(counts, split, sp, tp).Staged? && parent >= Sum(counts, |counts|)
    requires sp ==> tp > 1 && parent % tp == 0
    ensures tp > 0
    ensures var Staged(a, b) := Plan(counts, split, sp, tp);
            var p := UbatchPlan(2, [a, b], parent, sp);
            PlanFits(p, tp, LocalRows(parent, tp, sp), parent) && Tokens(p) == Sum(counts, |counts|)
  {
    PlannerCovers(counts, split, sp, tp);
    PlannerPlansAreWellFormed(counts, split, sp, tp, parent);
  }

  lemma WholeIsParent<R>(g: Group<R>, p: UbatchPlan, tp: nat, n: nat, positions: int)
    requires tp > 0 && PlanFits(p, tp, n, positions) && Coherent(g, tp, n, p.sequenceParallel)
    ensures |Whole(g, p.sequenceParallel)| == p.parentTokens
  {
    CoherentIsLaidOut(g, tp, n, p.sequenceParallel);
  }

  lemma PositionsFit(p: UbatchPlan, tp: nat, n: int, positions: int, s: nat)
    requires tp > 0 && PlanFits(p, tp, n, positions) && s < 2
    ensures |p.stages| == 2 && SliceFits(p.stages[s], positions) && p.stages[s].inputTokens > 0
    ensures p.sequenceParallel ==> p.stages[s].inputTokens % tp == 0
  {
    PlanSlicesFit(p);
    assert Follows(p.stages, s);
  }

  /** The stages hold `wholes` in the plan's extents and the parent divides over the ranks. */
  ghost predicate Holds<R>(outputs: seq<Group<R>>, wholes: seq<seq<R>>, p: UbatchPlan, tp: nat)
    requires tp > 0
  {
    && LaidOut(outputs, wholes, tp, p.sequenceParallel) && RowsMatch(wholes, p.stages)
    && (p.sequenceParallel ==> p.parentTokens % tp == 0)
  }

  ghost function TwoWholes<R>(a: Group<R>, b: Group<R>, sp: bool): seq<seq<R>>
    requires |a| > 0 && |b| > 0
  {
    [Whole(a, sp), Whole(b, sp)]
  }

  /** A coherent group with a stage's local rows stands for the stage's extent. */
  lemma OneStageHolds<R>(g: Group<R>, extent: nat, tp: nat, sp: bool)
    requires tp > 0 && (sp ==> extent % tp == 0) && Coherent(g, tp, LocalRows(extent, tp, sp), sp)
    ensures |g| > 0 && |Whole(g, sp)| == extent && g == LayOut(Whole(g, sp), tp, sp)
  {
    CoherentSize(g, tp, LocalRows(extent, tp, sp), sp);
    CoherentIsLaidOut(g, tp, LocalRows(extent, tp, sp), sp);
    assert sp ==> tp * (extent / tp) == extent;
  }

  /** Two stages that the group holds coherently in the plan's extents can be restored. */
  lemma StagesHold<R>(a: Group<R>, b: Group<R>, p: UbatchPlan, tp: nat, n: int, positions: int)
    requires tp > 0 && PlanFits(p, tp, n, positions)
    requires Coherent(a, tp, LocalRows(p.stages[0].inputTokens, tp, p.sequenceParallel), p.sequenceParallel)
    requires Coherent(b, tp, LocalRows(p.stages[1].inputTokens, tp, p.sequenceParallel), p.sequenceParallel)
    ensures WellFormed(p) && |p.stages| == 2
    ensures |a| > 0 && |b| > 0 && Holds([a, b], TwoWholes(a, b, p.sequenceParallel), p, tp)
  {
    PositionsFit(p, tp, n, positions, 0);
    PositionsFit(p, tp, n, positions, 1);
    OneStageHolds(a, p.stages[0].inputTokens, tp, p.sequenceParallel);
    OneStageHolds(b, p.stages[1].inputTokens, tp, p.sequenceParallel);
    hide Coherent, LayOut, Whole, LocalRows, WellFormed;
  }

  // ------------------------------------------------------- stages, row by row

  /** `g` stands for one stage's tokens of `whole`, in order, then zero rows up to the stage's extent. */
  ghost predicate CutFrom<R>(g: Group<R>, whole: seq<R>, st: Stage, tp: nat, sp: bool, z: R)
    requires tp > 0 && 0 <= st.tokenStart <= st.tokenStop <= |whole|
  {
    && Coherent(g, tp, if sp then st.inputTokens / tp else st.inputTokens, sp)
    && |Whole(g, sp)| == st.inputTokens
    && forall i :: 0 <= i < st.inputTokens ==>
         Whole(g, sp)[i] == if i < st.tokenStop - st.tokenStart then whole[st.tokenStart + i] else z
  }

  lemma LaidOutIsCut<R>(whole: seq<R>, st: Stage, tp: nat, sp: bool, z: R)
    requires tp > 0 && SliceFits(st, |whole|) && (sp ==> st.inputTokens % tp == 0)
    ensures CutFrom(LayOut(StageRows(whole, st, z), tp, sp), whole, st, tp, sp, z)
  {
    hide LayOut, StageRows, Whole;
    LaidOutIsCoherent(StageRows(whole, st, z), tp, sp);
    forall i | 0 <= i < st.inputTokens
      ensures StageRows(whole, st, z)[i] == if i < st.tokenStop - st.tokenStart then whole[st.tokenStart + i] else z
    {
      StageRowsAt(whole, st, z, i);
    }
  }

  /** `g` stands for the real rows of both stages, in token order, then zero rows up to the parent extent. */
  ghost predicate JoinedFrom<R>(g: Group<R>, a: Group<R>, b: Group<R>, p: UbatchPlan, tp: nat, z: R)
    requires tp > 0 && WellFormed(p) && |p.stages| == 2 && |a| > 0 && |b| > 0
  {
    var sp := p.sequenceParallel;
    && Coherent(g, tp, if sp then p.parentTokens / tp else p.parentTokens, sp)
    && |Whole(g, sp)| == p.parentTokens
    && (forall q :: p.stages[0].tokenStart <= q < p.stages[0].tokenStop ==>
          0 <= q < |Whole(a, sp)| && q < p.parentTokens && Whole(g, sp)[q] == Whole(a, sp)[q])
    && (forall q :: p.stages[1].tokenStart <= q < p.stages[1].tokenStop ==>
          && 0 <= q < p.parentTokens && 0 <= q - p.stages[1].tokenStart < |Whole(b, sp)|
          && Whole(g, sp)[q] == Whole(b, sp)[q - p.stages[1].tokenStart])
    && (forall q :: p.stages[1].tokenStop <= q < p.parentTokens ==> 0 <= q && Whole(g, sp)[q] == z)
  }

  lemma LaidOutIsJoined<R>(a: Group<R>, b: Group<R>, p: UbatchPlan, tp: nat, z: R)
    requires tp > 0 && WellFormed(p) && |p.stages| == 2 && |a| > 0 && |b| > 0
    requires Holds([a, b], TwoWholes(a, b, p.sequenceParallel), p, tp)
    ensures JoinedFrom(LayOut(ParentRows(TwoWholes(a, b, p.sequenceParallel), p, z), tp, p.sequenceParallel), a, b, p, tp, z)
  {
    hide LayOut, ParentRows, Whole, Coherent, WellFormed, LaidOut;
    var sp, wholes := p.sequenceParallel, TwoWholes(a, b, p.sequenceParallel);
    var parent := ParentRows(wholes, p, z);
    LaidOutIsCoherent(parent, tp, sp);
    SlicesInBatch(p, 0);
    SlicesInBatch(p, 1);
    PlanSlicesFit(p);
    StageZeroStarts(p);
    forall q | 0 <= q < p.parentTokens
      ensures p.stages[0].tokenStart <= q < p.stages[0].tokenStop ==> q < |wholes[0]| && parent[q] == wholes[0][q]
      ensures p.stages[1].tokenStart <= q < p.stages[1].tokenStop ==>
                q - p.stages[1].tokenStart < |wholes[1]| && parent[q] == wholes[1][q - p.stages[1].tokenStart]
      ensures p.stages[1].tokenStop <= q ==> parent[q] == z
    {
      ParentRowsAt(wholes, p, z, 0, q);
      ParentRowsAt(wholes, p, z, 1, q);
    }
  }

  lemma StageZeroStarts(p: UbatchPlan)
    requires WellFormed(p)
    ensures p.stages[0].tokenStart == 0
  {
    assert Follows(p.stages, 0);
  }
}
