/**
 The DeepSeek V4 two-stage Async CAM schedule: computed dispatches, outstanding layouts and the
 state needed to complete a layer wait in one slot per stage.
 */
module AsyncCamV4 {
  import opened Options
  import opened Rows
  import opened StagePlanner
  import opened CamLayout
  import opened CamDispatch
  import opened CamConnector
  import opened CamSchedule

  /** A row of the residual stream, wider than the rows the experts see. */
  type Stream(!new)
  type Position(!new)
  /** What hc_post needs to fold the experts' output back into the stream. */
  type FfnState(!new)

  datatype Attended = Attended(hidden: Group<Hidden>, routes: Group<Route>, ffnState: FfnState)

  /** What stays fixed for a stage during the forward. */
  datatype StageContext = StageContext(positions: Group<Position>, inputIds: Group<int>)

  datatype Model = Model(gatesOnAttention: int -> bool,
                         attend: (int, nat, StageContext, Group<Stream>) -> Attended,
                         complete: (int, nat, StageContext, Group<Hidden>, FfnState) -> Group<Stream>,
                         experts: Experts, zeroHidden: Hidden, zeroRoute: Route, zeroStream: Stream, zeroPosition: Position)

  // ------------------------------------------------ what a stage should compute

  /** One layer on one stage, without a pipeline. */
  function Layer(m: Model, layer: int, stage: nat, context: StageContext, st: Group<Stream>): Group<Stream> {
    var a := m.attend(layer, stage, context, st);
    if RowsAgree(a.hidden, a.routes) then
      m.complete(layer, stage, context, ApplyGroup(Ffn(m.experts, layer), a.hidden, a.routes), a.ffnState)
    else st
  }

  function Fold(m: Model, layers: seq<int>, n: nat, stage: nat, context: StageContext, st: Group<Stream>): Group<Stream>
    requires n <= |layers|
  {
    if n == 0 then st else Layer(m, layers[n - 1], stage, context, Fold(m, layers, n - 1, stage, context, st))
  }

  ghost predicate KeepsRows(m: Model, layer: int, stage: nat, context: StageContext, st: Group<Stream>,
                            tp: nat, n: nat, sp: bool)
  {
    var a := m.attend(layer, stage, context, st);
    && Coherent(a.hidden, tp, n, sp) && Coherent(a.routes, tp, n, sp)
    && Coherent(Layer(m, layer, stage, context, st), tp, n, sp)
  }

  /** Every layer keeps each rank's row count, and without sequence parallelism the same rows on every rank. */
  ghost predicate Faithful(m: Model, tp: nat, sp: bool) {
    forall layer, stage, context, st, n: nat | Coherent(st, tp, n, sp) :: KeepsRows(m, layer, stage, context, st, tp, n, sp)
  }

  /** Every layer of the forward routes on the Attention side. */
  predicate Gated(m: Model, layers: seq<int>) {
    forall i :: 0 <= i < |layers| ==> m.gatesOnAttention(layers[i])
  }

  lemma {:induction false} FoldIsCoherent(m: Model, layers: seq<int>, k: nat, stage: nat, context: StageContext,
                                          st: Group<Stream>, tp: nat, n: nat, sp: bool)
    requires k <= |layers| && Faithful(m, tp, sp) && Coherent(st, tp, n, sp)
    ensures Coherent(Fold(m, layers, k, stage, context, st), tp, n, sp)
  {
    hide Coherent, Layer;
    if k > 0 {
      FoldIsCoherent(m, layers, k - 1, stage, context, st, tp, n, sp);
      assert KeepsRows(m, layers[k - 1], stage, context, Fold(m, layers, k - 1, stage, context, st), tp, n, sp);
    }
  }

  /**
   `after` is `before` taken through one layer: attention, what the experts make of every row and its ids,
   combined with the row's own route, and the fold of those rows back into the stream.
   */
  ghost predicate Advances(m: Model, layer: int, stage: nat, context: StageContext,
                           before: Group<Stream>, after: Group<Stream>)
  {
    var a := m.attend(layer, stage, context, before);
    && RowsAgree(a.hidden, a.routes)
    && exists rows :: Fed(m.experts, layer, a.hidden, a.routes, rows)
                      && after == m.complete(layer, stage, context, rows, a.ffnState)
  }

  ghost predicate Fed(x: Experts, layer: int, hidden: Group<Hidden>, routes: Group<Route>, rows: Group<Hidden>)
    requires RowsAgree(hidden, routes)
  {
    && |rows| == |hidden| && (forall r :: 0 <= r < |hidden| ==> |rows[r]| == |hidden[r]|)
    && forall r, i :: 0 <= r < |hidden| && 0 <= i < |hidden[r]| ==>
         var route := routes[r][i];
         rows[r][i] == x.combine(x.expert(layer, hidden[r][i], route.ids), route.ids, route.weights)
  }

  ghost predicate AdvancesAt(m: Model, layers: seq<int>, stage: nat, context: StageContext, run: seq<Group<Stream>>, i: nat)
    requires i < |layers| && i + 1 < |run|
  {
    Advances(m, layers[i], stage, context, run[i], run[i + 1])
  }

  /** A run of `layers` on one stage: every state follows from the one before by one layer. */
  ghost predicate RunsThrough(m: Model, layers: seq<int>, stage: nat, context: StageContext, run: seq<Group<Stream>>) {
    && |run| == |layers| + 1
    && forall i :: 0 <= i < |layers| ==> AdvancesAt(m, layers, stage, context, run, i)
  }

  lemma LayerAdvances(m: Model, layer: int, stage: nat, context: StageContext, st: Group<Stream>, tp: nat, n: nat, sp: bool)
    requires Faithful(m, tp, sp) && Coherent(st, tp, n, sp)
    ensures Advances(m, layer, stage, context, st, Layer(m, layer, stage, context, st))
  {
    assert KeepsRows(m, layer, stage, context, st, tp, n, sp);
    var a := m.attend(layer, stage, context, st);
    CoherentRowsAgree(a.hidden, a.routes, n, sp);
    assert Fed(m.experts, layer, a.hidden, a.routes, ApplyGroup(Ffn(m.experts, layer), a.hidden, a.routes));
  }

  /** The fold is where such a run ends. */
  lemma FoldRunsThrough(m: Model, layers: seq<int>, stage: nat, context: StageContext, st: Group<Stream>,
                        tp: nat, n: nat, sp: bool)
    returns (run: seq<Group<Stream>>)
    requires Faithful(m, tp, sp) && Coherent(st, tp, n, sp)
    ensures |run| == |layers| + 1 && RunsThrough(m, layers, stage, context, run)
    ensures run[0] == st && run[|layers|] == Fold(m, layers, |layers|, stage, context, st)
  {
    hide Layer, Advances, Coherent, Faithful;
    run := seq(|layers| + 1, k requires 0 <= k <= |layers| => Fold(m, layers, k, stage, context, st));
    forall i | 0 <= i < |layers|
      ensures AdvancesAt(m, layers, stage, context, run, i)
    {
      FoldIsCoherent(m, layers, i, stage, context, st, tp, n, sp);
      LayerAdvances(m, layers[i], stage, context, run[i], tp, n, sp);
    }
  }

  // -------------------------------------------------------- stage token ids

  const PAD_INPUT_ID := -1

  /** _pad_stage_input_ids on every rank: the ids each physical stage's rows stand for. */
  method PadStageInputIds(inputIds: seq<int>, p: UbatchPlan, tp: nat) returns (r: Checked<seq<Group<int>>>)
    requires WellFormed(p) && tp > 0
    ensures r.Fine? <==>
              && |inputIds| >= p.stages[|p.stages| - 1].tokenStop
              && (p.sequenceParallel ==> forall i :: 0 <= i < |p.stages| ==> p.stages[i].inputTokens % tp == 0)
    ensures r.Fine? ==>
              && |r.value| == |p.stages| && SlicesFit(p.stages, |inputIds|)
              && forall i :: 0 <= i < |p.stages| ==>
                   IdsLaidOut(r.value[i], inputIds, p.stages[i], tp, p.sequenceParallel)
  {
    hide StageRows;
    PlanSlicesFit(p);
    var staged := LastStop(p.stages);
    LastStopIsTokens(p);
    hide WellFormed;
    if |inputIds| < staged {
      return Raised(InputIdRows);
    }
    var stageIds: seq<Group<int>> := [];
    for i := 0 to |p.stages|
      invariant |stageIds| == i
      invariant p.sequenceParallel ==> forall j :: 0 <= j < i ==> p.stages[j].inputTokens % tp == 0
      invariant forall j :: 0 <= j < i ==> SliceFits(p.stages[j], |inputIds|)
      invariant forall j :: 0 <= j < i ==> IdsLaidOut(stageIds[j], inputIds, p.stages[j], tp, p.sequenceParallel)
    {
      var stage := p.stages[i];
      assert SliceFits(stage, Tokens(p));
      var ids := SliceIds(inputIds, stage);
      if p.sequenceParallel {
        if stage.inputTokens % tp != 0 {
          return Raised(StageNotShardable);
        }
        stageIds := stageIds + [Shards(ids, tp)];
      } else {
        stageIds := stageIds + [seq(tp, _ => ids)];
      }
    }
    return Fine(stageIds);
  }

  /** The ids of one stage's tokens, padded to its extent. */
  method SliceIds(inputIds: seq<int>, stage: Stage) returns (ids: seq<int>)
    requires SliceFits(stage, |inputIds|)
    ensures ids == StageRows(inputIds, stage, PAD_INPUT_ID)
  {
    ids := inputIds[stage.tokenStart..stage.tokenStop];
    if |ids| < stage.inputTokens {
      ids := Pad(ids, stage.inputTokens, PAD_INPUT_ID);
    }
  }

  ghost predicate IdsLaidOut(ids: Group<int>, inputIds: seq<int>, st: Stage, tp: nat, sp: bool)
    requires tp > 0
  {
    && SliceFits(st, |inputIds|) && (sp ==> st.inputTokens % tp == 0)
    && ids == LayOut(StageRows(inputIds, st, PAD_INPUT_ID), tp, sp)
  }

  /** The largest stop of any stage. */
  function LastStop(stages: seq<Stage>): (m: int)
    requires |stages| > 0
    ensures forall i :: 0 <= i < |stages| ==> stages[i].tokenStop <= m
    ensures exists i :: 0 <= i < |stages| && stages[i].tokenStop == m
  {
    var n := |stages| - 1;
    if n == 0 then stages[0].tokenStop
    else
      var m := LastStop(stages[..n]);
      assert forall i :: 0 <= i < n ==> stages[..n][i] == stages[i];
      if stages[n].tokenStop >= m then stages[n].tokenStop else m
  }

  lemma LastStopIsTokens(p: UbatchPlan)
    requires WellFormed(p)
    ensures LastStop(p.stages) == Tokens(p)
  {
    forall i | 0 <= i < |p.stages|
      ensures p.stages[i].tokenStop <= Tokens(p)
    {
      SlicesInBatch(p, i);
    }
  }

  /** On every rank a real row and its id come from the same token of the batch, and padded rows have the padding id. */
  lemma IdsFollowRows<R>(rows: seq<R>, inputIds: seq<int>, st: Stage, tp: nat, sp: bool, z: R, r: nat, j: nat)
    requires SliceFits(st, |rows|) && SliceFits(st, |inputIds|) && r < tp && (sp ==> st.inputTokens % tp == 0)
    requires j < if sp then st.inputTokens / tp else st.inputTokens
    ensures j < |LayOut(StageRows(rows, st, z), tp, sp)[r]|
    ensures j < |LayOut(StageRows(inputIds, st, PAD_INPUT_ID), tp, sp)[r]|
    ensures var i := if sp then r * (st.inputTokens / tp) + j else j;
            && 0 <= i < st.inputTokens
            && LayOut(StageRows(rows, st, z), tp, sp)[r][j]
               == (if i < st.tokenStop - st.tokenStart then rows[st.tokenStart + i] else z)
            && LayOut(StageRows(inputIds, st, PAD_INPUT_ID), tp, sp)[r][j]
               == (if i < st.tokenStop - st.tokenStart then inputIds[st.tokenStart + i] else -1)
  {
    hide LayOut, StageRows;
    StageRowOnRank(rows, st, tp, sp, z, r, j);
    StageRowOnRank(inputIds, st, tp, sp, PAD_INPUT_ID, r, j);
  }

  // ------------------------------------------------------------------ the slots

  datatype Failure =
    | NotTwoStages
    | ModeMismatch
    | BadLayout(guard: Guard)
    | GateNotOnAttention
    | NotComputed
    | NoPendingWork
    | ReceiveFailed(receive: Receive)

  datatype Outcome<+T> = Done(value: T) | Failed(failure: Failure)

  class Stages {
    const m: Model
    const tp: nat
    const sp: bool
    const contexts: seq<StageContext>
    const connector: Connector
    var hidden: seq<Group<Stream>>
    /** Computed and not yet sent. */
    var computed: seq<Option<seq<Payload<Hidden, Route>>>>
    /** Sent and not yet received: one layout per rank. */
    var layouts: seq<Option<seq<Layout>>>
    var ffnStates: seq<Option<FfnState>>

    constructor (m: Model, tp: nat, sp: bool, contexts: seq<StageContext>, hidden: seq<Group<Stream>>, connector: Connector)
      requires |contexts| == |hidden| == 2
      ensures this.m == m && this.tp == tp && this.sp == sp && this.contexts == contexts && this.connector == connector
      ensures Shaped() && this.hidden == hidden && Empty(0) && Empty(1)
    {
      this.m, this.tp, this.sp, this.contexts, this.hidden, this.connector := m, tp, sp, contexts, hidden, connector;
      computed, layouts, ffnStates := [None, None], [None, None], [None, None];
    }

    ghost predicate Shaped()
      reads this
    {
      && |contexts| == |hidden| == |computed| == |layouts| == |ffnStates| == 2
      && (forall s :: 0 <= s < 2 && layouts[s].Some? ==> Padded(layouts[s].value))
      && (forall s :: 0 <= s < 2 && computed[s].Some? ==> Padded(LayoutsOf(computed[s].value)))
    }

    ghost predicate Empty(s: nat)
      reads this
      requires Shaped() && s < 2
    {
      computed[s].None? && layouts[s].None? && ffnStates[s].None?
    }

    /** Nothing about stage `s` has changed. */
    twostate predicate Kept(s: nat)
      reads this
    {
      && s < |hidden| == |old(hidden)| && s < |computed| == |old(computed)|
      && s < |layouts| == |old(layouts)| && s < |ffnStates| == |old(ffnStates)|
      && hidden[s] == old(hidden[s]) && computed[s] == old(computed[s])
      && layouts[s] == old(layouts[s]) && ffnStates[s] == old(ffnStates[s])
    }

    function Attend(layer: int, s: nat): Attended
      reads this
      requires s < |contexts| && s < |hidden|
    {
      m.attend(layer, s, contexts[s], hidden[s])
    }

    /** Attention of one stage, prepared for dispatch. */
    method ComputeStageAttention(layer: int, s: nat) returns (r: Outcome<()>)
      requires Shaped() && s < 2
      modifies this`computed, this`ffnStates, connector`trace
      ensures r.Done? <==> m.gatesOnAttention(layer) && RowsAgree(old(Attend(layer, s)).hidden, old(Attend(layer, s)).routes)
      ensures r.Done? ==> var a := old(Attend(layer, s));
                && Shaped() && Kept(1 - s)
                && computed[s] == Some(Payloads(a.hidden, a.routes, sp, m.zeroHidden, m.zeroRoute))
                && ffnStates[s] == Some(a.ffnState)
                && connector.trace == old(connector.trace) + [Computed(layer, s)]
    {
      if !m.gatesOnAttention(layer) {
        return Failed(GateNotOnAttention);
      }
      var a := Attend(layer, s);
      if !RowsAgree(a.hidden, a.routes) {
        return Failed(BadLayout(RouteRows));
      }
      PayloadRowsAgree(a.hidden, a.routes, sp, m.zeroHidden, m.zeroRoute);
      computed := computed[s := Some(Payloads(a.hidden, a.routes, sp, m.zeroHidden, m.zeroRoute))];
      ffnStates := ffnStates[s := Some(a.ffnState)];
      connector.trace := connector.trace + [Computed(layer, s)];
      return Done(());
    }

    /** Dispatch what the stage computed. */
    method SendStageAttention(layer: int, s: nat) returns (r: Outcome<()>)
      requires Shaped() && s < 2
      modifies this`computed, this`layouts, connector
      ensures r.Done? <==>
                && old(computed[s]).Some?
                && RowsAgree(SentHidden(old(computed[s]).value), SentRoutes(old(computed[s]).value))
      ensures r.Done? ==> var p := old(computed[s]).value;
                && Shaped() && Kept(1 - s) && computed[s].None? && layouts[s] == Some(LayoutsOf(p))
                && connector.Put(s, layer, SentHidden(p), SentRoutes(p))
    {
      if computed[s].None? {
        return Failed(NotComputed);
      }
      var p := computed[s].value;
      var sent := connector.SendAttnOutput(SentHidden(p), layer, s, SentRoutes(p));
      if !sent {
        return Failed(BadLayout(RouteRows));
      }
      layouts := layouts[s := Some(LayoutsOf(p))];
      computed := computed[s := None];
      return Done(());
    }

    /** Receive the stage's dispatch, restore it, and complete the layer. */
    method ReceiveAndComplete(layer: int, s: nat) returns (r: Outcome<()>)
      requires Shaped() && s < 2
      modifies this`hidden, this`layouts, this`ffnStates, connector
      ensures r.Done? <==> old(ffnStates[s].Some? && connector.Restores(s, layouts[s]))
      ensures r.Done? ==>
                && Shaped() && Kept(1 - s) && computed[s] == old(computed[s]) && layouts[s].None? && ffnStates[s].None?
                && hidden[s] == old(m.complete(layer, s, contexts[s], connector.Restored(s, layouts[s]), ffnStates[s].value))
                && connector.Took(s)
    {
      if layouts[s].None? || ffnStates[s].None? {
        return Failed(NoPendingWork);
      }
      var received := connector.RecvFfnOutput(s);
      if !received.Output? || |received.rows| != |layouts[s].value| {
        return Failed(ReceiveFailed(received));
      }
      var restored := RestoreAll(received.rows, layouts[s].value);
      if restored.Raised? {
        return Failed(BadLayout(restored.guard));
      }
      hidden := hidden[s := m.complete(layer, s, contexts[s], restored.value, ffnStates[s].value)];
      layouts := layouts[s := None];
      ffnStates := ffnStates[s := None];
      return Done(());
    }

    // ---------------------------------------------------------- the schedule

    ghost predicate Hypotheses()
      reads this
    {
      Shaped() && tp > 0 && Faithful(m, tp, sp) && connector.experts == m.experts
    }

    ghost predicate Idle(s: nat, st: Group<Stream>)
      reads this
      requires Shaped() && s < 2
    {
      hidden[s] == st && Empty(s)
    }

    /** Stage `s` has dispatched `layer` computed from its rows, and that is all that is outstanding. */
    ghost predicate InFlight(layer: int, s: nat, st: Group<Stream>)
      reads this, connector
      requires Shaped() && s < 2
    {
      var a := m.attend(layer, s, contexts[s], st);
      && hidden[s] == st && RowsAgree(a.hidden, a.routes)
      && computed[s].None? && ffnStates[s] == Some(a.ffnState)
      && var p := Payloads(a.hidden, a.routes, sp, m.zeroHidden, m.zeroRoute);
         && layouts[s] == Some(LayoutsOf(p))
         && connector.pending == map[s := [Pending(layer, s, SentRoutes(p))]]
         && connector.wire == [Dispatch(layer, s, SentHidden(p), IdsOf(SentRoutes(p)))]
    }

    /** The outstanding dispatch completes the layer on the stage's rows. */
    lemma InFlightReturns(layer: int, s: nat, st: Group<Stream>, n: nat)
      requires Hypotheses() && s < 2 && Coherent(st, tp, n, sp) && InFlight(layer, s, st)
      ensures ffnStates[s].Some? && connector.Restores(s, layouts[s])
      ensures m.complete(layer, s, contexts[s], connector.Restored(s, layouts[s]), ffnStates[s].value)
              == Layer(m, layer, s, contexts[s], st)
    {
      hide Coherent, Answer, RestoreDispatch, Padded;
      var a := m.attend(layer, s, contexts[s], st);
      assert KeepsRows(m, layer, s, contexts[s], st, tp, n, sp);
      CoherentSize(a.hidden, tp, n, sp);
      AnsweredDispatch(m.experts, layer, s, a.hidden, a.routes, n, sp, m.zeroHidden, m.zeroRoute);
    }

    /** Receive the outstanding dispatch of stage `s` and complete its layer. */
    method Collect(layer: int, s: nat, ghost st: Group<Stream>, ghost n: nat) returns (r: Outcome<()>)
      requires Shaped() && s < 2
      modifies this`hidden, this`layouts, this`ffnStates, connector
      ensures r.Done? ==> Shaped()
      ensures old(Hypotheses() && Coherent(st, tp, n, sp) && InFlight(layer, s, st))
              ==> && r.Done? && Idle(s, Layer(m, layer, s, contexts[s], st)) && Kept(1 - s)
                  && connector.pending == map[] && connector.wire == []
                  && connector.trace == old(connector.trace) + [Received(layer, s, layer, s)]
    {
      hide Layer, Coherent, Faithful, RestoreDispatch;
      if Hypotheses() && Coherent(st, tp, n, sp) && InFlight(layer, s, st) {
        InFlightReturns(layer, s, st, n);
      }
      r := ReceiveAndComplete(layer, s);
    }

    lemma SoundStagesCompute(layer: int, s: nat, n: nat)
      requires Hypotheses() && s < 2 && Coherent(hidden[s], tp, n, sp)
      ensures RowsAgree(Attend(layer, s).hidden, Attend(layer, s).routes)
      ensures var p := Payloads(Attend(layer, s).hidden, Attend(layer, s).routes, sp, m.zeroHidden, m.zeroRoute);
              RowsAgree(SentHidden(p), SentRoutes(p))
    {
      assert KeepsRows(m, layer, s, contexts[s], hidden[s], tp, n, sp);
      PayloadRowsAgree(Attend(layer, s).hidden, Attend(layer, s).routes, sp, m.zeroHidden, m.zeroRoute);
    }

    /** The first dispatch of the schedule. */
    method Launch(layer: int, ghost st: Group<Stream>, ghost n: nat) returns (r: Outcome<()>)
      requires Shaped()
      modifies this, connector
      ensures r.Done? ==> Shaped() && m.gatesOnAttention(layer)
      ensures old(Hypotheses() && Coherent(st, tp, n, sp) && Idle(0, st) && connector.pending == map[] && connector.wire == [])
              && m.gatesOnAttention(layer)
              ==> && r.Done? && InFlight(layer, 0, st) && Kept(1)
                  && connector.trace == old(connector.trace) + Opening(layer)
    {
      hide Layer, Faithful;
      if Hypotheses() && Coherent(st, tp, n, sp) && Idle(0, st) {
        SoundStagesCompute(layer, 0, n);
      }
      hide Coherent;
      r := ComputeStageAttention(layer, 0);
      if r.Failed? {
        return;
      }
      r := SendStageAttention(layer, 0);
      FirstOfQueue<Pending>(0);
    }

    /** Compute stage `s` while the other stage is with the experts, complete the other, dispatch `s`. */
    method Turn(layer: int, s: nat, ghost st: Group<Stream>, ghost n: nat,
                other: int, ghost otherSt: Group<Stream>, ghost otherN: nat)
      returns (r: Outcome<()>)
      requires Shaped() && s < 2
      modifies this, connector
      ensures r.Done? ==> Shaped() && m.gatesOnAttention(layer)
      ensures old(Hypotheses() && Coherent(st, tp, n, sp) && Idle(s, st)
                  && Coherent(otherSt, tp, otherN, sp) && InFlight(other, 1 - s, otherSt))
              && m.gatesOnAttention(layer)
              ==> && r.Done? && InFlight(layer, s, st)
                  && Idle(1 - s, Layer(m, other, 1 - s, contexts[1 - s], otherSt))
                  && connector.trace == old(connector.trace) + TurnEvents(layer, s, other)
    {
      hide Layer, Faithful;
      if Hypotheses() && Coherent(st, tp, n, sp) && Idle(s, st) {
        SoundStagesCompute(layer, s, n);
      }
      hide Coherent;
      r := ComputeStageAttention(layer, s);
      if r.Failed? {
        return;
      }
      r := Collect(other, 1 - s, otherSt, otherN);
      if r.Failed? {
        return;
      }
      r := SendStageAttention(layer, s);
      FirstOfQueue<Pending>(s);
    }

    ghost function After(layers: seq<int>, k: nat, s: nat, initial: (Group<Stream>, Group<Stream>)): Group<Stream>
      requires k <= |layers| && s < 2 && |contexts| == 2
    {
      Fold(m, layers, k, s, contexts[s], if s == 0 then initial.0 else initial.1)
    }

    ghost predicate BothCoherent(initial: (Group<Stream>, Group<Stream>), rows: (nat, nat)) {
      Coherent(initial.0, tp, rows.0, sp) && Coherent(initial.1, tp, rows.1, sp)
    }

    lemma AfterIsCoherent(layers: seq<int>, k: nat, initial: (Group<Stream>, Group<Stream>), rows: (nat, nat))
      requires Hypotheses() && k <= |layers| && BothCoherent(initial, rows)
      ensures Coherent(After(layers, k, 0, initial), tp, rows.0, sp)
      ensures Coherent(After(layers, k, 1, initial), tp, rows.1, sp)
    {
      FoldIsCoherent(m, layers, k, 0, contexts[0], initial.0, tp, rows.0, sp);
      FoldIsCoherent(m, layers, k, 1, contexts[1], initial.1, tp, rows.1, sp);
    }

    /** One pass of the schedule's loop: stage 1 takes layer `i`, then stage 0 takes the next one. */
    method Round(layers: seq<int>, i: nat, ghost initial: (Group<Stream>, Group<Stream>), ghost rows: (nat, nat),
                 ghost before: seq<Event>)
      returns (r: Outcome<()>)
      requires Shaped() && i + 1 < |layers|
      modifies this, connector
      ensures r.Done? ==> Shaped() && m.gatesOnAttention(layers[i + 1])
      ensures old(BothCoherent(initial, rows) && Underway(layers, i, initial, before)) && Gated(m, layers) ==>
                r.Done? && Underway(layers, i + 1, initial, before)
    {
      hide InFlight, Coherent, Faithful, Layer;
      if BothCoherent(initial, rows) && Underway(layers, i, initial, before) {
        AfterIsCoherent(layers, i, initial, rows);
        AfterIsCoherent(layers, i + 1, initial, rows);
      }
      r := Turn(layers[i], 1, After(layers, i, 1, initial), rows.1, layers[i], After(layers, i, 0, initial), rows.0);
      if r.Failed? {
        return;
      }
      r := Turn(layers[i + 1], 0, After(layers, i + 1, 0, initial), rows.0, layers[i], After(layers, i, 1, initial), rows.1);
    }

    /** _run_two_stage_async_moe_schedule. */
    method RunSchedule(layers: seq<int>, ghost initial: (Group<Stream>, Group<Stream>), ghost rows: (nat, nat))
      returns (r: Outcome<()>)
      requires Shaped()
      modifies this, connector
      ensures r.Done? ==> Shaped() && Gated(m, layers)
      ensures old(Hypotheses() && BothCoherent(initial, rows) && Idle(0, initial.0) && Idle(1, initial.1)
                  && connector.pending == map[] && connector.wire == []) && Gated(m, layers)
              ==> && r.Done?
                  && Idle(0, After(layers, |layers|, 0, initial)) && Idle(1, After(layers, |layers|, 1, initial))
                  && connector.pending == map[] && connector.wire == []
                  && connector.trace == old(connector.trace) + if layers == [] then [] else Schedule(layers)
    {
      hide InFlight, Coherent, Faithful, Layer, TurnEvents, Opening;
      if layers == [] {
        return Done(());
      }
      ghost var ready := Hypotheses() && BothCoherent(initial, rows) && Idle(0, initial.0) && Idle(1, initial.1)
                         && connector.pending == map[] && connector.wire == [] && Gated(m, layers);
      ghost var before := connector.trace;
      r := Launch(layers[0], initial.0, rows.0);
      if r.Failed? {
        return;
      }
      var last := |layers| - 1;
      for i := 0 to last
        invariant Shaped()
        invariant forall k :: 0 <= k <= i ==> m.gatesOnAttention(layers[k])
        invariant ready ==> Underway(layers, i, initial, before)
      {
        r := Round(layers, i, initial, rows, before);
        if r.Failed? {
          return;
        }
      }
      if ready {
        AfterIsCoherent(layers, last, initial, rows);
      }
      r := Turn(layers[last], 1, After(layers, last, 1, initial), rows.1,
                layers[last], After(layers, last, 0, initial), rows.0);
      if r.Failed? {
        return;
      }
      r := Collect(layers[last], 1, After(layers, last, 1, initial), rows.1);
    }

    /** Stage 0 is out with layer `i`; stage 1 has completed the layers before it. */
    ghost predicate Underway(layers: seq<int>, i: nat, initial: (Group<Stream>, Group<Stream>), before: seq<Event>)
      reads this, connector
      requires Shaped() && i < |layers|
    {
      && Hypotheses()
      && InFlight(layers[i], 0, After(layers, i, 0, initial)) && Idle(1, After(layers, i, 1, initial))
      && connector.trace == before + EventsUpTo(layers, i)
    }
  }
}
