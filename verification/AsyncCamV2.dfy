/**
 The DeepSeek V2 two-stage Async CAM forward: stage 0 and stage 1 take turns, one in its
 attention while the other's rows are with the remote feed-forward side.
 */
module AsyncCamV2 {
  import opened Options
  import opened StagePlanner
  import opened CamLayout
  import opened CamDispatch
  import opened CamConnector
  import opened CamSchedule

  type Residual(!new)
  type Position(!new)

  datatype Attended = Attended(hidden: Group<Hidden>, residual: Group<Residual>, routes: Option<Group<Route>>)

  datatype StageState = StageState(hidden: Group<Hidden>, residual: Option<Group<Residual>>)

  /** The attention of each layer and stage, as a function of the whole group's tensors. */
  type Attention = (int, nat, Group<Position>, StageState) -> Attended

  datatype Model = Model(attend: Attention, experts: Experts, zeroHidden: Hidden, zeroResidual: Residual,
                         zeroPosition: Position, zeroRoute: Route)

  // --------------------------------------------------- what a stage should compute

  /** One layer on one stage, without a pipeline: attention, then feed-forward on every row. */
  function Layer(m: Model, layer: int, stage: nat, positions: Group<Position>, st: StageState): StageState {
    var a := m.attend(layer, stage, positions, st);
    if a.routes.Some? && RowsAgree(a.hidden, a.routes.value) then
      StageState(ApplyGroup(Ffn(m.experts, layer), a.hidden, a.routes.value), Some(a.residual))
    else st
  }

  /** The first `n` layers, one after the other. */
  function Fold(m: Model, layers: seq<int>, n: nat, stage: nat, positions: Group<Position>, st: StageState): StageState
    requires n <= |layers|
  {
    if n == 0 then st else Layer(m, layers[n - 1], stage, positions, Fold(m, layers, n - 1, stage, positions, st))
  }

  ghost predicate Sound(st: StageState, tp: nat, n: nat, sp: bool) {
    Coherent(st.hidden, tp, n, sp) && (st.residual.Some? ==> Coherent(st.residual.value, tp, n, sp))
  }

  ghost predicate KeepsRows(m: Model, layer: int, stage: nat, positions: Group<Position>, st: StageState,
                            tp: nat, n: nat, sp: bool)
  {
    var a := m.attend(layer, stage, positions, st);
    && Coherent(a.hidden, tp, n, sp) && Coherent(a.residual, tp, n, sp)
    && a.routes.Some? && Coherent(a.routes.value, tp, n, sp)
  }

  /**
   What the layouts rely on: attention keeps each rank's row count, routes every row, and without
   sequence parallelism leaves the same rows on every rank.
   */
  ghost predicate Faithful(m: Model, tp: nat, sp: bool) {
    forall layer, stage, positions, st, n: nat | Sound(st, tp, n, sp) :: KeepsRows(m, layer, stage, positions, st, tp, n, sp)
  }

  lemma LayerIsSound(m: Model, layer: int, stage: nat, positions: Group<Position>, st: StageState, tp: nat, n: nat, sp: bool)
    requires Faithful(m, tp, sp) && Sound(st, tp, n, sp)
    ensures Sound(Layer(m, layer, stage, positions, st), tp, n, sp)
  {
    assert KeepsRows(m, layer, stage, positions, st, tp, n, sp);
  }

  lemma {:induction false} FoldIsSound(m: Model, layers: seq<int>, k: nat, stage: nat, positions: Group<Position>,
                                       st: StageState, tp: nat, n: nat, sp: bool)
    requires k <= |layers| && Faithful(m, tp, sp) && Sound(st, tp, n, sp)
    ensures Sound(Fold(m, layers, k, stage, positions, st), tp, n, sp)
  {
    if k > 0 {
      FoldIsSound(m, layers, k - 1, stage, positions, st, tp, n, sp);
      LayerIsSound(m, layers[k - 1], stage, positions, Fold(m, layers, k - 1, stage, positions, st), tp, n, sp);
    }
  }

  /**
   `after` is `before` taken through one MoE layer: attention, then on every row what the experts make of the
   row and its ids, combined with the row's own route.
   */
  ghost predicate Advances(m: Model, layer: int, stage: nat, positions: Group<Position>, before: StageState, after: StageState) {
    var a := m.attend(layer, stage, positions, before);
    && a.routes.Some? && RowsAgree(a.hidden, a.routes.value)
    && after.residual == Some(a.residual) && |after.hidden| == |a.hidden|
    && (forall r :: 0 <= r < |a.hidden| ==> |after.hidden[r]| == |a.hidden[r]|)
    && forall r, i :: 0 <= r < |a.hidden| && 0 <= i < |a.hidden[r]| ==>
         var route := a.routes.value[r][i];
         after.hidden[r][i] == m.experts.combine(m.experts.expert(layer, a.hidden[r][i], route.ids), route.ids, route.weights)
  }

  lemma LayerAdvances(m: Model, layer: int, stage: nat, positions: Group<Position>, st: StageState, tp: nat, n: nat, sp: bool)
    requires Faithful(m, tp, sp) && Sound(st, tp, n, sp)
    ensures Advances(m, layer, stage, positions, st, Layer(m, layer, stage, positions, st))
  {
    assert KeepsRows(m, layer, stage, positions, st, tp, n, sp);
  }

  /** A run of `layers` on one stage: every state follows from the one before by one layer. */
  ghost predicate RunsThrough(m: Model, layers: seq<int>, stage: nat, positions: Group<Position>, run: seq<StageState>) {
    && |run| == |layers| + 1
    && forall i :: 0 <= i < |layers| ==> AdvancesAt(m, layers, stage, positions, run, i)
  }

  ghost predicate AdvancesAt(m: Model, layers: seq<int>, stage: nat, positions: Group<Position>, run: seq<StageState>, i: nat)
    requires i < |layers| && i + 1 < |run|
  {
    Advances(m, layers[i], stage, positions, run[i], run[i + 1])
  }

  /** The fold is where such a run ends. */
  lemma FoldRunsThrough(m: Model, layers: seq<int>, stage: nat, positions: Group<Position>, st: StageState,
                        tp: nat, n: nat, sp: bool)
    returns (run: seq<StageState>)
    requires Faithful(m, tp, sp) && Sound(st, tp, n, sp)
    ensures |run| == |layers| + 1 && RunsThrough(m, layers, stage, positions, run)
    ensures run[0] == st && run[|layers|] == Fold(m, layers, |layers|, stage, positions, st)
    ensures forall i :: 0 <= i < |run| ==> Sound(run[i], tp, n, sp)
  {
    hide Layer, Advances, Sound, Faithful;
    run := seq(|layers| + 1, k requires 0 <= k <= |layers| => Fold(m, layers, k, stage, positions, st));
    forall i | 0 <= i < |run|
      ensures Sound(run[i], tp, n, sp)
    {
      FoldIsSound(m, layers, i, stage, positions, st, tp, n, sp);
    }
    forall i | 0 <= i < |layers|
      ensures AdvancesAt(m, layers, stage, positions, run, i)
    {
      LayerAdvances(m, layers[i], stage, positions, run[i], tp, n, sp);
    }
  }

  // ----------------------------------------------------------------- the pipeline

  datatype Failure =
    | ModeMismatch
    | NotContiguousMoe
    | BadLayout(guard: Guard)
    | StageInputRows
    | MissingRoutes
    | StageRowsChanged
    | NoPendingDispatch
    | ReceiveFailed(receive: Receive)

  datatype Outcome<+T> = Done(value: T) | Failed(failure: Failure)

  class Pipeline {
    const m: Model
    const plan: UbatchPlan
    const tp: nat
    const positions: seq<Group<Position>>
    const connector: Connector
    var hidden: seq<Group<Hidden>>
    var residual: seq<Option<Group<Residual>>>
    /** The layouts of a stage's outstanding dispatch, one per rank. */
    var layouts: seq<Option<seq<Layout>>>

    constructor (m: Model, plan: UbatchPlan, tp: nat, inputs: StageInputs<Hidden, Residual, Position>, connector: Connector)
      requires |plan.stages| == |inputs.hidden| == |inputs.residuals| == |inputs.positions| == 2
      ensures this.m == m && this.plan == plan && this.tp == tp && this.connector == connector
      ensures positions == inputs.positions && hidden == inputs.hidden && residual == inputs.residuals
      ensures layouts == [None, None]
      ensures Shaped()
    {
      this.m, this.plan, this.tp, this.connector := m, plan, tp, connector;
      positions, hidden, residual := inputs.positions, inputs.hidden, inputs.residuals;
      layouts := [None, None];
    }

    ghost predicate Shaped()
      reads this
    {
      && |plan.stages| == |positions| == |hidden| == |residual| == |layouts| == 2
      && forall s :: 0 <= s < 2 && layouts[s].Some? ==> Padded(layouts[s].value)
    }

    function State(s: nat): StageState
      reads this
      requires s < |hidden| && s < |residual|
    {
      StageState(hidden[s], residual[s])
    }

    function StageLocalRows(s: nat): int
      requires s < |plan.stages| && tp > 0
    {
      LocalRows(plan.stages[s].inputTokens, tp, plan.sequenceParallel)
    }

    ghost predicate Computes(layer: int, s: nat)
      reads this
      requires Shaped() && s < 2 && tp > 0
    {
      var a := m.attend(layer, s, positions[s], State(s));
      && (plan.sequenceParallel ==> plan.stages[s].inputTokens % tp == 0)
      && HasRows(hidden[s], StageLocalRows(s)) && a.routes.Some? && HasRows(a.hidden, StageLocalRows(s))
    }

    /** The attention of one stage, with the row checks around it. */
    method ComputeStageAttention(layer: int, s: nat) returns (r: Outcome<Group<Route>>)
      requires Shaped() && s < 2 && tp > 0
      modifies this, connector`trace
      ensures Shaped() && layouts == old(layouts)
      ensures r.Done? <==> old(Computes(layer, s))
      ensures r.Done? <==>
                var rows := if plan.sequenceParallel then plan.stages[s].inputTokens / tp else plan.stages[s].inputTokens;
                var a := old(m.attend(layer, s, positions[s], StageState(hidden[s], residual[s])));
                && (plan.sequenceParallel ==> plan.stages[s].inputTokens % tp == 0)
                && (forall k :: 0 <= k < |old(hidden)[s]| ==> |old(hidden)[s][k]| == rows)
                && a.routes.Some? && forall k :: 0 <= k < |a.hidden| ==> |a.hidden[k]| == rows
      ensures r.Done? ==> var a := old(m.attend(layer, s, positions[s], State(s)));
                && r.value == a.routes.value
                && hidden == old(hidden)[s := a.hidden] && residual == old(residual)[s := Some(a.residual)]
                && connector.trace == old(connector.trace) + [Computed(layer, s)]
    {
      if plan.sequenceParallel && plan.stages[s].inputTokens % tp != 0 {
        return Failed(BadLayout(StageNotShardable));
      }
      var expected := StageLocalRows(s);
      if !HasRows(hidden[s], expected) {
        return Failed(StageInputRows);
      }
      var a := m.attend(layer, s, positions[s], State(s));
      hidden := hidden[s := a.hidden];
      residual := residual[s := Some(a.residual)];
      if a.routes.None? {
        return Failed(MissingRoutes);
      }
      if !HasRows(hidden[s], expected) {
        return Failed(StageRowsChanged);
      }
      connector.trace := connector.trace + [Computed(layer, s)];
      return Done(a.routes.value);
    }

    function Prepared(s: nat, routes: Group<Route>): seq<Payload<Hidden, Route>>
      reads this
      requires s < |hidden| && RowsAgree(hidden[s], routes)
    {
      Payloads(hidden[s], routes, plan.sequenceParallel, m.zeroHidden, m.zeroRoute)
    }

    /** Dispatch a stage's rows and remember how to restore them. */
    method SendStageAttention(layer: int, s: nat, routes: Group<Route>) returns (r: Outcome<()>)
      requires Shaped() && s < 2
      modifies this`layouts, connector
      ensures r.Done? <==> RowsAgree(hidden[s], routes)
      ensures r.Failed? ==> unchanged(this) && unchanged(connector)
      ensures r.Done? ==> var p := Prepared(s, routes);
                && Shaped() && layouts == old(layouts)[s := Some(LayoutsOf(p))]
                && connector.Put(s, layer, SentHidden(p), SentRoutes(p))
    {
      if !RowsAgree(hidden[s], routes) {
        return Failed(BadLayout(RouteRows));
      }
      var p := Prepared(s, routes);
      PayloadRowsAgree(hidden[s], routes, plan.sequenceParallel, m.zeroHidden, m.zeroRoute);
      var sent := connector.SendAttnOutput(SentHidden(p), layer, s, SentRoutes(p));
      layouts := layouts[s := Some(LayoutsOf(p))];
      return Done(());
    }

    /** Receive a stage's oldest dispatch and restore the rows the stage held. */
    method RecvStageFfn(s: nat) returns (r: Outcome<()>)
      requires Shaped() && s < 2
      modifies this`hidden, this`layouts, connector
      ensures r.Done? <==> old(connector.Restores(s, layouts[s]))
      ensures r.Done? ==>
                && Shaped() && layouts == old(layouts)[s := None] && connector.Took(s)
                && hidden == old(hidden)[s := old(connector.Restored(s, layouts[s]))]
    {
      if layouts[s].None? {
        return Failed(NoPendingDispatch);
      }
      var received := connector.RecvFfnOutput(s);
      if !received.Output? || |received.rows| != |layouts[s].value| {
        return Failed(ReceiveFailed(received));
      }
      var restored := RestoreAll(received.rows, layouts[s].value);
      if restored.Raised? {
        return Failed(BadLayout(restored.guard));
      }
      hidden := hidden[s := restored.value];
      layouts := layouts[s := None];
      return Done(());
    }

    // ------------------------------------------------------ the schedule

    /** The rows stage `s` has to keep on every rank. */
    ghost predicate Hypotheses()
      reads this
    {
      && Shaped() && tp > 0 && Faithful(m, tp, plan.sequenceParallel) && connector.experts == m.experts
      && (forall s :: 0 <= s < 2 ==> plan.stages[s].inputTokens > 0)
      && (plan.sequenceParallel ==> Divisible(plan, tp))
    }

    ghost predicate SoundAt(s: nat, st: StageState)
      requires s < |plan.stages| && tp > 0
    {
      StageLocalRows(s) >= 0 && Sound(st, tp, StageLocalRows(s), plan.sequenceParallel)
    }

    /** Stage `s` holds `st` and has nothing outstanding. */
    ghost predicate Idle(s: nat, st: StageState)
      reads this
      requires Shaped() && s < 2
    {
      State(s) == st && layouts[s].None?
    }

    /** Stage `s` has attended and dispatched `layer` from `before`, and that is all that is outstanding. */
    ghost predicate InFlight(layer: int, s: nat, before: StageState)
      reads this, connector
      requires Shaped() && s < 2
    {
      var a := m.attend(layer, s, positions[s], before);
      && a.routes.Some? && RowsAgree(a.hidden, a.routes.value)
      && State(s) == StageState(a.hidden, Some(a.residual))
      && var p := Prepared(s, a.routes.value);
         && layouts[s] == Some(LayoutsOf(p))
         && connector.pending == map[s := [Pending(layer, s, SentRoutes(p))]]
         && connector.wire == [Dispatch(layer, s, SentHidden(p), IdsOf(SentRoutes(p)))]
    }

    lemma SoundStagesCompute(layer: int, s: nat)
      requires Hypotheses() && s < 2 && SoundAt(s, State(s))
      ensures Computes(layer, s)
      ensures KeepsRows(m, layer, s, positions[s], State(s), tp, StageLocalRows(s), plan.sequenceParallel)
    {
      assert KeepsRows(m, layer, s, positions[s], State(s), tp, StageLocalRows(s), plan.sequenceParallel);
    }

    /** The answer to an outstanding dispatch restores to the layer's feed-forward on every rank's rows. */
    lemma InFlightReturns(layer: int, s: nat, before: StageState)
      requires Hypotheses() && s < 2 && SoundAt(s, before) && InFlight(layer, s, before)
      ensures connector.Restores(s, layouts[s])
      ensures connector.Restored(s, layouts[s]) == Layer(m, layer, s, positions[s], before).hidden
    {
      hide Coherent, Answer, RestoreDispatch;
      var a := m.attend(layer, s, positions[s], before);
      var sp, n := plan.sequenceParallel, StageLocalRows(s);
      assert KeepsRows(m, layer, s, positions[s], before, tp, n, sp);
      CoherentSize(a.hidden, tp, n, sp);
      AnsweredDispatch(m.experts, layer, s, a.hidden, a.routes.value, n, sp, m.zeroHidden, m.zeroRoute);
    }

    /** Dispatch a stage that is ready: compute its attention, then send it. */
    method Launch(layer: int, ghost before: StageState) returns (r: Outcome<()>)
      requires Shaped() && tp > 0
      modifies this, connector
      ensures r.Done? ==> Shaped()
      ensures old(Hypotheses() && SoundAt(0, before) && Idle(0, before) && connector.pending == map[] && connector.wire == [])
              ==> && r.Done? && InFlight(layer, 0, before)
                  && State(1) == old(State(1)) && layouts[1] == old(layouts[1])
                  && connector.trace == old(connector.trace) + Opening(layer)
    {
      ghost var ready := Hypotheses() && SoundAt(0, before) && Idle(0, before);
      if ready {
        SoundStagesCompute(layer, 0);
      }
      var routes := ComputeStageAttention(layer, 0);
      if routes.Failed? {
        return Failed(routes.failure);
      }
      r := SendStageAttention(layer, 0, routes.value);
      FirstOfQueue<Pending>(0);
    }

    /** Receive the outstanding dispatch of stage `s`. */
    method Collect(s: nat, ghost layer: int, ghost before: StageState) returns (r: Outcome<()>)
      requires Shaped() && s < 2
      modifies this`hidden, this`layouts, connector
      ensures r.Done? ==> Shaped()
      ensures old(Hypotheses() && SoundAt(s, before) && InFlight(layer, s, before))
              ==> && r.Done? && Idle(s, Layer(m, layer, s, positions[s], before))
                  && connector.pending == map[] && connector.wire == []
                  && State(1 - s) == old(State(1 - s)) && layouts[1 - s] == old(layouts[1 - s])
                  && connector.trace == old(connector.trace) + [Received(layer, s, layer, s)]
    {
      if Hypotheses() && SoundAt(s, before) && InFlight(layer, s, before) {
        InFlightReturns(layer, s, before);
      }
      r := RecvStageFfn(s);
    }

    /**
     One turn of the schedule: compute stage `s` while the other stage is with the experts, receive
     the other stage, and dispatch stage `s`.
     */
    method Turn(layer: int, s: nat, ghost before: StageState, ghost other: int, ghost otherBefore: StageState)
      returns (r: Outcome<()>)
      requires Shaped() && s < 2 && tp > 0
      modifies this, connector
      ensures r.Done? ==> Shaped()
      ensures old(Hypotheses() && SoundAt(s, before) && Idle(s, before)
                  && SoundAt(1 - s, otherBefore) && InFlight(other, 1 - s, otherBefore))
              ==> && r.Done? && InFlight(layer, s, before)
                  && Idle(1 - s, Layer(m, other, 1 - s, positions[1 - s], otherBefore))
                  && connector.trace == old(connector.trace) + TurnEvents(layer, s, other)
    {
      if Hypotheses() && SoundAt(s, before) && Idle(s, before) {
        SoundStagesCompute(layer, s);
      }
      var routes := ComputeStageAttention(layer, s);
      if routes.Failed? {
        return Failed(routes.failure);
      }
      var received := Collect(1 - s, other, otherBefore);
      if received.Failed? {
        return received;
      }
      r := SendStageAttention(layer, s, routes.value);
      FirstOfQueue<Pending>(s);
    }

    /** Both stages stand where `layers` have taken them, and nothing is outstanding. */
    ghost predicate Finished(layers: seq<int>, initial: (StageState, StageState))
      reads this, connector
      requires Shaped()
    {
      && Idle(0, Fold(m, layers, |layers|, 0, positions[0], initial.0))
      && Idle(1, Fold(m, layers, |layers|, 1, positions[1], initial.1))
      && connector.pending == map[] && connector.wire == []
    }

    ghost predicate Ready(initial: (StageState, StageState))
      reads this, connector
    {
      && Hypotheses() && Idle(0, initial.0) && Idle(1, initial.1)
      && SoundAt(0, initial.0) && SoundAt(1, initial.1)
      && connector.pending == map[] && connector.wire == []
    }

    /** Stage 0 is out with layer `i`; stage 1 has finished the layers before it. */
    ghost predicate Underway(layers: seq<int>, i: nat, initial: (StageState, StageState))
      reads this, connector
      requires i < |layers|
    {
      && Hypotheses() && SoundAt(0, initial.0) && SoundAt(1, initial.1)
      && InFlight(layers[i], 0, Fold(m, layers, i, 0, positions[0], initial.0))
      && Idle(1, Fold(m, layers, i, 1, positions[1], initial.1))
    }

    lemma FoldsAreSound(layers: seq<int>, i: nat, initial: (StageState, StageState))
      requires Hypotheses() && SoundAt(0, initial.0) && SoundAt(1, initial.1) && i <= |layers|
      ensures SoundAt(0, Fold(m, layers, i, 0, positions[0], initial.0))
      ensures SoundAt(1, Fold(m, layers, i, 1, positions[1], initial.1))
    {
      FoldIsSound(m, layers, i, 0, positions[0], initial.0, tp, StageLocalRows(0), plan.sequenceParallel);
      FoldIsSound(m, layers, i, 1, positions[1], initial.1, tp, StageLocalRows(1), plan.sequenceParallel);
    }

    /** One pass of the schedule's loop: stage 1 takes layer `i`, then stage 0 takes the next one. */
    method Round(layers: seq<int>, i: nat, ghost initial: (StageState, StageState)) returns (r: Outcome<()>)
      requires Shaped() && tp > 0 && i + 1 < |layers|
      modifies this, connector
      ensures r.Done? ==> Shaped()
      ensures old(Underway(layers, i, initial)) ==>
                && r.Done? && Underway(layers, i + 1, initial)
                && connector.trace == old(connector.trace)
                     + (TurnEvents(layers[i], 1, layers[i]) + TurnEvents(layers[i + 1], 0, layers[i]))
    {
      hide InFlight, SoundAt, Faithful, Layer;
      if Underway(layers, i, initial) {
        FoldsAreSound(layers, i, initial);
        FoldsAreSound(layers, i + 1, initial);
      }
      r := Turn(layers[i], 1, Fold(m, layers, i, 1, positions[1], initial.1),
                layers[i], Fold(m, layers, i, 0, positions[0], initial.0));
      if r.Failed? {
        return;
      }
      r := Turn(layers[i + 1], 0, Fold(m, layers, i + 1, 0, positions[0], initial.0),
                layers[i], Fold(m, layers, i, 1, positions[1], initial.1));
    }

    /** The two-stage schedule over contiguous MoE layers. */
    method RunStages(layers: seq<int>, ghost initial: (StageState, StageState)) returns (r: Outcome<()>)
      requires Shaped() && tp > 0 && |layers| > 0
      modifies this, connector
      ensures r.Done? ==> Shaped()
      ensures old(Ready(initial)) ==>
                && r.Done? && Finished(layers, initial)
                && connector.trace == old(connector.trace) + Schedule(layers)
    {
      hide InFlight, SoundAt, Faithful, Layer;
      ghost var ready, before := Ready(initial), connector.trace;
      var last := |layers| - 1;
      r := Launch(layers[0], initial.0);
      if r.Failed? {
        return;
      }
      for i := 0 to last
        invariant Shaped()
        invariant ready ==> Underway(layers, i, initial) && connector.trace == before + EventsUpTo(layers, i)
      {
        r := Round(layers, i, initial);
        if r.Failed? {
          return;
        }
        assert ready ==> connector.trace == before + EventsUpTo(layers, i + 1);
      }
      if ready {
        FoldsAreSound(layers, last, initial);
      }
      r := Turn(layers[last], 1, Fold(m, layers, last, 1, positions[1], initial.1),
                layers[last], Fold(m, layers, last, 0, positions[0], initial.0));
      if r.Failed? {
        return;
      }
      r := Collect(1, layers[last], Fold(m, layers, last, 1, positions[1], initial.1));
    }
  }
}
