/**
 The single-stage Async CAM forward: a MoE layer's result is received only when the next layer
 starts, so that one dispatch may be outstanding while the forward yields.
 */
module DeferredReceive {
  import opened Options
  import opened CamLayout
  import opened CamDispatch
  import opened CamConnector
  import opened AsyncCamV2
  import opened AsyncCamV2Forward

  /** The first `k` layers with every result received right after its dispatch. */
  function Immediate(m: Model, dense: DenseLayer, layers: seq<ModelLayer>, k: nat, stage: nat, positions: seq<Position>,
                     tp: nat, st: StageState): StageState
    requires k <= |layers| && tp > 0
  {
    if k == 0 then st
    else
      var before := Immediate(m, dense, layers, k - 1, stage, positions, tp, st);
      match layers[k - 1]
      case Dense(index) => dense(index, positions, before)
      case Moe(index) => Layer(m, index, stage, LayOut(positions, tp, false), before)
  }

  /** The events of the first `k` layers: each MoE layer computes, sends and receives. */
  function ImmediateEvents(layers: seq<ModelLayer>, k: nat, stage: nat): seq<Event>
    requires k <= |layers|
  {
    if k == 0 then []
    else if layers[k - 1].Dense? then ImmediateEvents(layers, k - 1, stage)
    else
      var index := layers[k - 1].index;
      ImmediateEvents(layers, k - 1, stage) + [Computed(index, stage), Sent(index, stage), Received(index, stage, index, stage)]
  }

  lemma {:induction false} ImmediateIsSound(m: Model, dense: DenseLayer, layers: seq<ModelLayer>, k: nat, stage: nat,
                                            positions: seq<Position>, st: StageState, tp: nat, n: nat, sp: bool)
    requires k <= |layers| && tp > 0 && Faithful(m, tp, sp) && DenseKeepsRows(dense, tp, n, sp) && Sound(st, tp, n, sp)
    ensures Sound(Immediate(m, dense, layers, k, stage, positions, tp, st), tp, n, sp)
  {
    hide Coherent, Layer, Faithful, LayOut;
    if k > 0 {
      ImmediateIsSound(m, dense, layers, k - 1, stage, positions, st, tp, n, sp);
      if layers[k - 1].Moe? {
        LayerIsSound(m, layers[k - 1].index, stage, LayOut(positions, tp, false),
                     Immediate(m, dense, layers, k - 1, stage, positions, tp, st), tp, n, sp);
      }
    }
  }

  /** From state to state: a dense layer on the batch, or one MoE layer received at once. */
  ghost predicate StepsThrough(m: Model, dense: DenseLayer, layers: seq<ModelLayer>, stage: nat, positions: seq<Position>,
                               tp: nat, states: seq<StageState>)
  {
    && |states| == |layers| + 1
    && forall k :: 0 <= k < |layers| ==>
         match layers[k]
         case Dense(index) => states[k + 1] == dense(index, positions, states[k])
         case Moe(index) => Advances(m, index, stage, seq(tp, _ => positions), states[k], states[k + 1])
  }

  lemma ImmediateSteps(m: Model, dense: DenseLayer, layers: seq<ModelLayer>, stage: nat, positions: seq<Position>,
                       st: StageState, tp: nat, n: nat, sp: bool) returns (states: seq<StageState>)
    requires tp > 0 && Faithful(m, tp, sp) && DenseKeepsRows(dense, tp, n, sp) && Sound(st, tp, n, sp)
    ensures StepsThrough(m, dense, layers, stage, positions, tp, states) && states[0] == st
    ensures states[|layers|] == Immediate(m, dense, layers, |layers|, stage, positions, tp, st)
  {
    hide Advances, Sound, Faithful, DenseKeepsRows, Layer;
    states := seq(|layers| + 1, k requires 0 <= k <= |layers| => Immediate(m, dense, layers, k, stage, positions, tp, st));
    forall k | 0 <= k < |layers| && layers[k].Moe?
      ensures Advances(m, layers[k].index, stage, seq(tp, _ => positions), states[k], states[k + 1])
    {
      ImmediateIsSound(m, dense, layers, k, stage, positions, st, tp, n, sp);
      LayerAdvances(m, layers[k].index, stage, LayOut(positions, tp, false), states[k], tp, n, sp);
      assert LayOut(positions, tp, false) == seq(tp, _ => positions);
    }
  }

  /** MoE layers among the first `k`. */
  function MoeCount(layers: seq<ModelLayer>, k: nat): nat
    requires k <= |layers|
  {
    if k == 0 then 0 else MoeCount(layers, k - 1) + if layers[k - 1].Moe? then 1 else 0
  }

  /** Three events a MoE layer, in layer order, and none for dense layers. */
  lemma {:induction false} ImmediateEventsAre(layers: seq<ModelLayer>, k: nat, stage: nat, i: nat)
    requires i < k <= |layers|
    ensures |ImmediateEvents(layers, k, stage)| == 3 * MoeCount(layers, k)
    ensures layers[i].Moe? ==>
              var c, index := 3 * MoeCount(layers, i), layers[i].index;
              && c + 3 <= |ImmediateEvents(layers, k, stage)|
              && ImmediateEvents(layers, k, stage)[c..c + 3]
                 == [Computed(index, stage), Sent(index, stage), Received(index, stage, index, stage)]
    decreases k
  {
    if k > 1 {
      ImmediateEventsAre(layers, k - 1, stage, if i < k - 1 then i else 0);
    }
  }

  lemma Grouped(start: seq<Event>, events: seq<Event>, index: int, stage: nat)
    ensures start + events + [Computed(index, stage), Sent(index, stage)] + [Received(index, stage, index, stage)]
            == start + (events + [Computed(index, stage), Sent(index, stage), Received(index, stage, index, stage)])
  {
  }

  class Forward {
    const m: Model
    const dense: DenseLayer
    const tp: nat
    const sp: bool
    const stage: nat
    const positions: seq<Position>
    const connector: Connector
    var state: StageState
    /** The layouts of the outstanding dispatch, one per rank. */
    var pending: Option<seq<Layout>>

    constructor (m: Model, dense: DenseLayer, tp: nat, sp: bool, stage: nat, positions: seq<Position>, connector: Connector,
                 input: StageState)
      ensures this.m == m && this.dense == dense && this.tp == tp && this.sp == sp && this.stage == stage
      ensures this.positions == positions && this.connector == connector && state == input && pending == None
    {
      this.m, this.dense, this.tp, this.sp, this.stage := m, dense, tp, sp, stage;
      this.positions, this.connector, state, pending := positions, connector, input, None;
    }

    ghost predicate Hypotheses(input: StageState, n: nat) {
      && tp > 0 && Faithful(m, tp, sp) && DenseKeepsRows(dense, tp, n, sp) && Sound(input, tp, n, sp)
      && connector.experts == m.experts
    }

    ghost predicate Settled(st: StageState)
      reads this, connector
    {
      state == st && pending.None? && connector.pending == map[] && connector.wire == []
    }

    /** `layer` is dispatched from `before` and not received yet. */
    ghost predicate Outstanding(layer: int, before: StageState)
      reads this, connector
      requires tp > 0
    {
      var a := m.attend(layer, stage, LayOut(positions, tp, false), before);
      && a.routes.Some? && RowsAgree(a.hidden, a.routes.value)
      && state == StageState(a.hidden, Some(a.residual))
      && var p := Payloads(a.hidden, a.routes.value, sp, m.zeroHidden, m.zeroRoute);
         && pending == Some(LayoutsOf(p))
         && connector.pending == map[stage := [Pending(layer, stage, SentRoutes(p))]]
         && connector.wire == [Dispatch(layer, stage, SentHidden(p), IdsOf(SentRoutes(p)))]
    }

    lemma OutstandingReturns(layer: int, before: StageState, n: nat)
      requires Hypotheses(before, n) && Outstanding(layer, before)
      ensures connector.Restores(stage, pending)
      ensures var after := Layer(m, layer, stage, LayOut(positions, tp, false), before);
              connector.Restored(stage, pending) == after.hidden && after.residual == state.residual
    {
      hide Coherent, Answer, RestoreDispatch, LayOut, Padded;
      var a := m.attend(layer, stage, LayOut(positions, tp, false), before);
      assert KeepsRows(m, layer, stage, LayOut(positions, tp, false), before, tp, n, sp);
      CoherentSize(a.hidden, tp, n, sp);
      AnsweredDispatch(m.experts, layer, stage, a.hidden, a.routes.value, n, sp, m.zeroHidden, m.zeroRoute);
    }

    /** Receive what is outstanding. */
    method Receive(ghost layer: int, ghost before: StageState, ghost n: nat) returns (r: Outcome<()>)
      requires pending.Some? ==> Padded(pending.value)
      modifies this, connector
      ensures r.Done? ==> pending.None?
      ensures old(Hypotheses(before, n) && Outstanding(layer, before)) ==>
                && r.Done? && Settled(Layer(m, layer, stage, LayOut(positions, tp, false), before))
                && connector.trace == old(connector.trace) + [Received(layer, stage, layer, stage)]
    {
      hide LayOut;
      if Hypotheses(before, n) && Outstanding(layer, before) {
        OutstandingReturns(layer, before, n);
      }
      if pending.None? {
        return Failed(NoPendingDispatch);
      }
      var received := connector.RecvFfnOutput(stage);
      if !received.Output? || |received.rows| != |pending.value| {
        return Failed(ReceiveFailed(received));
      }
      var restored := RestoreAll(received.rows, pending.value);
      if restored.Raised? {
        return Failed(BadLayout(restored.guard));
      }
      state := state.(hidden := restored.value);
      pending := None;
      return Done(());
    }

    /** Attend one MoE layer and dispatch it. */
    method Send(layer: int, ghost before: StageState, ghost n: nat) returns (r: Outcome<()>)
      requires tp > 0
      modifies this, connector
      ensures r.Done? ==> pending.Some? && Padded(pending.value)
      ensures old(Hypotheses(before, n) && Settled(before)) ==>
                && r.Done? && Outstanding(layer, before)
                && connector.trace == old(connector.trace) + [Computed(layer, stage), Sent(layer, stage)]
    {
      var at := LayOut(positions, tp, false);
      if Hypotheses(before, n) && Settled(before) {
        assert KeepsRows(m, layer, stage, at, before, tp, n, sp);
      }
      hide LayOut;
      var a := m.attend(layer, stage, at, state);
      state := StageState(a.hidden, Some(a.residual));
      connector.trace := connector.trace + [Computed(layer, stage)];
      if a.routes.None? {
        return Failed(MissingRoutes);
      }
      if !RowsAgree(a.hidden, a.routes.value) {
        return Failed(BadLayout(RouteRows));
      }
      var p := Payloads(a.hidden, a.routes.value, sp, m.zeroHidden, m.zeroRoute);
      PayloadRowsAgree(a.hidden, a.routes.value, sp, m.zeroHidden, m.zeroRoute);
      var sent := connector.SendAttnOutput(SentHidden(p), layer, stage, SentRoutes(p));
      pending := Some(LayoutsOf(p));
      FirstOfQueue<Pending>(stage);
      return Done(());
    }

    /** Where the loop stands before layer `k`: everything received, or exactly the previous layer outstanding. */
    ghost predicate Before(layers: seq<ModelLayer>, k: nat, input: StageState, start: seq<Event>)
      reads this, connector
      requires k <= |layers| && tp > 0
    {
      if pending.None? then
        && Settled(Immediate(m, dense, layers, k, stage, positions, tp, input))
        && connector.trace == start + ImmediateEvents(layers, k, stage)
      else
        && k > 0 && layers[k - 1].Moe?
        && var index := layers[k - 1].index;
           && Outstanding(index, Immediate(m, dense, layers, k - 1, stage, positions, tp, input))
           && connector.trace == start + ImmediateEvents(layers, k - 1, stage) + [Computed(index, stage), Sent(index, stage)]
    }

    /** run_attention_gate_afd_forward on every rank. */
    method Run(layers: seq<ModelLayer>, ghost n: nat) returns (r: Outcome<StageState>, ghost states: seq<StageState>)
      requires tp > 0 && pending.None?
      modifies this, connector
      ensures old(Hypotheses(state, n) && Settled(state)) ==>
                && StepsThrough(m, dense, layers, stage, positions, tp, states) && states[0] == old(state)
                && r == Done(states[|layers|]) && Settled(r.value)
                && connector.trace == old(connector.trace) + ImmediateEvents(layers, |layers|, stage)
    {
      hide Outstanding, Layer, Sound, Faithful, DenseKeepsRows, LayOut, StepsThrough;
      ghost var input, start, ready := state, connector.trace, Hypotheses(state, n) && Settled(state);
      states := [];
      for k := 0 to |layers|
        invariant pending.Some? ==> k > 0 && Padded(pending.value)
        invariant ready ==> Before(layers, k, input, start)
      {
        if ready {
          ImmediateIsSound(m, dense, layers, if k > 0 then k - 1 else 0, stage, positions, input, tp, n, sp);
          ImmediateIsSound(m, dense, layers, k, stage, positions, input, tp, n, sp);
        }
        if k > 0 && pending.Some? {
          var received := Receive(layers[k - 1].index, Immediate(m, dense, layers, k - 1, stage, positions, tp, input), n);
          if received.Failed? {
            return Failed(received.failure), states;
          }
          Grouped(start, ImmediateEvents(layers, k - 1, stage), layers[k - 1].index, stage);
        }
        assert ready ==> Settled(Immediate(m, dense, layers, k, stage, positions, tp, input))
                         && connector.trace == start + ImmediateEvents(layers, k, stage);
        if layers[k].Dense? {
          state := dense(layers[k].index, positions, state);
          continue;
        }
        var sent := Send(layers[k].index, Immediate(m, dense, layers, k, stage, positions, tp, input), n);
        if sent.Failed? {
          return Failed(sent.failure), states;
        }
      }
      if pending.Some? {
        ghost var last := |layers| - 1;
        if ready {
          ImmediateIsSound(m, dense, layers, last, stage, positions, input, tp, n, sp);
        }
        var received := Receive(layers[last].index, Immediate(m, dense, layers, last, stage, positions, tp, input), n);
        if received.Failed? {
          return Failed(received.failure), states;
        }
        Grouped(start, ImmediateEvents(layers, last, stage), layers[last].index, stage);
      }
      if ready {
        states := ImmediateSteps(m, dense, layers, stage, positions, input, tp, n, sp);
      }
      return Done(state), states;
    }
  }
}
