/**
 The Attention side of the Async CAM connector: dispatches leave in order, and the context and
 routing of each one wait in a queue of their stage until the combined expert output comes back.

 The remote experts answer dispatches in the order they were sent.
 */
module CamConnector {
  import opened Options
  import opened Rows
  import opened CamLayout
  import opened CamDispatch

  type Hidden(!new)
  type Ids(!new)
  type Weights(!new)
  type Raw(!new)

  datatype Route = Route(ids: Ids, weights: Weights)

  /** The remote feed-forward side: experts see a row and its expert ids; the combine sees the queued route. */
  datatype Experts = Experts(expert: (int, Hidden, Ids) -> Raw, combine: (Raw, Ids, Weights) -> Hidden)

  /** What one layer's feed-forward does to a row. */
  function Ffn(x: Experts, layer: int): (Hidden, Route) -> Hidden {
    (h, k: Route) => x.combine(x.expert(layer, h, k.ids), k.ids, k.weights)
  }

  datatype Pending = Pending(layer: int, stage: nat, routes: Group<Route>)

  datatype Dispatch = Dispatch(layer: int, stage: nat, hidden: Group<Hidden>, ids: Group<Ids>)

  /** `Received` names the queued context and the dispatch that was answered. */
  datatype Event =
    | Computed(layer: int, stage: nat)
    | Sent(layer: int, stage: nat)
    | Received(layer: int, stage: nat, answeredLayer: int, answeredStage: nat)

  datatype Receive = Output(rows: Group<Hidden>) | NothingPending | NothingDispatched | ContextMismatch

  function IdsOf(routes: Group<Route>): (g: Group<Ids>)
    ensures |g| == |routes| && forall r :: 0 <= r < |g| ==> g[r] == Map((k: Route) => k.ids, routes[r])
  {
    seq(|routes|, r requires 0 <= r < |routes| => Map((k: Route) => k.ids, routes[r]))
  }

  /** The experts' rows for a dispatch, combined with the routes of some queued context. */
  function Answer(x: Experts, d: Dispatch, routes: Group<Route>): Group<Hidden>
    requires RowsAgree(d.hidden, d.ids) && RowsAgree(d.hidden, routes)
  {
    var raw := ApplyGroup((h, e) => x.expert(d.layer, h, e), d.hidden, d.ids);
    ApplyGroup((y, k: Route) => x.combine(y, k.ids, k.weights), raw, routes)
  }

  /** With its own context, a dispatch is answered by the layer's feed-forward on every row. */
  lemma OwnContextGivesFfn(x: Experts, layer: int, stage: nat, hidden: Group<Hidden>, routes: Group<Route>)
    requires RowsAgree(hidden, routes)
    ensures RowsAgree(hidden, IdsOf(routes))
    ensures Answer(x, Dispatch(layer, stage, hidden, IdsOf(routes)), routes) == ApplyGroup(Ffn(x, layer), hidden, routes)
    ensures var rows := Answer(x, Dispatch(layer, stage, hidden, IdsOf(routes)), routes);
            && |rows| == |hidden|
            && (forall r :: 0 <= r < |rows| ==> |rows[r]| == |hidden[r]|)
            && forall r, i :: 0 <= r < |rows| && 0 <= i < |rows[r]| ==>
                 var route := routes[r][i];
                 rows[r][i] == x.combine(x.expert(layer, hidden[r][i], route.ids), route.ids, route.weights)
  {
    var d := Dispatch(layer, stage, hidden, IdsOf(routes));
    forall r | 0 <= r < |hidden|
      ensures Answer(x, d, routes)[r] == Apply(Ffn(x, layer), hidden[r], routes[r])
    {
    }
  }

  /**
   A coherent group's dispatch, answered with its own context, restores on every rank to the layer's
   feed-forward of the rows the rank held.
   */
  lemma AnsweredDispatch(x: Experts, layer: int, stage: nat, hidden: Group<Hidden>, routes: Group<Route>, n: nat, sp: bool,
                         zh: Hidden, zr: Route)
    requires |hidden| > 0 && Coherent(hidden, |hidden|, n, sp) && Coherent(routes, |hidden|, n, sp)
    ensures RowsAgree(hidden, routes)
    ensures var p := Payloads(hidden, routes, sp, zh, zr);
            var d := Dispatch(layer, stage, SentHidden(p), IdsOf(SentRoutes(p)));
            && RowsAgree(d.hidden, d.ids) && RowsAgree(d.hidden, SentRoutes(p))
            && var rows := Answer(x, d, SentRoutes(p));
               && AllRestore(rows, LayoutsOf(p))
               && RestoredRows(rows, LayoutsOf(p)) == ApplyGroup(Ffn(x, layer), hidden, routes)
  {
    hide Coherent, Padded, Answer, RestoreDispatch, PrepareDispatch, Ffn;
    CoherentRowsAgree(hidden, routes, n, sp);
    var p := Payloads(hidden, routes, sp, zh, zr);
    PayloadRowsAgree(hidden, routes, sp, zh, zr);
    OwnContextGivesFfn(x, layer, stage, SentHidden(p), SentRoutes(p));
    forall k | 0 <= k < |hidden|
      ensures RestoreDispatch(ApplyGroup(Ffn(x, layer), SentHidden(p), SentRoutes(p)), LayoutsOf(p)[k], k)
              == Fine(ApplyGroup(Ffn(x, layer), hidden, routes)[k])
    {
      DispatchRoundTrip(Ffn(x, layer), hidden, routes, n, sp, zh, zr, k);
      assert CameBack(Ffn(x, layer), hidden, routes, sp, zh, zr, k);
    }
  }

  lemma CoherentRowsAgree<A, B>(a: Group<A>, b: Group<B>, n: int, sp: bool)
    requires Coherent(a, |a|, n, sp) && Coherent(b, |a|, n, sp)
    ensures RowsAgree(a, b)
  {
  }

  function Queue(pending: map<nat, seq<Pending>>, stage: nat): seq<Pending> {
    if stage in pending then pending[stage] else []
  }

  lemma FirstOfQueue<T(!new)>(s: nat)
    ensures forall x: T :: (map[])[s := [] + [x]] == map[s := [x]]
  {
    forall x: T
      ensures (map[])[s := [] + [x]] == map[s := [x]]
    {
      assert [] + [x] == [x];
    }
  }

  class Connector {
    const experts: Experts
    var pending: map<nat, seq<Pending>>
    var wire: seq<Dispatch>
    ghost var trace: seq<Event>

    constructor (experts: Experts)
      ensures this.experts == experts && pending == map[] && wire == [] && trace == []
    {
      this.experts := experts;
      pending, wire, trace := map[], [], [];
    }

    /** send_attn_output on every rank; refuses routing whose rows differ from the hidden states'. */
    method SendAttnOutput(hidden: Group<Hidden>, layer: int, stage: nat, routes: Group<Route>) returns (ok: bool)
      modifies this
      ensures ok <==> RowsAgree(hidden, routes)
      ensures !ok ==> unchanged(this)
      ensures ok ==> Put(stage, layer, hidden, routes)
      ensures ok ==>
                && wire == old(wire) + [Dispatch(layer, stage, hidden, IdsOf(routes))]
                && (if stage in old(pending)
                    then pending == old(pending)[stage := old(pending)[stage] + [Pending(layer, stage, routes)]]
                    else pending == old(pending)[stage := [] + [Pending(layer, stage, routes)]])
                && trace == old(trace) + [Sent(layer, stage)]
    {
      if !RowsAgree(hidden, routes) {
        return false;
      }
      pending := pending[stage := Queue(pending, stage) + [Pending(layer, stage, routes)]];
      wire := wire + [Dispatch(layer, stage, hidden, IdsOf(routes))];
      trace := trace + [Sent(layer, stage)];
      return true;
    }

    /** What recv_ffn_output for `stage` would do now. */
    ghost function NextReceive(stage: nat): Receive
      reads this
    {
      if Queue(pending, stage) == [] then NothingPending
      else if wire == [] then NothingDispatched
      else
        var context, d := pending[stage][0], wire[0];
        if RowsAgree(d.hidden, d.ids) && RowsAgree(d.hidden, context.routes) then Output(Answer(experts, d, context.routes))
        else ContextMismatch
    }

    /** The next receive of `stage` can be restored with these layouts. */
    ghost predicate Restores(stage: nat, layouts: Option<seq<Layout>>)
      reads this
    {
      layouts.Some? && NextReceive(stage).Output? && AllRestore(NextReceive(stage).rows, layouts.value)
    }

    ghost function Restored(stage: nat, layouts: Option<seq<Layout>>): Group<Hidden>
      reads this
      requires Restores(stage, layouts)
    {
      RestoredRows(NextReceive(stage).rows, layouts.value)
    }

    /** One context of `stage` and one dispatch were taken, the oldest of each. */
    twostate predicate Took(stage: nat)
      reads this
    {
      && old(stage in pending && |pending[stage]| > 0 && |wire| > 0)
      && pending == (if |old(pending)[stage]| == 1 then old(pending) - {stage}
                     else old(pending)[stage := old(pending)[stage][1..]])
      && wire == old(wire)[1..]
      && var (c, d) := (old(pending)[stage][0], old(wire)[0]);
         trace == old(trace) + [Received(c.layer, c.stage, d.layer, d.stage)]
    }

    /** One dispatch of `stage` was added. */
    twostate predicate Put(stage: nat, layer: int, hidden: Group<Hidden>, routes: Group<Route>)
      reads this
    {
      && pending == old(pending)[stage := Queue(old(pending), stage) + [Pending(layer, stage, routes)]]
      && wire == old(wire) + [Dispatch(layer, stage, hidden, IdsOf(routes))]
      && trace == old(trace) + [Sent(layer, stage)]
    }

    /** recv_ffn_output on every rank: the oldest context of the stage meets the oldest dispatch. */
    method RecvFfnOutput(stage: nat) returns (r: Receive)
      modifies this
      ensures r == old(NextReceive(stage))
      ensures r.Output? ==> Took(stage)
      ensures r.NothingPending? <==> old(stage !in pending || pending[stage] == [])
      ensures r.NothingDispatched? <==> old(stage in pending && pending[stage] != [] && wire == [])
      ensures r.Output? ==>
                && wire == old(wire[1..])
                && pending == (if |old(pending)[stage]| == 1 then old(pending) - {stage}
                               else old(pending)[stage := old(pending)[stage][1..]])
      ensures r.Output? ==>
                var d, context := old(wire[0]), old(pending[stage][0]);
                && RowsAgree(d.hidden, d.ids) && RowsAgree(d.hidden, context.routes)
                && r.rows == Answer(experts, d, context.routes)
    {
      if Queue(pending, stage) == [] {
        return NothingPending;
      }
      var context, rest := pending[stage][0], pending[stage][1..];
      pending := if rest == [] then pending - {stage} else pending[stage := rest];
      if wire == [] {
        return NothingDispatched;
      }
      var d := wire[0];
      wire := wire[1..];
      if !RowsAgree(d.hidden, d.ids) || !RowsAgree(d.hidden, context.routes) {
        return ContextMismatch;
      }
      trace := trace + [Received(context.layer, context.stage, d.layer, d.stage)];
      return Output(Answer(experts, d, context.routes));
    }
  }
}
