/**
 The event trace of the two-stage schedule: while one stage's rows are with the remote experts,
 the other stage computes, and the connector's sends and receives strictly alternate.
 */
module CamSchedule {
  import opened CamConnector

  function Opening(layer: int): seq<Event> {
    [Computed(layer, 0), Sent(layer, 0)]
  }

  function TurnEvents(layer: int, s: nat, other: int): seq<Event>
    requires s < 2
  {
    [Computed(layer, s), Received(other, 1 - s, other, 1 - s), Sent(layer, s)]
  }

  /** What happens from the first computation until stage 0 is dispatched with layer `i`. */
  function EventsUpTo(layers: seq<int>, i: nat): seq<Event>
    requires i < |layers|
  {
    if i == 0 then Opening(layers[0])
    else EventsUpTo(layers, i - 1) + TurnEvents(layers[i - 1], 1, layers[i - 1]) + TurnEvents(layers[i], 0, layers[i - 1])
  }

  function Schedule(layers: seq<int>): seq<Event>
    requires |layers| > 0
  {
    var last := |layers| - 1;
    EventsUpTo(layers, last) + TurnEvents(layers[last], 1, layers[last])
    + [Received(layers[last], 1, layers[last], 1)]
  }

  /** The connector's share of a trace. */
  function Traffic(events: seq<Event>): seq<Event> {
    if events == [] then []
    else (if events[0].Computed? then [] else [events[0]]) + Traffic(events[1..])
  }

  lemma {:induction false} TrafficOfSum(a: seq<Event>, b: seq<Event>)
    ensures Traffic(a + b) == Traffic(a) + Traffic(b)
  {
    if a == [] {
      assert a + b == b;
    } else {
      assert (a + b)[1..] == a[1..] + b;
      TrafficOfSum(a[1..], b);
    }
  }

  /** The `k`-th dispatch: layers in order, stage 0 before stage 1. */
  function NthSent(layers: seq<int>, k: nat): Event
    requires k < 2 * |layers|
  {
    Sent(layers[k / 2], k % 2)
  }

  function NthReceived(layers: seq<int>, k: nat): Event
    requires k < 2 * |layers|
  {
    Received(layers[k / 2], k % 2, layers[k / 2], k % 2)
  }

  ghost predicate AlternatesTo(traffic: seq<Event>, layers: seq<int>, sends: nat, receives: nat)
    requires receives <= sends <= receives + 1 && sends <= 2 * |layers|
  {
    && |traffic| == sends + receives
    && (forall k :: 0 <= k < sends ==> traffic[2 * k] == NthSent(layers, k))
    && (forall k :: 0 <= k < receives ==> traffic[2 * k + 1] == NthReceived(layers, k))
  }

  lemma TurnTraffic(layer: int, s: nat, other: int)
    requires s < 2
    ensures Traffic(TurnEvents(layer, s, other)) == [Received(other, 1 - s, other, 1 - s), Sent(layer, s)]
  {
    var e := TurnEvents(layer, s, other);
    assert e == [e[0]] + ([e[1]] + [e[2]]);
    TrafficOfSum([e[0]], [e[1]] + [e[2]]);
    TrafficOfSum([e[1]], [e[2]]);
    TrafficOfOne(e[0]);
    TrafficOfOne(e[1]);
    TrafficOfOne(e[2]);
  }

  lemma TrafficOfOne(e: Event)
    ensures Traffic([e]) == if e.Computed? then [] else [e]
  {
    assert [e][1..] == [];
  }

  /** A receive of the outstanding dispatch and the next dispatch keep the alternation going. */
  lemma AlternationGrows(traffic: seq<Event>, layers: seq<int>, sends: nat)
    requires 0 < sends < 2 * |layers| && AlternatesTo(traffic, layers, sends, sends - 1)
    ensures AlternatesTo(traffic + [NthReceived(layers, sends - 1), NthSent(layers, sends)], layers, sends + 1, sends)
  {
    var t := traffic + [NthReceived(layers, sends - 1), NthSent(layers, sends)];
    forall k | 0 <= k < sends + 1
      ensures t[2 * k] == NthSent(layers, k)
    {
      assert k < sends ==> t[2 * k] == traffic[2 * k];
    }
    forall k | 0 <= k < sends
      ensures t[2 * k + 1] == NthReceived(layers, k)
    {
      assert k < sends - 1 ==> t[2 * k + 1] == traffic[2 * k + 1];
    }
  }

  /** A layer's stage 1 turn continues the alternation after its stage 0 is out. */
  lemma MiddleTurn(events: seq<Event>, layers: seq<int>, i: nat)
    requires i < |layers| && AlternatesTo(Traffic(events), layers, 2 * i + 1, 2 * i)
    ensures AlternatesTo(Traffic(events + TurnEvents(layers[i], 1, layers[i])), layers, 2 * i + 2, 2 * i + 1)
  {
    AlternationGrows(Traffic(events), layers, 2 * i + 1);
    hide AlternatesTo;
    TrafficOfSum(events, TurnEvents(layers[i], 1, layers[i]));
    TurnTraffic(layers[i], 1, layers[i]);
  }

  lemma NextTurn(events: seq<Event>, layers: seq<int>, i: nat)
    requires i + 1 < |layers| && AlternatesTo(Traffic(events), layers, 2 * i + 2, 2 * i + 1)
    ensures AlternatesTo(Traffic(events + TurnEvents(layers[i + 1], 0, layers[i])), layers, 2 * i + 3, 2 * i + 2)
  {
    AlternationGrows(Traffic(events), layers, 2 * i + 2);
    hide AlternatesTo;
    TrafficOfSum(events, TurnEvents(layers[i + 1], 0, layers[i]));
    TurnTraffic(layers[i + 1], 0, layers[i]);
  }

  lemma OpeningTraffic(layers: seq<int>)
    requires |layers| > 0
    ensures AlternatesTo(Traffic(Opening(layers[0])), layers, 1, 0)
  {
    var e := Opening(layers[0]);
    assert e == [e[0]] + [e[1]];
    TrafficOfSum([e[0]], [e[1]]);
    TrafficOfOne(e[0]);
    TrafficOfOne(e[1]);
  }

  lemma {:induction false} TrafficUpTo(layers: seq<int>, i: nat)
    requires i < |layers|
    ensures AlternatesTo(Traffic(EventsUpTo(layers, i)), layers, 2 * i + 1, 2 * i)
  {
    hide AlternatesTo, TurnEvents, Opening, Traffic;
    if i == 0 {
      OpeningTraffic(layers);
    } else {
      TrafficUpTo(layers, i - 1);
      var events := EventsUpTo(layers, i - 1);
      MiddleTurn(events, layers, i - 1);
      NextTurn(events + TurnEvents(layers[i - 1], 1, layers[i - 1]), layers, i - 1);
    }
  }

  /**
   `n` layers make 2n dispatches and 2n receives that strictly alternate, and the k-th receive takes
   the context of the k-th dispatch and is answered by the k-th dispatch.
   */
  lemma ScheduleAlternates(layers: seq<int>)
    requires |layers| > 0
    ensures AlternatesTo(Traffic(Schedule(layers)), layers, 2 * |layers|, 2 * |layers|)
  {
    var last := |layers| - 1;
    var events := EventsUpTo(layers, last) + TurnEvents(layers[last], 1, layers[last]);
    TrafficUpTo(layers, last);
    MiddleTurn(EventsUpTo(layers, last), layers, last);
    LastReceive(events, layers);
  }

  /** The `k`-th turn: its stage computes, the dispatch before it comes back, its own dispatch leaves. */
  ghost predicate TurnAt(events: seq<Event>, layers: seq<int>, k: nat)
    requires 1 <= k < 2 * |layers| && 3 * k + 1 < |events|
  {
    && events[3 * k - 1] == Computed(layers[k / 2], k % 2)
    && events[3 * k] == Received(layers[(k - 1) / 2], (k - 1) % 2, layers[(k - 1) / 2], (k - 1) % 2)
    && events[3 * k + 1] == Sent(layers[k / 2], k % 2)
  }

  ghost predicate TurnsTo(events: seq<Event>, layers: seq<int>, n: nat)
    requires 1 <= n <= 2 * |layers| && |events| == 3 * n - 1
  {
    && events[0] == Computed(layers[0], 0) && events[1] == Sent(layers[0], 0)
    && forall k :: 1 <= k < n ==> TurnAt(events, layers, k)
  }

  lemma TurnGrows(events: seq<Event>, layers: seq<int>, n: nat)
    requires 1 <= n < 2 * |layers| && |events| == 3 * n - 1 && TurnsTo(events, layers, n)
    ensures TurnsTo(events + TurnEvents(layers[n / 2], n % 2, layers[(n - 1) / 2]), layers, n + 1)
  {
    var grown := events + TurnEvents(layers[n / 2], n % 2, layers[(n - 1) / 2]);
    forall k | 1 <= k < n + 1
      ensures TurnAt(grown, layers, k)
    {
      assert k < n ==> TurnAt(events, layers, k);
    }
  }

  lemma {:induction false} TurnsUpTo(layers: seq<int>, i: nat)
    requires i < |layers|
    ensures |EventsUpTo(layers, i)| == 6 * i + 2 && TurnsTo(EventsUpTo(layers, i), layers, 2 * i + 1)
  {
    if i > 0 {
      TurnsUpTo(layers, i - 1);
      var events := EventsUpTo(layers, i - 1);
      TurnGrows(events, layers, 2 * i - 1);
      TurnGrows(events + TurnEvents(layers[i - 1], 1, layers[i - 1]), layers, 2 * i);
    }
  }

  /** The whole trace of `n` layers: 6n events, every stage computing while the other's dispatch is out. */
  lemma ScheduleInFull(layers: seq<int>)
    requires |layers| > 0
    ensures var events, n := Schedule(layers), |layers|;
            && |events| == 6 * n && TurnsTo(events[..6 * n - 1], layers, 2 * n)
            && events[6 * n - 1] == Received(layers[n - 1], 1, layers[n - 1], 1)
  {
    var last := |layers| - 1;
    TurnsUpTo(layers, last);
    TurnGrows(EventsUpTo(layers, last), layers, 2 * last + 1);
    var turns := EventsUpTo(layers, last) + TurnEvents(layers[last], 1, layers[last]);
    assert Schedule(layers)[..6 * |layers| - 1] == turns;
  }

  lemma LastReceive(events: seq<Event>, layers: seq<int>)
    requires |layers| > 0 && AlternatesTo(Traffic(events), layers, 2 * |layers|, 2 * |layers| - 1)
    ensures var last := layers[|layers| - 1];
            AlternatesTo(Traffic(events + [Received(last, 1, last, 1)]), layers, 2 * |layers|, 2 * |layers|)
  {
    var last := layers[|layers| - 1];
    AlternationEnds(Traffic(events), layers);
    hide AlternatesTo;
    TrafficOfSum(events, [Received(last, 1, last, 1)]);
    TrafficOfOne(Received(last, 1, last, 1));
  }

  lemma AlternationEnds(traffic: seq<Event>, layers: seq<int>)
    requires |layers| > 0 && AlternatesTo(traffic, layers, 2 * |layers|, 2 * |layers| - 1)
    ensures AlternatesTo(traffic + [NthReceived(layers, 2 * |layers| - 1)], layers, 2 * |layers|, 2 * |layers|)
  {
    var n := 2 * |layers|;
    var t := traffic + [NthReceived(layers, n - 1)];
    forall k | 0 <= k < n
      ensures t[2 * k] == NthSent(layers, k) && t[2 * k + 1] == NthReceived(layers, k)
    {
      assert t[2 * k] == traffic[2 * k];
      assert k < n - 1 ==> t[2 * k + 1] == traffic[2 * k + 1];
    }
  }
}
