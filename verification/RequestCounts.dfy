/**
 How an async Attention engine reports its request counts: only when they changed since its last
 report. The coordinator's cell for the engine must still end up with what the engine last saw.
 */
module RequestCounts {
  import opened Coordinator

  /** What the scheduler of an engine reports: (running, waiting). */
  type Observation = (int, int)

  /** The coordinator's cell for an observation. */
  function CellOf(o: Observation): Counts {
    Counts(o.1, o.0)
  }

  // -------------------------------------------------------------------- sender

  /** The reports an engine has queued after a series of observations, given what it last reported. */
  function Reports(observations: seq<Observation>, last: Observation): seq<Observation> {
    if observations == [] then []
    else (if observations[0] == last then [] else [observations[0]]) + Reports(observations[1..], observations[0])
  }

  lemma {:induction false} ReportsAppend(observations: seq<Observation>, o: Observation, last: Observation)
    ensures Reports(observations + [o], last)
            == Reports(observations, last) + if o == LastOf(observations, last) then [] else [o]
  {
    if observations == [] {
      assert Reports([o], last) == (if o == last then [] else [o]) + Reports([], o);
    } else {
      assert (observations + [o])[1..] == observations[1..] + [o];
      ReportsAppend(observations[1..], o, observations[0]);
    }
  }

  function LastOf(observations: seq<Observation>, initial: Observation): Observation {
    if observations == [] then initial else observations[|observations| - 1]
  }

  class Engine {
    const publishes: bool
    var last: Observation
    var queue: seq<Observation>
    ghost var observed: seq<Observation>

    constructor (publishes: bool)
      ensures this.publishes == publishes && Valid() && observed == []
    {
      this.publishes := publishes;
      last, queue, observed := (0, 0), [], [];
    }

    ghost predicate Valid()
      reads this
    {
      if publishes then queue == Reports(observed, (0, 0)) && last == LastOf(observed, (0, 0))
      else queue == [] && last == (0, 0)
    }

    /** _publish_async_attention_request_counts. */
    method PublishRequestCounts(counts: Observation)
      requires Valid()
      modifies this
      ensures Valid() && observed == old(observed) + [counts]
      ensures queue == old(queue) + if publishes && counts != old(last) then [counts] else []
    {
      ReportsAppend(observed, counts, (0, 0));
      observed := observed + [counts];
      if !publishes {
        return;
      }
      if counts == last {
        return;
      }
      queue := queue + [counts];
      last := counts;
    }

    /** The busy loop over the counts seen after each input poll and each engine step. */
    method RunBusyLoop(turns: seq<(Observation, Observation)>)
      requires Valid() && observed == []
      modifies this
      ensures Valid() && |observed| == 2 * |turns|
      ensures forall i :: 0 <= i < |turns| ==> observed[2 * i] == turns[i].0 && observed[2 * i + 1] == turns[i].1
      ensures queue == if publishes then Reports(observed, (0, 0)) else []
    {
      for i := 0 to |turns|
        invariant Valid() && |observed| == 2 * i
        invariant forall k :: 0 <= k < i ==> observed[2 * k] == turns[k].0 && observed[2 * k + 1] == turns[k].1
      {
        PublishRequestCounts(turns[i].0);
        PublishRequestCounts(turns[i].1);
      }
    }
  }

  // ---------------------------------------------------------------- coordinator

  /** The reports of one engine that a run of turns reads, in order. */
  function ReadFrom(engine: nat, polls: seq<Poll>): seq<Counts> {
    if polls == [] then []
    else ReadFrom(engine, polls[..|polls| - 1]) + ReadOne(engine, polls[|polls| - 1])
  }

  function ReadOne(engine: nat, poll: Poll): seq<Counts> {
    if && poll.Ready? && !EndsTurn(poll.front) && poll.output.Some?
       && poll.output.value.engine == engine && poll.output.value.stats.Some?
    then [poll.output.value.stats.value.counts]
    else []
  }

  function LastCell(cells: seq<Counts>, initial: Counts): Counts {
    if cells == [] then initial else cells[|cells| - 1]
  }

  /** Without scaling, a cell holds the last report read for its engine, whatever the other engines and the timeouts do. */
  lemma {:induction false} CellHoldsLastRead(states: seq<State>, polls: seq<Poll>, engine: nat)
    requires Run(states, polls) && engine < |states[0].engines|
    requires forall i :: 0 <= i < |polls| ==> !Scales(polls[i])
    ensures |states[|polls|].engines| == |states[0].engines|
    ensures states[|polls|].engines[engine] == LastCell(ReadFrom(engine, polls), states[0].engines[engine])
  {
    if polls != [] {
      var n := |polls| - 1;
      RunPrefix(states, polls, n);
      CellHoldsLastRead(states[..n + 1], polls[..n], engine);
      assert Follows(states, polls, n);
      TurnUpdatesCell(states[n], polls[n], engine);
    }
  }

  lemma TurnUpdatesCell(s: State, poll: Poll, engine: nat)
    requires Turn(s, poll).Some? && !Scales(poll) && engine < |s.engines|
    ensures var t := Turn(s, poll).value;
            && |t.engines| == |s.engines|
            && t.engines[engine] == LastCell(ReadOne(engine, poll), s.engines[engine])
  {
    hide OnOutput, OnFirstRequest;
    if poll.Ready? && !EndsTurn(poll.front) {
      var t := s;
      if poll.front.Some? {
        FirstRequestEffects(s, poll.front.value.exclude, poll.front.value.wave);
        t := OnFirstRequest(s, poll.front.value.exclude, poll.front.value.wave).0;
      }
      if poll.output.Some? {
        OutputEffects(t, poll.output.value);
      }
    }
  }

  function Cells(observations: seq<Observation>): (c: seq<Counts>)
    ensures |c| == |observations| && forall i :: 0 <= i < |c| ==> c[i] == CellOf(observations[i])
  {
    seq(|observations|, i requires 0 <= i < |observations| => CellOf(observations[i]))
  }

  lemma {:induction false} LastReportIsLastObservation(observations: seq<Observation>, last: Observation)
    ensures LastOf(Reports(observations, last), last) == LastOf(observations, last)
  {
    if observations != [] {
      LastReportIsLastObservation(observations[1..], observations[0]);
      var rest := Reports(observations[1..], observations[0]);
      if observations[0] == last {
        assert Reports(observations, last) == rest;
      } else {
        assert rest != [] ==> Reports(observations, last)[|rest|] == rest[|rest| - 1];
      }
    }
  }

  /**
   Reporting only changes loses nothing: once the coordinator has read what the engine queued, the
   engine's cell holds the counts it last observed.
   */
  lemma {:induction false} NothingIsLost(states: seq<State>, polls: seq<Poll>, engine: nat, observations: seq<Observation>)
    requires Run(states, polls) && engine < |states[0].engines| && states[0].engines[engine] == NO_REQUESTS
    requires forall i :: 0 <= i < |polls| ==> !Scales(polls[i])
    requires ReadFrom(engine, polls) == Cells(Reports(observations, (0, 0)))
    ensures engine < |states[|polls|].engines|
    ensures var cell := states[|polls|].engines[engine];
            if observations == [] then cell.running == 0 && cell.waiting == 0
            else cell.running == observations[|observations| - 1].0 && cell.waiting == observations[|observations| - 1].1
  {
    CellHoldsLastRead(states, polls, engine);
    LastReportIsLastObservation(observations, (0, 0));
  }

  /** No report repeats the one before it. */
  lemma {:induction false} ReportsDiffer(observations: seq<Observation>, last: Observation, i: nat)
    requires i < |Reports(observations, last)|
    ensures Reports(observations, last)[i] != if i == 0 then last else Reports(observations, last)[i - 1]
  {
    if observations[0] == last {
      ReportsDiffer(observations[1..], observations[0], i);
    } else if i > 0 {
      ReportsDiffer(observations[1..], observations[0], i - 1);
    }
  }
}
