/**
 The data-parallel coordinator's event loop: request waves, the per-engine request counts and their
 publication to the front ends. One `Poll` is one turn of the loop.
 */
module Coordinator {
  import opened Options

  /** Requests waiting at and running on one engine. */
  datatype Counts = Counts(waiting: int, running: int)

  datatype FrontInput =
    | Subscription
    | ScaleEngines(count: nat)
    | FirstRequest(exclude: Option<int>, wave: int)

  datatype Stats = Stats(step: int, wave: int, counts: Counts)

  datatype EngineOutput = EngineOutput(engine: nat, stats: Option<Stats>, waveComplete: Option<int>, startWave: Option<int>)

  datatype Poll = Timeout | Ready(front: Option<FrontInput>, output: Option<EngineOutput>)

  /** What the front ends are sent: counts come with every message but a wave change. */
  datatype Publication = Publication(counts: Option<seq<Counts>>, wave: int, running: bool)

  datatype StartWave = StartWave(wave: int, exclude: Option<int>)

  datatype State = State(
    coordinated: bool,
    engines: seq<Counts>,
    wave: int,
    running: bool,
    changed: bool,
    statsStep: int,
    statsWave: int,
    snapshot: Option<seq<Counts>>,
    published: seq<Publication>,
    started: seq<StartWave>)

  const NO_REQUESTS := Counts(0, 0)

  function Initial(engineCount: nat, coordinated: bool): State {
    State(coordinated, seq(engineCount, _ => NO_REQUESTS), 0, false, false, -1, -1, None, [], [])
  }

  // ------------------------------------------------------------------- one turn

  function OnTimeout(s: State): State {
    match s.snapshot
    case Some(counts) => s.(snapshot := None, published := s.published + [Publication(Some(counts), s.wave, s.running)])
    case None => s.(changed := false, published := s.published + [Publication(Some(s.engines), s.wave, s.running)])
  }

  function Scale(engines: seq<Counts>, count: nat): seq<Counts> {
    if count > |engines| then engines + seq(count - |engines|, _ => NO_REQUESTS) else engines[..count]
  }

  /** A new request while the engines are paused wakes them; `true` when the wave state changed. */
  function OnFirstRequest(s: State, exclude: Option<int>, wave: int): (State, bool) {
    if !s.coordinated || s.running then (s, false)
    else (s.(running := true, started := s.started + [StartWave(s.wave, if wave < s.wave then None else exclude)]), true)
  }

  function OnStats(s: State, engine: nat, st: Stats): State
    requires engine < |s.engines|
  {
    var newer := st.wave > s.statsWave || (st.wave == s.statsWave && st.step > s.statsStep);
    var t :=
      if s.coordinated && newer then
        s.(snapshot := if s.changed then Some(s.engines) else s.snapshot, statsStep := st.step, statsWave := st.wave)
      else s;
    t.(engines := t.engines[engine := st.counts], changed := true)
  }

  function OnWaves(s: State, o: EngineOutput): (State, bool) {
    if !s.coordinated then (s, false)
    else if o.waveComplete.Some? then
      if s.wave <= o.waveComplete.value then (s.(wave := o.waveComplete.value + 1, running := false), true) else (s, false)
    else if o.startWave.Some? && (o.startWave.value > s.wave || (o.startWave.value == s.wave && !s.running)) then
      var wave := o.startWave.value;
      (s.(wave := wave, running := true, started := s.started + [StartWave(wave, Some(o.engine))]), true)
    else (s, false)
  }

  /** One output of an engine; `None` when it names an engine that does not exist. */
  function OnOutput(s: State, o: EngineOutput): Option<(State, bool)> {
    if o.stats.Some? && o.engine >= |s.engines| then None
    else Some(OnWaves(if o.stats.Some? then OnStats(s, o.engine, o.stats.value) else s, o))
  }

  /** The front-end message ends the turn, and an engine output stays unread. */
  predicate EndsTurn(front: Option<FrontInput>) {
    front.Some? && (front.value.Subscription? || front.value.ScaleEngines?)
  }

  function Announce(s: State, waveChanged: bool): State {
    if waveChanged then s.(published := s.published + [Publication(None, s.wave, s.running)]) else s
  }

  function Turn(s: State, poll: Poll): Option<State> {
    match poll
    case Timeout => Some(OnTimeout(s))
    case Ready(front, output) =>
      if front == Some(Subscription) then Some(s)
      else if front.Some? && front.value.ScaleEngines? then Some(s.(engines := Scale(s.engines, front.value.count)))
      else
        var (t, woke) := if front.Some? then OnFirstRequest(s, front.value.exclude, front.value.wave) else (s, false);
        if output.None? then Some(Announce(t, woke))
        else
          match OnOutput(t, output.value)
          case None => None
          case Some((u, changed)) => Some(Announce(u, woke || changed))
  }

  // ----------------------------------------------------------------- the process

  class Process {
    const coordinated: bool
    var engines: seq<Counts>
    var wave: int
    var running: bool
    var changed: bool
    var statsStep: int
    var statsWave: int
    var snapshot: Option<seq<Counts>>
    /** Messages sent to the front ends and to the engines. */
    var published: seq<Publication>
    var started: seq<StartWave>

    constructor (engineCount: nat, coordinated: bool)
      ensures View() == Initial(engineCount, coordinated)
    {
      this.coordinated := coordinated;
      engines := seq(engineCount, _ => NO_REQUESTS);
      wave, running, changed, statsStep, statsWave, snapshot := 0, false, false, -1, -1, None;
      published, started := [], [];
    }

    ghost function View(): State
      reads this
    {
      State(coordinated, engines, wave, running, changed, statsStep, statsWave, snapshot, published, started)
    }

    method PublishCounts()
      modifies this
      ensures View() == OnTimeout(old(View()))
    {
      var counts;
      if snapshot.Some? {
        counts := snapshot.value;
        snapshot := None;
      } else {
        counts := engines;
        changed := false;
      }
      published := published + [Publication(Some(counts), wave, running)];
    }

    method SendStartWave(startWave: int, exclude: Option<int>)
      modifies this`started
      ensures started == old(started) + [StartWave(startWave, exclude)]
    {
      started := started + [StartWave(startWave, exclude)];
    }

    method ReceiveStats(engine: nat, st: Stats)
      requires engine < |engines|
      modifies this
      ensures View() == OnStats(old(View()), engine, st)
    {
      if coordinated {
        if st.wave > statsWave || (st.wave == statsWave && st.step > statsStep) {
          if changed {
            snapshot := Some(engines);
          }
          statsStep := st.step;
          statsWave := st.wave;
        }
      }
      engines := engines[engine := st.counts];
      changed := true;
    }

    method ReceiveWaves(o: EngineOutput) returns (waveChanged: bool)
      modifies this
      ensures (View(), waveChanged) == OnWaves(old(View()), o)
    {
      waveChanged := false;
      if coordinated {
        if o.waveComplete.Some? {
          if wave <= o.waveComplete.value {
            wave := o.waveComplete.value + 1;
            running := false;
            waveChanged := true;
          }
        } else if o.startWave.Some? && (o.startWave.value > wave || (o.startWave.value == wave && !running)) {
          wave := o.startWave.value;
          running := true;
          waveChanged := true;
          SendStartWave(wave, Some(o.engine));
        }
      }
    }

    /** One turn of process_input_socket; `false` when the process dies of an unknown engine. */
    method Step(poll: Poll) returns (alive: bool)
      modifies this
      ensures alive <==> Turn(old(View()), poll).Some?
      ensures alive ==> Some(View()) == Turn(old(View()), poll)
    {
      hide OnTimeout, OnStats, OnWaves;
      if poll.Timeout? {
        PublishCounts();
        return true;
      }
      var waveChanged := false;
      if poll.front.Some? {
        match poll.front.value {
          case Subscription => return true;
          case ScaleEngines(count) =>
            if count > |engines| {
              engines := engines + seq(count - |engines|, _ => NO_REQUESTS);
            } else {
              engines := engines[..count];
            }
            return true;
          case FirstRequest(exclude, requestWave) =>
            if coordinated && !running {
              running := true;
              waveChanged := true;
              SendStartWave(wave, if requestWave < wave then None else exclude);
            }
        }
      }
      if poll.output.Some? {
        var o := poll.output.value;
        if o.stats.Some? {
          if o.engine >= |engines| {
            return false;
          }
          ReceiveStats(o.engine, o.stats.value);
        }
        var moved := ReceiveWaves(o);
        waveChanged := waveChanged || moved;
      }
      if waveChanged {
        published := published + [Publication(None, wave, running)];
      }
      return true;
    }
  }

  // ------------------------------------------------------------------------ runs

  /** The states a coordinator passes through. */
  ghost predicate Run(states: seq<State>, polls: seq<Poll>) {
    && |states| == |polls| + 1
    && forall i :: 0 <= i < |polls| ==> Follows(states, polls, i)
  }

  ghost predicate Follows(states: seq<State>, polls: seq<Poll>, i: nat)
    requires i < |polls| && i + 1 < |states|
  {
    Turn(states[i], polls[i]) == Some(states[i + 1])
  }

  lemma RunPrefix(states: seq<State>, polls: seq<Poll>, n: nat)
    requires Run(states, polls) && n <= |polls|
    ensures Run(states[..n + 1], polls[..n])
  {
    var earlier, read := states[..n + 1], polls[..n];
    forall i | 0 <= i < n
      ensures Follows(earlier, read, i)
    {
      assert Follows(states, polls, i);
    }
  }

  // ----------------------------------------------------------------- wave safety

  ghost predicate RisingWaves(started: seq<StartWave>) {
    forall i, j :: 0 <= i < j < |started| ==> started[i].wave < started[j].wave
  }

  ghost predicate RisingPublications(published: seq<Publication>) {
    forall i, j :: 0 <= i < j < |published| ==> published[i].wave <= published[j].wave
  }

  /** Every started wave lies behind the current one, or is the current one and still running. */
  ghost predicate WavesOk(s: State) {
    && RisingWaves(s.started) && RisingPublications(s.published)
    && (forall i :: 0 <= i < |s.started| ==> s.started[i].wave < s.wave || (s.started[i].wave == s.wave && s.running))
    && (forall i :: 0 <= i < |s.published| ==> s.published[i].wave <= s.wave)
  }

  ghost predicate Extends(s: State, t: State) {
    && s.wave <= t.wave && s.started <= t.started && s.published <= t.published && s.coordinated == t.coordinated
  }

  /** Starting a wave that is new, or current and paused. */
  lemma StartKeepsWaves(s: State, wave: int, exclude: Option<int>)
    requires WavesOk(s) && (wave > s.wave || (wave == s.wave && !s.running))
    ensures var t := s.(wave := wave, running := true, started := s.started + [StartWave(wave, exclude)]);
            WavesOk(t) && Extends(s, t)
  {
  }

  lemma FirstRequestKeepsWaves(s: State, exclude: Option<int>, wave: int)
    requires WavesOk(s)
    ensures WavesOk(OnFirstRequest(s, exclude, wave).0) && Extends(s, OnFirstRequest(s, exclude, wave).0)
  {
    if s.coordinated && !s.running {
      StartKeepsWaves(s, s.wave, if wave < s.wave then None else exclude);
    }
  }

  lemma OutputKeepsWaves(s: State, o: EngineOutput)
    requires WavesOk(s) && OnOutput(s, o).Some?
    ensures WavesOk(OnOutput(s, o).value.0) && Extends(s, OnOutput(s, o).value.0)
  {
    hide RisingWaves, RisingPublications;
    var t := if o.stats.Some? then OnStats(s, o.engine, o.stats.value) else s;
    assert WavesOk(t) && Extends(s, t);
    if t.coordinated && o.waveComplete.None? && o.startWave.Some? {
      var wave := o.startWave.value;
      if wave > t.wave || (wave == t.wave && !t.running) {
        StartKeepsWaves(t, wave, Some(o.engine));
      }
    }
  }

  /** Any message to the front ends carries the current wave. */
  lemma PublishKeepsWaves(s: State, counts: Option<seq<Counts>>)
    requires WavesOk(s)
    ensures var t := s.(published := s.published + [Publication(counts, s.wave, s.running)]);
            WavesOk(t) && Extends(s, t)
  {
  }

  lemma TurnKeepsWaves(s: State, poll: Poll)
    requires WavesOk(s) && Turn(s, poll).Some?
    ensures WavesOk(Turn(s, poll).value) && Extends(s, Turn(s, poll).value)
  {
    hide OnOutput, OnFirstRequest, RisingWaves, RisingPublications, Scale;
    if poll.Timeout? {
      PublishKeepsWaves(s, if s.snapshot.Some? then s.snapshot else Some(s.engines));
    } else if !EndsTurn(poll.front) {
      var t := s;
      if poll.front.Some? {
        t := OnFirstRequest(s, poll.front.value.exclude, poll.front.value.wave).0;
        FirstRequestKeepsWaves(s, poll.front.value.exclude, poll.front.value.wave);
      }
      if poll.output.Some? {
        OutputKeepsWaves(t, poll.output.value);
        t := OnOutput(t, poll.output.value).value.0;
      }
      PublishKeepsWaves(t, None);
    }
  }

  /**
   In every run the wave never goes back, start-wave broadcasts carry strictly increasing waves, so no
   wave is started twice, and the front ends never see an older wave after a newer one.
   */
  lemma {:induction false} WavesOnlyRise(states: seq<State>, polls: seq<Poll>, i: nat, j: nat)
    requires Run(states, polls) && WavesOk(states[0]) && i <= j < |states|
    ensures WavesOk(states[j]) && Extends(states[i], states[j])
    decreases j
  {
    hide Turn, WavesOk, Extends;
    if j > 0 {
      assert Follows(states, polls, j - 1);
      WavesOnlyRise(states, polls, if i < j then i else j - 1, j - 1);
      TurnKeepsWaves(states[j - 1], polls[j - 1]);
      if i < j {
        ExtendsOn(states[i], states[j - 1], states[j]);
      }
    }
    ExtendsItself(states[j]);
  }

  lemma ExtendsItself(s: State)
    ensures Extends(s, s)
  {
  }

  lemma ExtendsOn(s: State, t: State, u: State)
    requires Extends(s, t) && Extends(t, u)
    ensures Extends(s, u)
  {
  }

  /** Wave coordination is off and has left no trace. */
  ghost predicate NoWaves(s: State) {
    && !s.coordinated && s.wave == 0 && !s.running && s.started == [] && s.snapshot.None?
    && forall i :: 0 <= i < |s.published| ==> s.published[i].counts.Some? && s.published[i].wave == 0 && !s.published[i].running
  }

  /** Without wave coordination the wave stays 0, no engine is marked running and nothing is broadcast. */
  lemma {:induction false} UncoordinatedStaysAtZero(states: seq<State>, polls: seq<Poll>, j: nat)
    requires Run(states, polls) && NoWaves(states[0]) && j < |states|
    ensures NoWaves(states[j])
  {
    if j > 0 {
      assert Follows(states, polls, j - 1);
      UncoordinatedStaysAtZero(states, polls, j - 1);
    }
  }

  // ------------------------------------------------------------ load statistics

  /** The counts the front ends hold: the last ones published, or those of idle engines. */
  function LastCounts(published: seq<Publication>, initial: seq<Counts>): seq<Counts> {
    if published == [] then initial
    else
      var last := published[|published| - 1];
      if last.counts.Some? then last.counts.value else LastCounts(published[..|published| - 1], initial)
  }

  lemma LastCountsAppend(published: seq<Publication>, p: Publication, initial: seq<Counts>)
    ensures LastCounts(published + [p], initial) == if p.counts.Some? then p.counts.value else LastCounts(published, initial)
  {
    assert (published + [p])[..|published|] == published;
  }

  /** A held snapshot means unpublished changes, and without any the front ends are up to date. */
  ghost predicate StatsOk(s: State, initial: seq<Counts>) {
    && (s.snapshot.Some? ==> s.changed)
    && (!s.changed ==> LastCounts(s.published, initial) == s.engines)
  }

  predicate Scales(poll: Poll) {
    poll.Ready? && poll.front.Some? && poll.front.value.ScaleEngines?
  }

  lemma AnnounceKeepsCounts(s: State, waveChanged: bool, initial: seq<Counts>)
    ensures LastCounts(Announce(s, waveChanged).published, initial) == LastCounts(s.published, initial)
  {
    LastCountsAppend(s.published, Publication(None, s.wave, s.running), initial);
  }

  lemma TurnKeepsStats(s: State, poll: Poll, initial: seq<Counts>)
    requires StatsOk(s, initial) && Turn(s, poll).Some? && !Scales(poll)
    ensures StatsOk(Turn(s, poll).value, initial)
  {
    if poll.Timeout? {
      LastCountsAppend(s.published, Publication(Some(s.engines), s.wave, s.running), initial);
      if s.snapshot.Some? {
        LastCountsAppend(s.published, Publication(s.snapshot, s.wave, s.running), initial);
      }
    } else if !EndsTurn(poll.front) {
      var (t, woke) :=
        if poll.front.Some? then OnFirstRequest(s, poll.front.value.exclude, poll.front.value.wave) else (s, false);
      assert StatsOk(t, initial);
      if poll.output.None? {
        AnnounceKeepsCounts(t, woke, initial);
      } else {
        var (u, changed) := OnOutput(t, poll.output.value).value;
        assert StatsOk(u, initial);
        AnnounceKeepsCounts(u, woke || changed, initial);
      }
    }
  }

  /** Between scale events: no pending change means that the last published counts are current. */
  lemma {:induction false} QuietMeansPublished(states: seq<State>, polls: seq<Poll>, initial: seq<Counts>, j: nat)
    requires Run(states, polls) && StatsOk(states[0], initial) && j < |states|
    requires forall i :: 0 <= i < j ==> !Scales(polls[i])
    ensures StatsOk(states[j], initial)
  {
    if j > 0 {
      assert Follows(states, polls, j - 1);
      QuietMeansPublished(states, polls, initial, j - 1);
      TurnKeepsStats(states[j - 1], polls[j - 1], initial);
    }
  }

  lemma StartsQuiet(engineCount: nat, coordinated: bool)
    ensures var s := Initial(engineCount, coordinated);
            WavesOk(s) && StatsOk(s, s.engines) && (!coordinated ==> NoWaves(s))
  {
  }

  /** Changing the number of engines marks nothing as changed: quiet front ends become stale unless the number stays. */
  lemma ScalingIsNotAnnounced(s: State, count: nat, output: Option<EngineOutput>, initial: seq<Counts>)
    requires StatsOk(s, initial) && !s.changed
    ensures var t := Turn(s, Ready(Some(ScaleEngines(count)), output));
            t.Some? && (StatsOk(t.value, initial) <==> count == |s.engines|)
  {
    assert count == |s.engines| ==> s.engines[..count] == s.engines;
  }

  /** Two timeouts in a row always bring the front ends up to date, whatever was held back. */
  lemma TwoTimeoutsPublishCurrent(s: State, initial: seq<Counts>)
    ensures var t := OnTimeout(OnTimeout(s));
            && t.engines == s.engines && LastCounts(t.published, initial) == s.engines
            && !t.changed && t.snapshot.None?
  {
    var t := OnTimeout(s);
    LastCountsAppend(t.published, Publication(Some(t.engines), t.wave, t.running), initial);
  }

  /** One timeout is enough exactly when nothing is held back, or what is held back is still true. */
  lemma OneTimeoutPublishesCurrent(s: State, initial: seq<Counts>)
    ensures LastCounts(OnTimeout(s).published, initial) == s.engines <==> s.snapshot.None? || s.snapshot.value == s.engines
  {
    LastCountsAppend(s.published, Publication(Some(s.engines), s.wave, s.running), initial);
    if s.snapshot.Some? {
      LastCountsAppend(s.published, Publication(s.snapshot, s.wave, s.running), initial);
    }
  }

  // ------------------------------------------------------- what was published

  ghost predicate Seen(states: seq<State>, j: nat, counts: seq<Counts>)
    requires j < |states|
  {
    exists i :: 0 <= i <= j && states[i].engines == counts
  }

  /** Held and published counts all belong to a state the coordinator was really in. */
  ghost predicate OnlyRealCounts(states: seq<State>, j: nat)
    requires j < |states|
  {
    && (states[j].snapshot.Some? ==> Seen(states, j, states[j].snapshot.value))
    && forall k :: 0 <= k < |states[j].published| && states[j].published[k].counts.Some? ==>
         Seen(states, j, states[j].published[k].counts.value)
  }

  lemma SeenLater(states: seq<State>, i: nat, j: nat, counts: seq<Counts>)
    requires i <= j < |states| && Seen(states, i, counts)
    ensures Seen(states, j, counts)
  {
  }

  /** What an engine's output changes besides the waves. */
  lemma OutputEffects(s: State, o: EngineOutput)
    requires OnOutput(s, o).Some?
    ensures var t := OnOutput(s, o).value.0;
            && t.published == s.published && (o.stats.Some? ==> o.engine < |s.engines|)
            && t.engines == (if o.stats.Some? then s.engines[o.engine := o.stats.value.counts] else s.engines)
            && (t.snapshot == s.snapshot || t.snapshot == Some(s.engines))
  {
  }

  lemma FirstRequestEffects(s: State, exclude: Option<int>, wave: int)
    ensures var t := OnFirstRequest(s, exclude, wave).0;
            t.published == s.published && t.engines == s.engines && t.snapshot == s.snapshot
  {
  }

  /** What one turn holds back or publishes was there before the turn. */
  lemma TurnInventsNothing(s: State, poll: Poll)
    requires Turn(s, poll).Some?
    ensures var t := Turn(s, poll).value;
            && (t.snapshot.Some? ==> t.snapshot == s.snapshot || t.snapshot.value == s.engines)
            && s.published <= t.published
            && forall k :: |s.published| <= k < |t.published| && t.published[k].counts.Some? ==>
                 t.published[k].counts == s.snapshot || t.published[k].counts.value == s.engines
  {
    hide Scale, OnOutput, OnFirstRequest;
    if poll.Ready? && !EndsTurn(poll.front) {
      var t := s;
      if poll.front.Some? {
        FirstRequestEffects(s, poll.front.value.exclude, poll.front.value.wave);
        t := OnFirstRequest(s, poll.front.value.exclude, poll.front.value.wave).0;
      }
      if poll.output.Some? {
        OutputEffects(t, poll.output.value);
      }
    }
  }

  lemma {:induction false} NoInventedCounts(states: seq<State>, polls: seq<Poll>, j: nat)
    requires Run(states, polls) && states[0].published == [] && states[0].snapshot.None? && j < |states|
    ensures OnlyRealCounts(states, j)
  {
    if j > 0 {
      NoInventedCounts(states, polls, j - 1);
      assert Follows(states, polls, j - 1);
      TurnInventsNothing(states[j - 1], polls[j - 1]);
      hide Turn;
      var s, t := states[j - 1], states[j];
      assert Seen(states, j, s.engines);
      if t.snapshot.Some? && t.snapshot == s.snapshot {
        SeenLater(states, j - 1, j, t.snapshot.value);
      }
      forall k | 0 <= k < |t.published| && t.published[k].counts.Some?
        ensures Seen(states, j, t.published[k].counts.value)
      {
        if k < |s.published| {
          assert t.published[k] == s.published[k];
          SeenLater(states, j - 1, j, t.published[k].counts.value);
        } else if t.published[k].counts == s.snapshot {
          SeenLater(states, j - 1, j, t.published[k].counts.value);
        }
      }
    }
  }
}
