/**
 What each kind of message makes the coordinator do, turn by turn.
 */
module CoordinatorTurns {
  import opened Options
  import opened Coordinator

  // -------------------------------------------------------------------- waves

  /** A first request wakes paused engines: one start of the current wave, then one wave change to the front ends. */
  lemma FirstRequestWakes(s: State, exclude: Option<int>, wave: int)
    requires s.coordinated && !s.running
    ensures var t := Turn(s, Ready(Some(FirstRequest(exclude, wave)), None));
            && t.Some? && t.value.running && t.value.wave == s.wave
            && t.value.started == s.started + [StartWave(s.wave, if wave < s.wave then None else exclude)]
            && t.value.published == s.published + [Publication(None, s.wave, true)]
            && t.value.engines == s.engines && t.value.changed == s.changed && t.value.snapshot == s.snapshot
  {
  }

  /** Engines that run, or that nobody coordinates, are not woken. */
  lemma FirstRequestWhileRunning(s: State, exclude: Option<int>, wave: int)
    requires !s.coordinated || s.running
    ensures Turn(s, Ready(Some(FirstRequest(exclude, wave)), None)) == Some(s)
  {
  }

  /** The end of the current or a later wave pauses the engines at the wave after it; an older one does nothing. */
  lemma CompletionPauses(s: State, engine: nat, wave: int, startWave: Option<int>)
    ensures var t := Turn(s, Ready(None, Some(EngineOutput(engine, None, Some(wave), startWave))));
            if s.coordinated && s.wave <= wave then
              && t.Some? && !t.value.running && t.value.wave == wave + 1 && t.value.started == s.started
              && t.value.published == s.published + [Publication(None, wave + 1, false)]
              && t.value.engines == s.engines && t.value.changed == s.changed && t.value.snapshot == s.snapshot
            else t == Some(s)
  {
  }

  /** A notice of a later wave, or of the current one while paused, starts that wave on all other engines. */
  lemma NoticeStarts(s: State, engine: nat, wave: int)
    ensures var t := Turn(s, Ready(None, Some(EngineOutput(engine, None, None, Some(wave)))));
            if s.coordinated && (wave > s.wave || (wave == s.wave && !s.running)) then
              && t.Some? && t.value.running && t.value.wave == wave
              && t.value.started == s.started + [StartWave(wave, Some(engine))]
              && t.value.published == s.published + [Publication(None, wave, true)]
              && t.value.engines == s.engines && t.value.changed == s.changed && t.value.snapshot == s.snapshot
            else t == Some(s)
  {
  }

  /** A woken wave that completes leaves the engines paused at the next one, which the next request starts. */
  lemma WavesAlternate(s: State, exclude: Option<int>, again: Option<int>, seen: int, engine: nat, seenAgain: int)
    requires s.coordinated && !s.running
    ensures var first := Turn(s, Ready(Some(FirstRequest(exclude, seen)), None));
            && first.Some?
            && var done := Turn(first.value, Ready(None, Some(EngineOutput(engine, None, Some(s.wave), None))));
               && done.Some? && !done.value.running
               && var next := Turn(done.value, Ready(Some(FirstRequest(again, seenAgain)), None));
                  && next.Some? && next.value.running && next.value.wave == s.wave + 1
                  && next.value.started == s.started + [StartWave(s.wave, if seen < s.wave then None else exclude),
                                                        StartWave(s.wave + 1, if seenAgain <= s.wave then None else again)]
  {
    FirstRequestWakes(s, exclude, seen);
    var first := Turn(s, Ready(Some(FirstRequest(exclude, seen)), None)).value;
    CompletionPauses(first, engine, s.wave, None);
    var done := Turn(first, Ready(None, Some(EngineOutput(engine, None, Some(s.wave), None)))).value;
    FirstRequestWakes(done, again, seenAgain);
  }

  /** Whatever a turn reads, front ends get one message about waves exactly when it changed or started one. */
  lemma WaveChangesAreAnnounced(s: State, front: Option<FrontInput>, output: Option<EngineOutput>)
    requires Turn(s, Ready(front, output)).Some?
    ensures var t := Turn(s, Ready(front, output)).value;
            t.published == s.published + if t.wave != s.wave || t.running != s.running || t.started != s.started
                                         then [Publication(None, t.wave, t.running)] else []
  {
    hide OnStats, Scale;
    if !EndsTurn(front) {
      var t := if front.Some? then OnFirstRequest(s, front.value.exclude, front.value.wave).0 else s;
      if output.Some? && output.value.stats.Some? {
        StatsLeaveWaves(t, output.value.engine, output.value.stats.value);
      }
    }
  }

  /** A first request and an engine's output read in one turn do what they do in two, with one message for both. */
  lemma BothInputsAreRead(s: State, exclude: Option<int>, wave: int, output: EngineOutput)
    ensures var woken := Turn(s, Ready(Some(FirstRequest(exclude, wave)), None));
            && woken.Some?
            && var apart, together := Turn(woken.value, Ready(None, Some(output))),
                                      Turn(s, Ready(Some(FirstRequest(exclude, wave)), Some(output)));
               && (together.Some? <==> apart.Some?)
               && (apart.Some? ==> together.value == apart.value.(published := together.value.published))
  {
    hide OnStats;
    var t := OnFirstRequest(s, exclude, wave).0;
    var told := t.published + [Publication(None, t.wave, t.running)];
    OutputIgnoresPublications(t, told, output);
  }

  lemma OutputIgnoresPublications(s: State, told: seq<Publication>, o: EngineOutput)
    ensures OnOutput(s.(published := told), o).Some? <==> OnOutput(s, o).Some?
    ensures OnOutput(s, o).Some? ==>
              var (t, changed) := OnOutput(s, o).value;
              OnOutput(s.(published := told), o).value == (t.(published := told), changed)
  {
  }

  lemma StatsLeaveWaves(s: State, engine: nat, st: Stats)
    requires engine < |s.engines|
    ensures var t := OnStats(s, engine, st);
            && t.wave == s.wave && t.running == s.running && t.started == s.started && t.published == s.published
            && t.coordinated == s.coordinated
  {
  }

  // --------------------------------------------------------------- statistics

  /** The report is of a later step than every report before. */
  predicate Later(s: State, st: Stats) {
    st.wave > s.statsWave || (st.wave == s.statsWave && st.step > s.statsStep)
  }

  /** A report sets its engine's cell; a later step's first report holds back the changed counts of the step before. */
  lemma ReportIsTaken(s: State, engine: nat, st: Stats)
    ensures var t := Turn(s, Ready(None, Some(EngineOutput(engine, Some(st), None, None))));
            && (t.Some? <==> engine < |s.engines|)
            && (t.Some? ==>
                  && t.value.engines == s.engines[engine := st.counts] && t.value.changed
                  && t.value.snapshot == (if s.coordinated && Later(s, st) && s.changed then Some(s.engines) else s.snapshot)
                  && (s.coordinated && Later(s, st) ==> t.value.statsStep == st.step && t.value.statsWave == st.wave)
                  && (!s.coordinated || !Later(s, st) ==> t.value.statsStep == s.statsStep && t.value.statsWave == s.statsWave)
                  && t.value.published == s.published && t.value.started == s.started
                  && t.value.wave == s.wave && t.value.running == s.running && t.value.coordinated == s.coordinated)
  {
  }

  /** A turn that reads one report and nothing else. */
  function Report(engine: nat, st: Stats): Poll {
    Ready(None, Some(EngineOutput(engine, Some(st), None, None)))
  }

  ghost predicate SameStep(polls: seq<Poll>, st: Stats, engines: nat) {
    forall i :: 0 <= i < |polls| ==> ReportOf(polls[i], st, engines)
  }

  predicate ReportOf(poll: Poll, st: Stats, engines: nat) {
    && poll.Ready? && poll.output.Some? && poll.output.value.stats.Some? && poll.output.value.engine < engines
    && poll == Report(poll.output.value.engine, poll.output.value.stats.value)
    && poll.output.value.stats.value.step == st.step && poll.output.value.stats.value.wave == st.wave
  }

  /**
   Once a later step has begun to be reported, the changed counts of the step before stay held back whole,
   however many engines report the new step, and the next timeout publishes exactly them.
   */
  lemma {:induction false} StepIsPublishedWhole(states: seq<State>, polls: seq<Poll>, st: Stats)
    requires Run(states, polls) && |polls| > 0 && SameStep(polls, st, |states[0].engines|)
    requires states[0].coordinated && states[0].changed && Later(states[0], st)
    ensures var s, t := states[0], states[|polls|];
            && t.coordinated && t.snapshot == Some(s.engines) && t.statsStep == st.step && t.statsWave == st.wave
            && |t.engines| == |s.engines| && t.wave == s.wave && t.running == s.running && t.published == s.published
            && Turn(t, Timeout).Some?
            && Turn(t, Timeout).value.published == s.published + [Publication(Some(s.engines), s.wave, s.running)]
  {
    var n := |polls| - 1;
    assert Follows(states, polls, n) && ReportOf(polls[n], st, |states[0].engines|);
    if n > 0 {
      RunPrefix(states, polls, n);
      StepIsPublishedWhole(states[..n + 1], polls[..n], st);
    }
    ReportIsTaken(states[n], polls[n].output.value.engine, polls[n].output.value.stats.value);
  }

  /** A timeout sends one message: what is held back, or the present counts, which then count as announced. */
  lemma TimeoutPublishes(s: State)
    ensures var t := Turn(s, Timeout);
            && t.Some? && t.value.engines == s.engines && t.value.snapshot == None
            && t.value.wave == s.wave && t.value.running == s.running && t.value.started == s.started
            && (var counts := if s.snapshot.Some? then s.snapshot else Some(s.engines);
                t.value.published == s.published + [Publication(counts, s.wave, s.running)])
            && (t.value.changed <==> s.changed && s.snapshot.Some?)
  {
  }

  // ------------------------------------------------------------------ scaling

  /** Scaling keeps the counts of the engines that stay, adds idle ones, and reads no engine output in that turn. */
  lemma ScalingKeepsTheRest(s: State, count: nat, output: Option<EngineOutput>)
    ensures var t := Turn(s, Ready(Some(ScaleEngines(count)), output));
            && t.Some? && |t.value.engines| == count && t.value == s.(engines := t.value.engines)
            && forall e :: 0 <= e < count ==>
                 if e < |s.engines| then t.value.engines[e] == s.engines[e]
                 else t.value.engines[e].waiting == 0 && t.value.engines[e].running == 0
  {
  }

  lemma SubscriptionChangesNothing(s: State, output: Option<EngineOutput>)
    ensures Turn(s, Ready(Some(Subscription), output)) == Some(s)
  {
  }
}
