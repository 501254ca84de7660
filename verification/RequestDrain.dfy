/**
 Draining: what a request count of zero means, when it can be reached, and what the removal paths
 then delete.
 */
module RequestDrain {
  import opened SchedulerSpec
  import opened RequestProtocol
  import opened RequestSafety
  import opened RequestRuns

  /** A request finishes at most once: nothing changes it afterwards. */
  lemma DoneIsFinal(s: Sys, e: Event, r: nat)
    requires r < |s.reqs| && s.reqs[r].phase.Done?
    ensures r < |Step(s, e).reqs| && Step(s, e).reqs[r] == s.reqs[r]
  {
    hide Best, BeginRequest, Activate;
  }

  /** A server of `p` is gone from `p'`, or stands there as a different incarnation. */
  ghost predicate Deleted(p: Pool, p': Pool, k: string) {
    k in p.servers && !(k in p'.servers && p'.servers[k].ordinal == p.servers[k].ordinal)
  }

  predicate Addressed(e: Event, r: nat) {
    && !e.Begin? && !e.AddNodes? && !e.RemoveNodes?
    && !e.ListenerSnapshot? && !e.ListenerCheck? && !e.ListenerFinalize?
    && e.r == r
  }

  /** A request is changed by its own events only. */
  lemma OthersUntouched(s: Sys, e: Event, r: nat)
    requires r < |s.reqs| && !Addressed(e, r)
    ensures r < |Step(s, e).reqs| && Step(s, e).reqs[r] == s.reqs[r]
  {
    hide Best, BeginRequest, ReservePrefillKv, SchedulerSpec.PickDecoder, Activate, FinishRequest, HoldOn;
  }

  lemma OwnStep(s: Sys, e: Event, r: nat)
    requires r < |s.reqs| && Addressed(e, r)
    ensures Step(s, e) == StepRequest(s, e, s.reqs[r])
  {
    hide StepRequest;
  }

  // -------------------------------------------------------- kept reservations

  /** A reservation the request made and never gave back. */
  predicate Holding(q: Req) {
    q.kv.Some? || q.dec.Some?
  }

  /** A finish that does not give back all the request holds: its reassignment stopped after reserving again. */
  ghost predicate LeakingFinish(s: Sys, e: Event) {
    exists r: nat :: r < |s.reqs| && LeaksAt(s, e, r)
  }

  ghost predicate LeaksAt(s: Sys, e: Event, r: nat)
    requires r < |s.reqs|
  {
    e == Finish(r) && Leaky(s.reqs[r])
  }

  predicate Leaky(q: Req) {
    q.phase.Closing? && (q.kv.Some? || (!q.phase.decoderHeld && q.dec.Some?))
  }

  /** A step finishes a request that still holds something if and only if it is such a finish. */
  lemma FinishedHoldsExactly(s: Sys, e: Event, r: nat)
    requires Inv(s) && r < |s.reqs| && Unfinished(s.reqs[r])
    ensures r < |Step(s, e).reqs|
    ensures var q := Step(s, e).reqs[r];
            q.phase.Done? && Holding(q) <==> LeaksAt(s, e, r)
  {
    hide Inv, Step, StepRequest;
    if !Addressed(e, r) {
      OthersUntouched(s, e, r);
    } else if e.Finish? {
      FinishHolds(s, r);
    } else {
      OthersFinishEmpty(s, e, r);
    }
  }

  lemma FinishHolds(s: Sys, r: nat)
    requires Inv(s) && r < |s.reqs| && Unfinished(s.reqs[r])
    ensures r < |Step(s, Finish(r)).reqs|
    ensures var q := Step(s, Finish(r)).reqs[r]; q.phase.Done? && Holding(q) <==> Leaky(s.reqs[r])
  {
    hide Inv, Step, Best, ReservePrefillKv, FinishRequest, ReleasePrefillKv, ReleaseDecoder,
      HoldOn, PrefillScore, DecodeScore;
    Facts(s, r);
    OwnStep(s, Finish(r), r);
  }

  lemma OthersFinishEmpty(s: Sys, e: Event, r: nat)
    requires Inv(s) && r < |s.reqs| && Unfinished(s.reqs[r]) && Addressed(e, r) && !e.Finish?
    ensures r < |Step(s, e).reqs|
    ensures var q := Step(s, e).reqs[r]; q.phase.Done? ==> !Holding(q)
  {
    hide Inv, Step, Best, ReservePrefillKv, FinishRequest, ReleasePrefillKv, ReleaseDecoder,
      HoldOn, PrefillScore, DecodeScore;
    Facts(s, r);
    OwnStep(s, e, r);
  }

  lemma NewRequestsAreUnfinished(s: Sys, e: Event, r: nat)
    requires |s.reqs| <= r < |Step(s, e).reqs|
    ensures Step(s, e).reqs[r].phase.Prefilling?
  {
    hide Best, BeginRequest, Activate;
  }

  /** A leaking finish happened on the way. */
  ghost predicate Leaked(s: Sys, events: seq<Event>) {
    events != [] &&
    (Leaked(s, events[..|events| - 1]) || LeakingFinish(Run(s, events[..|events| - 1]), events[|events| - 1]))
  }

  ghost predicate FinishedHolding(s: Sys, r: nat)
    requires r < |s.reqs|
  {
    s.reqs[r].phase.Done? && Holding(s.reqs[r])
  }

  ghost predicate SomeFinishedHolds(s: Sys) {
    exists r :: 0 <= r < |s.reqs| && FinishedHolding(s, r)
  }

  lemma StepLeaks(s: Sys, e: Event)
    requires Inv(s)
    ensures SomeFinishedHolds(Step(s, e)) <==> SomeFinishedHolds(s) || LeakingFinish(s, e)
  {
    hide Step, Inv, Holding, LeaksAt;
    var s' := Step(s, e);
    forall r: nat | r < |s.reqs|
      ensures r < |s'.reqs| && (FinishedHolding(s', r) <==> FinishedHolding(s, r) || LeaksAt(s, e, r))
    {
      OneLeaks(s, e, r);
    }
    forall r | |s.reqs| <= r < |s'.reqs|
      ensures !FinishedHolding(s', r)
    {
      NewRequestsAreUnfinished(s, e, r);
    }
  }

  lemma OneLeaks(s: Sys, e: Event, r: nat)
    requires Inv(s) && r < |s.reqs|
    ensures r < |Step(s, e).reqs|
    ensures FinishedHolding(Step(s, e), r) <==> FinishedHolding(s, r) || LeaksAt(s, e, r)
  {
    hide Step, Inv, Holding;
    if s.reqs[r].phase.Done? {
      DoneIsFinal(s, e, r);
    } else {
      FinishedHoldsExactly(s, e, r);
    }
  }

  /** In every run, finished requests hold something if and only if a leaking finish happened. */
  lemma {:induction false} LeakedExactly(prefillers: seq<Address>, decoders: seq<Address>, events: seq<Event>)
    ensures SomeFinishedHolds(Run(Start(prefillers, decoders), events)) <==> Leaked(Start(prefillers, decoders), events)
    decreases |events|
  {
    if events != [] {
      var before, e := events[..|events| - 1], events[|events| - 1];
      LeakedExactly(prefillers, decoders, before);
      EveryRunIsSafe(prefillers, decoders, before);
      StepLeaks(Run(Start(prefillers, decoders), before), e);
    }
  }

  /** A reassignment that stops after it reserved again: cancelled in its prefill, or without its clients. */
  ghost predicate Breaks(s: Sys, e: Event) {
    exists r: nat :: r < |s.reqs| && BreaksAt(s, e, r)
  }

  ghost predicate BreaksAt(s: Sys, e: Event, r: nat)
    requires r < |s.reqs|
  {
    && s.reqs[r].phase.RePrefilling?
    && (e == Cancel(r) || (e == RePickDecoder(r, false) && s.sched.decode.servers != map[]))
  }

  /** Exactly these events make a request leaky; it stays so until it finishes or is abandoned. */
  lemma BrokenReassignmentsLeak(s: Sys, e: Event, r: nat)
    requires Inv(s) && r < |s.reqs|
    ensures r < |Step(s, e).reqs|
    ensures Leaky(Step(s, e).reqs[r])
            <==> BreaksAt(s, e, r) || (Leaky(s.reqs[r]) && e != Finish(r) && e != Abandon(r))
  {
    hide Inv, Step, StepRequest;
    if !Addressed(e, r) {
      OthersUntouched(s, e, r);
    } else if s.reqs[r].phase.RePrefilling? {
      RePrefillingLeaks(s, e, r);
    } else {
      OthersDoNotLeak(s, e, r);
    }
  }

  lemma RePrefillingLeaks(s: Sys, e: Event, r: nat)
    requires Inv(s) && r < |s.reqs| && Addressed(e, r) && s.reqs[r].phase.RePrefilling?
    ensures r < |Step(s, e).reqs| && (Leaky(Step(s, e).reqs[r]) <==> BreaksAt(s, e, r))
  {
    hide Inv, Step, Best, ReservePrefillKv, FinishRequest, ReleasePrefillKv, ReleaseDecoder,
      HoldOn, PrefillScore, DecodeScore;
    Facts(s, r);
    OwnStep(s, e, r);
  }

  lemma OthersDoNotLeak(s: Sys, e: Event, r: nat)
    requires Inv(s) && r < |s.reqs| && Addressed(e, r) && !s.reqs[r].phase.RePrefilling?
    ensures r < |Step(s, e).reqs|
    ensures Leaky(Step(s, e).reqs[r]) <==> Leaky(s.reqs[r]) && e != Finish(r) && e != Abandon(r)
  {
    hide Inv, Step, Best, ReservePrefillKv, FinishRequest, ReleasePrefillKv, ReleaseDecoder,
      HoldOn, PrefillScore, DecodeScore;
    Facts(s, r);
    OwnStep(s, e, r);
  }

  /** Such a request, once finished, keeps its KV on a live prefiller, and its new decoder load if it had one. */
  lemma BrokenReassignmentKeepsItsHolds(s: Sys, e: Event, r: nat)
    requires Inv(s) && r < |s.reqs| && BreaksAt(s, e, r)
    ensures r < |Step(s, e).reqs| == |Step(Step(s, e), Finish(r)).reqs|
    ensures var q := Step(Step(s, e), Finish(r)).reqs[r];
            && q.phase.Done? && q.kv.Some? && q.kv == s.reqs[r].kv && OnLive(s.sched.prefill, q.kv.value)
            && (q.dec.Some? <==> e.RePickDecoder?)
  {
    hide Inv, Step, StepRequest;
    BreakKeepsHolds(s, e, r);
    ClosingKeepsHolds(Step(s, e), r);
  }

  lemma BreakKeepsHolds(s: Sys, e: Event, r: nat)
    requires Inv(s) && r < |s.reqs| && BreaksAt(s, e, r)
    ensures r < |Step(s, e).reqs|
    ensures var q := Step(s, e).reqs[r];
            && q.phase.Closing? && !q.phase.decoderHeld && (q.dec.Some? <==> e.RePickDecoder?)
            && q.kv.Some? && q.kv == s.reqs[r].kv && OnLive(s.sched.prefill, q.kv.value)
  {
    hide Inv, Step, Best, ReservePrefillKv, FinishRequest, ReleasePrefillKv, ReleaseDecoder,
      HoldOn, PrefillScore, DecodeScore;
    Facts(s, r);
    OwnStep(s, e, r);
  }

  lemma ClosingKeepsHolds(s: Sys, r: nat)
    requires r < |s.reqs| && s.reqs[r].phase.Closing? && !s.reqs[r].phase.decoderHeld
    ensures |Step(s, Finish(r)).reqs| == |s.reqs|
    ensures var q := Step(s, Finish(r)).reqs[r];
            q.phase.Done? && q.kv == s.reqs[r].kv && q.dec == s.reqs[r].dec
  {
    hide Step, FinishRequest, HoldOn;
    OwnStep(s, Finish(r), r);
  }

  /** A reassignment broke on the way. */
  ghost predicate Broken(s: Sys, events: seq<Event>) {
    events != [] &&
    (Broken(s, events[..|events| - 1]) || Breaks(Run(s, events[..|events| - 1]), events[|events| - 1]))
  }

  ghost predicate Spoiled(s: Sys, r: nat)
    requires r < |s.reqs|
  {
    Leaky(s.reqs[r]) || FinishedHolding(s, r)
  }

  ghost predicate SomeSpoiled(s: Sys) {
    exists r :: 0 <= r < |s.reqs| && Spoiled(s, r)
  }

  ghost predicate NoneLost(s: Sys) {
    forall r :: 0 <= r < |s.reqs| ==> !s.reqs[r].phase.Lost?
  }

  lemma NoneLostBefore(s: Sys, e: Event)
    requires NoneLost(Step(s, e))
    ensures NoneLost(s)
  {
    hide Step;
    forall r | 0 <= r < |s.reqs|
      ensures !s.reqs[r].phase.Lost?
    {
      if s.reqs[r].phase.Lost? {
        LostStaysLost(s, e, r);
      }
    }
  }

  lemma AbandonedIsLost(s: Sys, r: nat)
    requires r < |s.reqs| && Leaky(s.reqs[r])
    ensures r < |Step(s, Abandon(r)).reqs| && Step(s, Abandon(r)).reqs[r].phase.Lost?
  {
  }

  lemma StepSpoils(s: Sys, e: Event)
    requires Inv(s) && NoneLost(Step(s, e))
    ensures SomeSpoiled(Step(s, e)) <==> SomeSpoiled(s) || Breaks(s, e)
  {
    hide Step, Inv, Holding, BreaksAt, Leaky;
    var s' := Step(s, e);
    forall r: nat | r < |s.reqs|
      ensures r < |s'.reqs| && (Spoiled(s', r) <==> Spoiled(s, r) || BreaksAt(s, e, r))
    {
      OneSpoils(s, e, r);
    }
    forall r | |s.reqs| <= r < |s'.reqs|
      ensures !Spoiled(s', r)
    {
      NewRequestsAreUnfinished(s, e, r);
      OnlyClosingLeaks(s'.reqs[r]);
    }
  }

  lemma OnlyClosingLeaks(q: Req)
    ensures Leaky(q) ==> q.phase.Closing?
  {
  }

  lemma OneSpoils(s: Sys, e: Event, r: nat)
    requires Inv(s) && NoneLost(Step(s, e)) && r < |s.reqs|
    ensures r < |Step(s, e).reqs|
    ensures Spoiled(Step(s, e), r) <==> Spoiled(s, r) || BreaksAt(s, e, r)
  {
    hide Step, Inv, Holding;
    BrokenReassignmentsLeak(s, e, r);
    if s.reqs[r].phase.Done? {
      DoneIsFinal(s, e, r);
    } else {
      FinishedHoldsExactly(s, e, r);
      if Leaky(s.reqs[r]) && e == Abandon(r) {
        AbandonedIsLost(s, r);
      }
    }
  }

  lemma {:induction false} BrokenExactly(prefillers: seq<Address>, decoders: seq<Address>, events: seq<Event>)
    requires NoneLost(Run(Start(prefillers, decoders), events))
    ensures SomeSpoiled(Run(Start(prefillers, decoders), events)) <==> Broken(Start(prefillers, decoders), events)
    decreases |events|
  {
    if events != [] {
      var before, e := events[..|events| - 1], events[|events| - 1];
      EveryRunIsSafe(prefillers, decoders, before);
      NoneLostBefore(Run(Start(prefillers, decoders), before), e);
      BrokenExactly(prefillers, decoders, before);
      StepSpoils(Run(Start(prefillers, decoders), before), e);
    }
  }

  /** No request has a reservation it made and never gave back. */
  ghost predicate NothingReserved(s: Sys) {
    forall r :: 0 <= r < |s.reqs| ==> !Holding(s.reqs[r])
  }

  /**
   At a request count of zero nothing is reserved if and only if no leaking finish happened, which is so
   if and only if no reassignment was stopped after reserving again.
   */
  lemma DrainedReservesNothing(prefillers: seq<Address>, decoders: seq<Address>, events: seq<Event>)
    requires Run(Start(prefillers, decoders), events).sched.requestNum == 0
    ensures NothingReserved(Run(Start(prefillers, decoders), events)) <==> !Leaked(Start(prefillers, decoders), events)
    ensures NothingReserved(Run(Start(prefillers, decoders), events)) <==> !Broken(Start(prefillers, decoders), events)
  {
    hide Run, Start, Holding, Leaked, Broken;
    var s := Run(Start(prefillers, decoders), events);
    EveryRunIsSafe(prefillers, decoders, events);
    OpenMeansSomeone(s.reqs);
    LeakedExactly(prefillers, decoders, events);
    BrokenExactly(prefillers, decoders, events);
    assert NothingReserved(s) <==> !SomeFinishedHolds(s) by {
      assert forall r :: 0 <= r < |s.reqs| ==> FinishedHolding(s, r) == Holding(s.reqs[r]);
    }
    assert forall r :: 0 <= r < |s.reqs| ==> Spoiled(s, r) == FinishedHolding(s, r);
  }

  // ------------------------------------------------------------------ deletion

  /**
   In every run, a server is deleted only while every begun request has finished; nothing is reserved
   then, on any server, if and only if no leaking finish happened before.
   */
  lemma DrainIsSafe(prefillers: seq<Address>, decoders: seq<Address>, events: seq<Event>, e: Event, role: Role, k: string)
    requires var s := Run(Start(prefillers, decoders), events);
             Deleted(s.sched.RolePool(role), Step(s, e).sched.RolePool(role), k)
    ensures var s := Run(Start(prefillers, decoders), events);
            && s.sched.requestNum == 0
            && (forall r :: 0 <= r < |s.reqs| ==> s.reqs[r].phase.Done?)
            && (e.RemoveNodes? || e.ListenerFinalize?)
            && (NothingReserved(s) <==> !Leaked(Start(prefillers, decoders), events))
            && (NothingReserved(s) <==> !Broken(Start(prefillers, decoders), events))
  {
    hide Run, Start, Step, Leaked, Broken, Deleted, NothingReserved;
    var s := Run(Start(prefillers, decoders), events);
    EveryRunIsSafe(prefillers, decoders, events);
    OpenMeansSomeone(s.reqs);
    DeletersCheckTheCount(s, e, role, k);
    DrainedReservesNothing(prefillers, decoders, events);
  }

  lemma DeletersCheckTheCount(s: Sys, e: Event, role: Role, k: string)
    requires Inv(s) && Deleted(s.sched.RolePool(role), Step(s, e).sched.RolePool(role), k)
    ensures s.sched.requestNum == 0 && (e.RemoveNodes? || e.ListenerFinalize?)
  {
    hide Inv, Best, KvBounded, KvExact, DecExact, ReqOk, OrdinalsBelow, ListenerOk;
    match e
    case AddNodes(_, _) => AddInstancesQueues(s.sched, e.role, e.addrs);
    case RemoveNodes(_, _) =>
    case ListenerFinalize =>
    case ListenerSnapshot(_) =>
    case ListenerCheck(_, _) => CheckDeletesNothing(s, e);
    case Begin(_) =>
    case _ => if e.r < |s.reqs| { RequestsMoveLoads(s, e); }
  }

  lemma CheckDeletesNothing(s: Sys, e: Event)
    requires Inv(s) && e.ListenerCheck?
    ensures Extends(s.sched, Step(s, e).sched)
  {
    hide KvBounded, DecExact, ReqOk, OrdinalsBelow, ListenerOk, Activate;
    if s.listener.Checking? && s.listener.todo != [] {
      var (key, w) := s.listener.todo[0];
      ActivateAdministers(s.sched, w.role, Address(key, w.host, w.port));
    }
  }

  /** The scheduler calls of a request move loads only. */
  lemma CallsMoveLoads(s: State)
    ensures forall k, load :: MovesLoads(s, ReleasePrefillKv(s, k, load))
    ensures forall k, load :: MovesLoads(s, ReleaseDecoder(s, k, load))
    ensures forall load :: MovesLoads(s, ReservePrefillKv(s, load).0)
    ensures forall load :: MovesLoads(s, SchedulerSpec.PickDecoder(s, load).0)
    ensures forall pk, pl, dk, dl, releaseKv :: MovesLoads(s, FinishRequest(s, pk, pl, dk, dl, releaseKv))
  {
    hide Best;
  }

  /** What a request does to the scheduler never adds, removes or replaces a server. */
  lemma RequestsMoveLoads(s: Sys, e: Event)
    requires !e.Begin? && !e.AddNodes? && !e.RemoveNodes?
    requires !e.ListenerSnapshot? && !e.ListenerCheck? && !e.ListenerFinalize?
    requires e.r < |s.reqs|
    ensures MovesLoads(s.sched, Step(s, e).sched)
  {
    CallsMoveLoads(s.sched);
    hide ReleasePrefillKv, ReleaseDecoder, ReservePrefillKv, SchedulerSpec.PickDecoder, FinishRequest,
      PrefillScore, DecodeScore, HoldOn;
  }

  /** Once drained, finalizing deletes exactly the tainted live servers and clears every taint. */
  lemma FinalizeDeletesTheTainted(s: State, role: Role, k: string)
    requires s.requestNum == 0
    ensures var p, p' := s.RolePool(role), Finalize(s).RolePool(role);
            && (k in p'.servers <==> k in p.servers && k !in p.tainted)
            && (k in p'.servers ==> p'.servers[k] == p.servers[k])
            && p'.tainted == {}
  {
  }

  /**
   Exactly when a step deletes a server: at a request count of zero, by a removal that names it in its
   role, or by the end of a listener pass if it is tainted.
   */
  lemma DeletedExactly(s: Sys, e: Event, role: Role, k: string)
    requires Inv(s) && k in s.sched.RolePool(role).servers
    ensures Deleted(s.sched.RolePool(role), Step(s, e).sched.RolePool(role), k)
            <==> && s.sched.requestNum == 0
                 && ((e.RemoveNodes? && e.role == role && k in Keys(e.addrs))
                     || (e.ListenerFinalize? && s.listener == Checking([]) && k in s.sched.RolePool(role).tainted))
  {
    hide Inv, Keys;
    if !e.RemoveNodes? && !e.ListenerFinalize? {
      if Deleted(s.sched.RolePool(role), Step(s, e).sched.RolePool(role), k) {
        DeletersCheckTheCount(s, e, role, k);
      }
    } else if e.RemoveNodes? {
      assert e.addrs == [] ==> k !in Keys(e.addrs) by {
        NoKeys();
      }
    }
  }

  lemma NoKeys()
    ensures Keys([]) == {}
  {
  }

  // --------------------------------------------------------------- lost requests

  /** Exactly which steps lose a request: none of them counts it down. */
  lemma LosesExactly(s: Sys, e: Event, r: nat)
    requires Inv(s) && r < |s.reqs| && !s.reqs[r].phase.Lost?
    ensures r < |Step(s, e).reqs|
    ensures Step(s, e).reqs[r].phase.Lost?
            <==> || (e == Cancel(r) && s.reqs[r].phase.Prefilling?)
                 || (e == PickDecoder(r, false) && s.reqs[r].phase.Prefilling? && s.sched.decode.servers != map[])
                 || (e == Abandon(r) && (s.reqs[r].phase.Streaming? || s.reqs[r].phase.Closing?))
  {
    hide Inv, Step, StepRequest;
    if !Addressed(e, r) {
      OthersUntouched(s, e, r);
    } else if s.reqs[r].phase.Prefilling? {
      PrefillingLoses(s, e, r);
    } else {
      OthersLose(s, e, r);
    }
  }

  lemma PrefillingLoses(s: Sys, e: Event, r: nat)
    requires Inv(s) && r < |s.reqs| && Addressed(e, r) && s.reqs[r].phase.Prefilling?
    ensures r < |Step(s, e).reqs|
    ensures Step(s, e).reqs[r].phase.Lost?
            <==> e == Cancel(r) || (e == PickDecoder(r, false) && s.sched.decode.servers != map[])
  {
    hide Inv, Step, Best, ReservePrefillKv, FinishRequest, ReleasePrefillKv, ReleaseDecoder,
      HoldOn, PrefillScore, DecodeScore;
    Facts(s, r);
    OwnStep(s, e, r);
  }

  lemma OthersLose(s: Sys, e: Event, r: nat)
    requires Inv(s) && r < |s.reqs| && Addressed(e, r) && !s.reqs[r].phase.Lost? && !s.reqs[r].phase.Prefilling?
    ensures r < |Step(s, e).reqs|
    ensures Step(s, e).reqs[r].phase.Lost?
            <==> e == Abandon(r) && (s.reqs[r].phase.Streaming? || s.reqs[r].phase.Closing?)
  {
    hide Inv, Step, Best, ReservePrefillKv, FinishRequest, ReleasePrefillKv, ReleaseDecoder,
      HoldOn, PrefillScore, DecodeScore;
    Facts(s, r);
    OwnStep(s, e, r);
  }

  /** A lost request is never counted down, and no server is deleted from then on. */
  lemma {:induction false} LostRequestsBlockTheDrain(s: Sys, events: seq<Event>, r: nat)
    requires Inv(s) && r < |s.reqs| && s.reqs[r].phase.Lost?
    ensures var s' := Run(s, events);
            && Inv(s') && r < |s'.reqs| && s'.reqs[r].phase.Lost? && s'.sched.requestNum > 0
            && s'.reqs[r].kv == s.reqs[r].kv && s'.reqs[r].dec == s.reqs[r].dec
    ensures forall role: Role, k :: !Deleted(s.sched.RolePool(role), Run(s, events).sched.RolePool(role), k)
    decreases |events|
  {
    if events == [] {
      OpenMeansSomeone(s.reqs);
    } else {
      var before, e := events[..|events| - 1], events[|events| - 1];
      LostRequestsBlockTheDrain(s, before, r);
      var s1 := Run(s, before);
      StepKeeps(s1, e);
      LostStaysLost(s1, e, r);
      OpenMeansSomeone(Step(s1, e).reqs);
      forall role: Role, k | k in s.sched.RolePool(role).servers
        ensures !Deleted(s.sched.RolePool(role), Step(s1, e).sched.RolePool(role), k)
      {
        assert !Deleted(s.sched.RolePool(role), s1.sched.RolePool(role), k);
        if Deleted(s1.sched.RolePool(role), Step(s1, e).sched.RolePool(role), k) {
          DeletersCheckTheCount(s1, e, role, k);
        }
      }
    }
  }

  lemma LostStaysLost(s: Sys, e: Event, r: nat)
    requires r < |s.reqs| && s.reqs[r].phase.Lost?
    ensures r < |Step(s, e).reqs| && Step(s, e).reqs[r] == s.reqs[r]
  {
    hide Best, BeginRequest, Activate;
  }

  lemma {:induction false} RunOfSum(s: Sys, a: seq<Event>, b: seq<Event>)
    ensures Run(s, a + b) == Run(Run(s, a), b)
    decreases |b|
  {
    if b == [] {
      assert a + b == a;
    } else {
      assert (a + b)[..|a + b| - 1] == a + b[..|b| - 1];
      RunOfSum(s, a, b[..|b| - 1]);
    }
  }

  lemma RunOfOne(s: Sys, e: Event)
    ensures Run(s, [e]) == Step(s, e)
  {
    assert [e][..0] == [];
  }

  /** From `s` to `s'` only request `r` moved, it is done, and nothing was lost or begun. */
  ghost predicate OnlyFinished(s: Sys, s': Sys, r: nat) {
    && Inv(s') && r < |s.reqs| == |s'.reqs| && s'.reqs[r].phase.Done?
    && forall i :: 0 <= i < |s.reqs| && i != r ==> s'.reqs[i] == s.reqs[i]
  }

  /** The events that see a request through from where it stands: at most two. */
  function WayOut(r: nat, phase: Phase): seq<Event> {
    match phase
    case Prefilling(_, _) => [PrefillFailed(r)]
    case Streaming(_, _) => [Finish(r)]
    case KvReturned(_) => [Cancel(r), Finish(r)]
    case DecoderReturned(_) => [Cancel(r), Finish(r)]
    case RePrefilling(_, _, _) => [RePrefillFailed(r), Finish(r)]
    case Closing(_, _) => [Finish(r)]
    case Lost => []
    case Done => []
  }

  lemma FinishesOne(s: Sys, r: nat)
    requires Inv(s) && r < |s.reqs| && !s.reqs[r].phase.Lost?
    ensures OnlyFinished(s, Run(s, WayOut(r, s.reqs[r].phase)), r)
  {
    hide Inv, AbortInitial, FinishRequest, ReleasePrefillKv, Run;
    var way := WayOut(r, s.reqs[r].phase);
    if |way| == 0 {
      assert Run(s, []) == s by {
        RunOfNone(s);
      }
    } else {
      RunOfOne(s, way[0]);
      StepKeeps(s, way[0]);
      OnlyTouches(s, way[0], r);
      if |way| == 2 {
        assert way == [way[0]] + [way[1]];
        var t := Step(s, way[0]);
        RunOfSum(s, [way[0]], [way[1]]);
        RunOfOne(t, way[1]);
        StepKeeps(t, way[1]);
        OnlyTouches(t, way[1], r);
      }
    }
  }

  lemma RunOfNone(s: Sys)
    ensures Run(s, []) == s
  {
  }

  /** An event of request `r` leaves the others alone and finishes `r` if it ends its phase. */
  lemma OnlyTouches(s: Sys, e: Event, r: nat)
    requires r < |s.reqs| && (e == PrefillFailed(r) || e == Finish(r) || e == Cancel(r) || e == RePrefillFailed(r))
    ensures |Step(s, e).reqs| == |s.reqs|
    ensures forall i :: 0 <= i < |s.reqs| && i != r ==> Step(s, e).reqs[i] == s.reqs[i]
    ensures var phase, phase' := s.reqs[r].phase, Step(s, e).reqs[r].phase;
            && (e.PrefillFailed? && phase.Prefilling? ==> phase'.Done?)
            && (e.Finish? && (phase.Streaming? || phase.Closing?) ==> phase'.Done?)
            && (e.Cancel? && (phase.KvReturned? || phase.DecoderReturned?) ==> phase'.Closing?)
            && (e.RePrefillFailed? && phase.RePrefilling? ==> phase'.Closing?)
  {
  }

  /** Events that finish the first `n` requests one after the other. */
  lemma {:induction false} FinishesAll(s: Sys, n: nat) returns (events: seq<Event>)
    requires Inv(s) && n <= |s.reqs| && NoneLost(s)
    ensures var s' := Run(s, events);
            && Inv(s') && |s'.reqs| == |s.reqs| && NoneLost(s')
            && forall r :: 0 <= r < n ==> s'.reqs[r].phase.Done?
  {
    hide Inv, Run;
    if n == 0 {
      events := [];
      RunOfNone(s);
    } else {
      var before := FinishesAll(s, n - 1);
      var t := Run(s, before);
      var way := WayOut(n - 1, t.reqs[n - 1].phase);
      FinishesOne(t, n - 1);
      RunOfSum(s, before, way);
      events := before + way;
    }
  }

  /** Some continuation brings the request count to zero. */
  ghost predicate CanDrain(s: Sys) {
    exists events :: Run(s, events).sched.requestNum == 0
  }

  /** The drain can still complete if and only if no request is lost. */
  lemma DrainsUnlessLost(s: Sys)
    requires Inv(s)
    ensures CanDrain(s) <==> NoneLost(s)
  {
    if NoneLost(s) {
      var events := FinishesAll(s, |s.reqs|);
      OpenMeansSomeone(Run(s, events).reqs);
      assert Run(s, events).sched.requestNum == 0;
    } else {
      var r :| 0 <= r < |s.reqs| && s.reqs[r].phase.Lost?;
      forall events
        ensures Run(s, events).sched.requestNum > 0
      {
        LostRequestsBlockTheDrain(s, events, r);
      }
    }
  }
}
