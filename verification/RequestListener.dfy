/**
 The node listener: how often an unreachable node is checked before it leaves the waiting list, whatever
 requests, administration and other nodes do in between.
 */
module RequestListener {
  import opened SchedulerSpec
  import opened RequestProtocol
  import opened RequestSafety
  import opened RequestDrain

  /** A pass of the listener checks every waiting node once, as it waits now. */
  lemma PassChecksAllWaiting(s: Sys, order: seq<string>)
    requires s.listener.Idle? && Lists(order, s.sched.waiting.Keys)
    ensures var t := Step(s, ListenerSnapshot(order));
            && t.sched == s.sched && t.reqs == s.reqs && t.listener.Checking? && |t.listener.todo| == |order|
            && (forall i :: 0 <= i < |order| ==>
                  t.listener.todo[i].0 in s.sched.waiting && t.listener.todo[i].1 == s.sched.waiting[t.listener.todo[i].0])
            && (forall i, j :: 0 <= i < j < |order| ==> t.listener.todo[i].0 != t.listener.todo[j].0)
            && forall k :: k in s.sched.waiting ==> exists i :: 0 <= i < |order| && t.listener.todo[i].0 == k
  {
    var t := Step(s, ListenerSnapshot(order));
    forall k | k in s.sched.waiting
      ensures exists i :: 0 <= i < |order| && t.listener.todo[i].0 == k
    {
      assert k in s.sched.waiting.Keys;
      var i :| 0 <= i < |order| && order[i] == k;
      assert t.listener.todo[i].0 == k;
    }
  }

  /** A failed check adds one retry to the node it names, or takes it off the list at the limit; nothing else changes. */
  lemma FailedCheckCounts(s: Sys, maxRetries: int)
    requires s.listener.Checking? && s.listener.todo != []
    ensures var (key, w) := s.listener.todo[0];
            var t := Step(s, ListenerCheck(false, maxRetries));
            && t.listener == Checking(s.listener.todo[1..]) && t.reqs == s.reqs
            && t.sched == s.sched.(waiting := t.sched.waiting)
            && (forall k :: k != key ==> (k in t.sched.waiting <==> k in s.sched.waiting))
            && (forall k :: k != key && k in t.sched.waiting ==> t.sched.waiting[k] == s.sched.waiting[k])
            && (key in t.sched.waiting <==> key in s.sched.waiting && w.retries + 1 < maxRetries)
            && (key in t.sched.waiting ==> t.sched.waiting[key] == s.sched.waiting[key].(retries := w.retries + 1))
  {
  }

  // --------------------------------------------------------------------- runs

  ghost predicate Checks(s: Sys, e: Event, key: string) {
    e.ListenerCheck? && s.listener.Checking? && s.listener.todo != [] && s.listener.todo[0].0 == key
  }

  /** Failed checks of `key` on the way. */
  ghost function FailedChecks(s: Sys, events: seq<Event>, key: string): nat {
    if events == [] then 0
    else
      var before, e := events[..|events| - 1], events[|events| - 1];
      FailedChecks(s, before, key) + if Checks(Run(s, before), e, key) && !e.reachable then 1 else 0
  }

  /** Nobody queues or removes `key`, it never answers, and the retry limit is `maxRetries`. */
  ghost predicate LeavesAlone(s: Sys, e: Event, key: string, maxRetries: int) {
    && (e.AddNodes? || e.RemoveNodes? ==> key !in Keys(e.addrs))
    && (e.ListenerCheck? ==> e.maxRetries == maxRetries)
    && (Checks(s, e, key) ==> !e.reachable)
  }

  ghost predicate NeverAnswers(s: Sys, events: seq<Event>, key: string, maxRetries: int) {
    events != [] ==>
      && NeverAnswers(s, events[..|events| - 1], key, maxRetries)
      && LeavesAlone(Run(s, events[..|events| - 1]), events[|events| - 1], key, maxRetries)
  }

  /** `key` waits with `failed` retries below the limit and is gone at it; a running pass knows it as it waits. */
  ghost predicate Tracked(s: Sys, key: string, failed: nat, maxRetries: int) {
    && (if failed == 0 || failed < maxRetries then key in s.sched.waiting && s.sched.waiting[key].retries == failed
        else key !in s.sched.waiting && (failed == maxRetries || (failed == 1 && maxRetries <= 1)))
    && (s.listener.Checking? ==>
          && (forall i :: 0 <= i < |s.listener.todo| && s.listener.todo[i].0 == key ==>
                key in s.sched.waiting && s.listener.todo[i].1 == s.sched.waiting[key])
          && (forall i, j :: 0 <= i < j < |s.listener.todo| ==> s.listener.todo[i].0 != s.listener.todo[j].0))
  }

  lemma {:induction false} AddInstancesLeavesOthers(s: State, role: Role, addrs: seq<Address>, key: string)
    requires key !in Keys(addrs)
    ensures var t := AddInstances(s, role, addrs).0;
            (key in t.waiting <==> key in s.waiting) && (key in s.waiting ==> t.waiting[key] == s.waiting[key])
  {
    if addrs != [] {
      assert addrs[|addrs| - 1].key in Keys(addrs) && Keys(addrs[..|addrs| - 1]) <= Keys(addrs);
      AddInstancesLeavesOthers(s, role, addrs[..|addrs| - 1], key);
    }
  }

  lemma AdministrationKeepsTrack(s: Sys, e: Event, key: string, failed: nat, maxRetries: int)
    requires Tracked(s, key, failed, maxRetries) && LeavesAlone(s, e, key, maxRetries)
    requires e.AddNodes? || e.RemoveNodes? || e.ListenerFinalize? || e.ListenerSnapshot?
    ensures Tracked(Step(s, e), key, failed, maxRetries)
  {
    hide AddInstances, Keys, DropPool;
    if e.AddNodes? {
      AddInstancesQueues(s.sched, e.role, e.addrs);
      AddInstancesLeavesOthers(s.sched, e.role, e.addrs, key);
    }
  }

  lemma CheckKeepsTrack(s: Sys, e: Event, key: string, failed: nat, maxRetries: int)
    requires Tracked(s, key, failed, maxRetries) && LeavesAlone(s, e, key, maxRetries) && e.ListenerCheck?
    ensures Tracked(Step(s, e), key, failed + if Checks(s, e, key) then 1 else 0, maxRetries)
  {
    if s.listener.Checking? && s.listener.todo != [] {
      if e.reachable {
        var (other, w) := s.listener.todo[0];
        ActivationLeavesOthers(s.sched, w.role, Address(other, w.host, w.port), key);
      } else {
        FailedCheckCounts(s, maxRetries);
      }
    }
  }

  lemma ActivationLeavesOthers(s: State, role: Role, a: Address, key: string)
    requires key != a.key
    ensures var t := Activate(s, role, a).0;
            (key in t.waiting <==> key in s.waiting) && (key in s.waiting ==> t.waiting[key] == s.waiting[key])
  {
  }

  lemma RequestsKeepTrack(s: Sys, e: Event, key: string, failed: nat, maxRetries: int)
    requires Tracked(s, key, failed, maxRetries)
    requires !e.AddNodes? && !e.RemoveNodes? && !e.ListenerSnapshot? && !e.ListenerCheck? && !e.ListenerFinalize?
    ensures Tracked(Step(s, e), key, failed, maxRetries)
  {
    hide Best, HoldOn, PrefillScore;
    if !e.Begin? && e.r < |s.reqs| {
      RequestsMoveLoads(s, e);
      RequestsLeaveTheListener(s, e);
    }
  }

  lemma RequestsLeaveTheListener(s: Sys, e: Event)
    requires !e.Begin? && !e.AddNodes? && !e.RemoveNodes?
    requires !e.ListenerSnapshot? && !e.ListenerCheck? && !e.ListenerFinalize?
    requires e.r < |s.reqs|
    ensures Step(s, e).listener == s.listener
  {
    hide Best, HoldOn, ReleasePrefillKv, ReleaseDecoder, ReservePrefillKv, SchedulerSpec.PickDecoder, FinishRequest,
      PrefillScore, DecodeScore;
  }

  /**
   In every run in which a waiting node never answers and nobody queues or removes it, its retry count is the
   number of its failed checks, and it leaves the waiting list exactly at the check that reaches the limit.
   */
  lemma {:induction false} UnreachableNodeLeavesAtTheLimit(s: Sys, events: seq<Event>, key: string, maxRetries: int)
    requires s.listener.Idle? && key in s.sched.waiting && s.sched.waiting[key].retries == 0
    requires NeverAnswers(s, events, key, maxRetries)
    ensures var t, failed := Run(s, events), FailedChecks(s, events, key);
            && Tracked(t, key, failed, maxRetries)
            && (key in t.sched.waiting <==> failed == 0 || failed < maxRetries)
            && (key in t.sched.waiting ==> t.sched.waiting[key].retries == failed)
            && (failed <= maxRetries || failed <= 1)
    decreases |events|
  {
    hide Step, Tracked, LeavesAlone;
    if events == [] {
      assert Tracked(s, key, 0, maxRetries) by {
        StartsTracked(s, key, maxRetries);
      }
    } else {
      var before, e := events[..|events| - 1], events[|events| - 1];
      UnreachableNodeLeavesAtTheLimit(s, before, key, maxRetries);
      StepKeepsTrack(Run(s, before), e, key, FailedChecks(s, before, key), maxRetries);
    }
    TrackedMeans(Run(s, events), key, FailedChecks(s, events, key), maxRetries);
  }

  lemma StartsTracked(s: Sys, key: string, maxRetries: int)
    requires s.listener.Idle? && key in s.sched.waiting && s.sched.waiting[key].retries == 0
    ensures Tracked(s, key, 0, maxRetries)
  {
  }

  lemma TrackedMeans(s: Sys, key: string, failed: nat, maxRetries: int)
    requires Tracked(s, key, failed, maxRetries)
    ensures key in s.sched.waiting <==> failed == 0 || failed < maxRetries
    ensures key in s.sched.waiting ==> s.sched.waiting[key].retries == failed
    ensures failed <= maxRetries || failed <= 1
  {
  }

  lemma StepKeepsTrack(s: Sys, e: Event, key: string, failed: nat, maxRetries: int)
    requires Tracked(s, key, failed, maxRetries) && LeavesAlone(s, e, key, maxRetries)
    ensures Tracked(Step(s, e), key, failed + (if Checks(s, e, key) && !e.reachable then 1 else 0), maxRetries)
  {
    if e.ListenerCheck? {
      CheckKeepsTrack(s, e, key, failed, maxRetries);
    } else if e.AddNodes? || e.RemoveNodes? || e.ListenerFinalize? || e.ListenerSnapshot? {
      AdministrationKeepsTrack(s, e, key, failed, maxRetries);
    } else {
      RequestsKeepTrack(s, e, key, failed, maxRetries);
    }
    hide Tracked, Step;
  }
}
