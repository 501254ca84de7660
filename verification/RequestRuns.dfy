/**
 The main results about whole runs of the request protocol.
 */
module RequestRuns {
  import opened Options
  import opened SchedulerSpec
  import opened RequestProtocol
  import opened RequestSafety

  /** A fresh scheduler: every server idle, nothing tainted or waiting, nothing counted. */
  ghost predicate Pristine(s: State, n: nat) {
    && s.requestNum == 0 && s.waiting == map[] && s.nextOrdinal == n
    && OrdinalsBelow(s.prefill, n) && OrdinalsBelow(s.decode, n)
    && Unloaded(s.prefill) && Unloaded(s.decode)
  }

  ghost predicate Unloaded(p: Pool) {
    forall k :: k in p.servers ==> p.servers[k].activeTokens == 0.0 && p.servers[k].activeKv == 0.0
  }

  lemma {:induction false} AddServersIdle(s: State, role: Role, addrs: seq<Address>)
    requires Pristine(s, s.nextOrdinal)
    ensures Pristine(AddServers(s, role, addrs), AddServers(s, role, addrs).nextOrdinal)
  {
    if addrs != [] {
      AddServersIdle(s, role, addrs[..|addrs| - 1]);
    }
  }

  lemma StartOk(prefillers: seq<Address>, decoders: seq<Address>)
    ensures var s := Start(prefillers, decoders); Inv(s) && KvExact(s.sched.prefill, s.reqs)
  {
    AddServersIdle(EMPTY, Prefill, prefillers);
    AddServersIdle(AddServers(EMPTY, Prefill, prefillers), Decode, decoders);
    assert forall a: Account :: Total([], a) == 0.0;
  }

  /** Whatever requests, listener and administrators do, and in whatever order. */
  lemma {:induction false} EveryRunIsSafe(prefillers: seq<Address>, decoders: seq<Address>, events: seq<Event>)
    ensures Inv(Run(Start(prefillers, decoders), events))
    decreases |events|
  {
    if events == [] {
      StartOk(prefillers, decoders);
    } else {
      EveryRunIsSafe(prefillers, decoders, events[..|events| - 1]);
      StepKeeps(Run(Start(prefillers, decoders), events[..|events| - 1]), events[|events| - 1]);
    }
  }

  // ------------------------------------------------ runs without recompute

  ghost predicate Calm(q: Req) {
    && q.over.None? && (q.phase.Prefilling? || q.phase.Streaming? || q.phase.Lost? || q.phase.Done?)
    && (q.phase.Done? ==> q.kv.None? && q.dec.None?)
  }

  lemma CalmStep(s: Sys, e: Event)
    requires Inv(s) && forall r :: 0 <= r < |s.reqs| ==> Calm(s.reqs[r])
    requires !e.Recompute?
    ensures forall r :: 0 <= r < |Step(s, e).reqs| ==> Calm(Step(s, e).reqs[r])
  {
    hide Best, BeginRequest, Activate, ReleasePrefillKv, ReleaseDecoder, ReservePrefillKv, FinishRequest,
      SchedulerSpec.PickDecoder, HoldOn, KvBounded, DecExact, OrdinalsBelow, ListenerOk;
  }

  lemma {:induction false} NothingOver(reqs: seq<Req>, k: string, n: nat)
    requires forall r :: 0 <= r < |reqs| ==> Calm(reqs[r])
    ensures Total(reqs, OverAt(k, n)) == 0.0
  {
    UnusedAccountIsZero(reqs, OverAt(k, n));
  }

  /**
   Without a recompute the books balance in every interleaving: each prefiller's KV pressure and
   each decoder's token pressure is exactly what is reserved there and not yet given back.
   */
  lemma {:induction false} BooksBalance(prefillers: seq<Address>, decoders: seq<Address>, events: seq<Event>)
    requires forall e :: e in events ==> !e.Recompute?
    ensures var s := Run(Start(prefillers, decoders), events);
            && KvExact(s.sched.prefill, s.reqs)
            && DecBalanced(s.sched.decode, s.reqs)
            && forall r :: 0 <= r < |s.reqs| ==> Calm(s.reqs[r])
    decreases |events|
  {
    var s := Run(Start(prefillers, decoders), events);
    EveryRunIsSafe(prefillers, decoders, events);
    if events == [] {
      StartOk(prefillers, decoders);
    } else {
      var before, e := events[..|events| - 1], events[|events| - 1];
      BooksBalance(prefillers, decoders, before);
      EveryRunIsSafe(prefillers, decoders, before);
      StepKeeps(Run(Start(prefillers, decoders), before), e);
      CalmStep(Run(Start(prefillers, decoders), before), e);
    }
    forall k | k in s.sched.decode.servers
      ensures s.sched.decode.servers[k].activeTokens == Total(s.reqs, DecAt(k, s.sched.decode.servers[k].ordinal))
    {
      NothingOver(s.reqs, k, s.sched.decode.servers[k].ordinal);
    }
  }

  ghost predicate DecBalanced(pool: Pool, reqs: seq<Req>) {
    forall k :: k in pool.servers ==> pool.servers[k].activeTokens == Total(reqs, DecAt(k, pool.servers[k].ordinal))
  }

  /** Without a recompute, a drained scheduler carries no load at all. */
  lemma DrainedMeansIdle(prefillers: seq<Address>, decoders: seq<Address>, events: seq<Event>)
    requires forall e :: e in events ==> !e.Recompute?
    requires Run(Start(prefillers, decoders), events).sched.requestNum == 0
    ensures var s := Run(Start(prefillers, decoders), events);
            && (forall r :: 0 <= r < |s.reqs| ==> s.reqs[r].phase.Done? && s.reqs[r].kv.None? && s.reqs[r].dec.None?)
            && (forall k :: k in s.sched.prefill.servers ==> s.sched.prefill.servers[k].activeKv == 0.0)
            && (forall k :: k in s.sched.decode.servers ==> s.sched.decode.servers[k].activeTokens == 0.0)
  {
    hide Run, Start;
    var s := Run(Start(prefillers, decoders), events);
    EveryRunIsSafe(prefillers, decoders, events);
    BooksBalance(prefillers, decoders, events);
    OpenMeansSomeone(s.reqs);
    forall a: Account | !a.OverAt?
      ensures Total(s.reqs, a) == 0.0
    {
      UnusedAccountIsZero(s.reqs, a);
    }
  }

  /** The KV that request `q` would give back next: to which prefiller, and how much. */
  function NextRelease(q: Req): Option<(string, real)> {
    match q.phase
    case Prefilling(pk, length) => Some((pk, PrefillScore(length)))
    case Streaming(info, false) => Some((info.pk, info.pl))
    case RePrefilling(_, pk, length) => Some((pk, PrefillScore(length)))
    case _ => None
  }

  /** The events at which request `r` gives that KV back: an abort, the first chunk, or the finish. */
  ghost predicate GivesKvBack(s: Sys, e: Event, r: nat)
    requires r < |s.reqs|
  {
    match (e, s.reqs[r].phase)
    case (PrefillFailed(k), Prefilling(_, _)) => k == r
    case (PickDecoder(k, _), Prefilling(_, _)) => k == r && s.sched.decode.servers == map[]
    case (FirstChunk(k), Streaming(_, false)) => k == r
    case (Finish(k), Streaming(_, false)) => k == r
    case (RePrefillFailed(k), RePrefilling(_, _, _)) => k == r
    case (RePickDecoder(k, _), RePrefilling(_, _, _)) => k == r && s.sched.decode.servers == map[]
    case _ => false
  }

  /**
   While the books are exact, the clamp at zero never bites: whichever event gives a request's KV
   back, the prefiller carries at least that pressure and loses exactly that much.
   */
  lemma ClampNeverBites(s: Sys, r: nat)
    requires Inv(s) && KvExact(s.sched.prefill, s.reqs) && r < |s.reqs| && NextRelease(s.reqs[r]).Some?
    ensures var (key, load) := NextRelease(s.reqs[r]).value;
            && key in s.sched.prefill.servers && s.sched.prefill.servers[key].activeKv >= load
            && forall e :: GivesKvBack(s, e, r) ==> KvFalls(s.sched.prefill, Step(s, e).sched.prefill, key, load)
  {
    hide KvBounded, KvExact, DecExact, Total, Best, PrefillScore, DecodeScore;
    var (key, load) := NextRelease(s.reqs[r]).value;
    var q := s.reqs[r].(kv := None);
    Facts(s, r);
    assert KvIs(s.sched, s.reqs[r], key, load) && load >= 0.0;
    Columns(s, r, q);
    DroppedKvNonNegative(s, r, q, KvAt(key, s.sched.prefill.servers[key].ordinal));
    KvRelease(s.sched.prefill, key, load, s.reqs, s.reqs[r := q], s.reqs[r], q);
    forall e | GivesKvBack(s, e, r)
      ensures KvFalls(s.sched.prefill, Step(s, e).sched.prefill, key, load)
    {
      GivingKvBack(s, e, r);
    }
  }

  ghost predicate KvFalls(p: Pool, p': Pool, key: string, load: real)
    requires key in p.servers
  {
    key in p'.servers && p'.servers[key].activeKv == p.servers[key].activeKv - load
  }

  /** Every such event releases that KV on that prefiller, and nothing else there. */
  lemma GivingKvBack(s: Sys, e: Event, r: nat)
    requires Inv(s) && r < |s.reqs| && GivesKvBack(s, e, r)
    ensures NextRelease(s.reqs[r]).Some?
    ensures var (key, load) := NextRelease(s.reqs[r]).value;
            Step(s, e).sched.prefill == ReleasePool(s.sched.prefill, Some(key), load, false, true)
  {
    hide Inv, PrefillScore, DecodeScore, Discharge;
  }

  // -------------------------------------------------- what recomputing does

  /**
   A recompute releases prefill KV that the first chunk already released. Exact accounting
   survives it if and only if the prefiller carries no pressure at that moment.
   */
  lemma RecomputeReleasesTwice(s: Sys, r: nat)
    requires Inv(s) && KvExact(s.sched.prefill, s.reqs) && r < |s.reqs|
    requires s.reqs[r].phase.Streaming? && s.reqs[r].phase.kvReleased
    ensures var s' := Step(s, Recompute(r));
            KvExact(s'.sched.prefill, s'.reqs)
            <==> s.sched.prefill.servers[s.reqs[r].phase.info.pk].activeKv == 0.0
  {
    var s' := Step(s, Recompute(r));
    var q, info := s'.reqs[r], s.reqs[r].phase.info;
    assert ReqOk(s.sched, s.reqs[r]);
    Columns(s, r, q);
    KvUntouched(s.sched.prefill, s.reqs, s'.reqs, s.reqs[r], q);
    var k := info.pk;
    assert s'.sched.prefill.servers[k] == Discharge(s.sched.prefill.servers[k], info.pl, false, true);
    assert s.sched.prefill.servers[k].activeKv == Total(s'.reqs, KvAt(k, s.sched.prefill.servers[k].ordinal));
  }

  /** The finally block after a failed reassignment, when the decoder was already given back. */
  ghost predicate OverReleases(s: Sys, e: Event) {
    && e.Finish? && e.r < |s.reqs| && s.reqs[e.r].phase.Closing?
    && !s.reqs[e.r].phase.decoderHeld && s.reqs[e.r].phase.info.dl > 0.0
  }

  /** A positive over-release booked on a server that is still live. */
  ghost predicate OverLive(s: State, q: Req) {
    q.over.Some? && q.over.value.load > 0.0 && OnLive(s.decode, q.over.value)
  }

  lemma {:induction false} ZeroTotalMeansZeroWeights(reqs: seq<Req>, a: Account)
    requires forall r :: 0 <= r < |reqs| ==> Weight(reqs[r], a) >= 0.0
    ensures Total(reqs, a) >= 0.0
    ensures Total(reqs, a) == 0.0 <==> forall r :: 0 <= r < |reqs| ==> Weight(reqs[r], a) == 0.0
  {
    if reqs != [] {
      var rest := reqs[1..];
      assert forall r :: 0 <= r < |rest| ==> rest[r] == reqs[r + 1];
      assert forall r :: 1 <= r < |reqs| ==> reqs[r] == rest[r - 1];
      ZeroTotalMeansZeroWeights(rest, a);
    }
  }

  lemma BalancedMeansNothingOver(s: Sys)
    requires Inv(s)
    ensures DecBalanced(s.sched.decode, s.reqs) <==> forall r :: 0 <= r < |s.reqs| ==> !OverLive(s.sched, s.reqs[r])
  {
    var servers := s.sched.decode.servers;
    forall k | k in servers
      ensures (servers[k].activeTokens == Total(s.reqs, DecAt(k, servers[k].ordinal)))
              <==> forall r :: 0 <= r < |s.reqs| ==> Weight(s.reqs[r], OverAt(k, servers[k].ordinal)) == 0.0
    {
      var a := OverAt(k, servers[k].ordinal);
      forall r | 0 <= r < |s.reqs|
        ensures Weight(s.reqs[r], a) >= 0.0
      {
        assert ReqOk(s.sched, s.reqs[r]);
      }
      ZeroTotalMeansZeroWeights(s.reqs, a);
    }
    forall r | 0 <= r < |s.reqs|
      ensures OverLive(s.sched, s.reqs[r]) <==>
              exists k :: k in servers && Weight(s.reqs[r], OverAt(k, servers[k].ordinal)) != 0.0
    {
      assert ReqOk(s.sched, s.reqs[r]);
      if OverLive(s.sched, s.reqs[r]) {
        var k := s.reqs[r].over.value.key;
        assert Weight(s.reqs[r], OverAt(k, servers[k].ordinal)) != 0.0;
      }
    }
  }

  /** Administration leaves every live decoder its ordinal or gives a newcomer a fresh one. */
  lemma OverStaysDead(s: Sys, e: Event, q: Req)
    requires Inv(s) && HoldOk(q.over, s.sched.nextOrdinal) && !OverLive(s.sched, q)
    ensures !OverLive(Step(s, e).sched, q)
  {
    hide Inv, Best, KvBounded, KvExact, DecExact, AddInstances, Keys;
    if e.AddNodes? {
      AddInstancesQueues(s.sched, e.role, e.addrs);
    }
  }

  lemma OverOnlyByFinish(s: Sys, e: Event, r: nat)
    requires r < |Step(s, e).reqs|
    ensures r < |s.reqs| && !(e.Finish? && e.r == r && s.reqs[r].phase.Closing? && !s.reqs[r].phase.decoderHeld) ==>
              Step(s, e).reqs[r].over == s.reqs[r].over
    ensures r >= |s.reqs| ==> Step(s, e).reqs[r].over == None
  {
    hide Best, Activate, BeginRequest;
  }

  /**
   Balanced decoder books stay balanced across a step if and only if the step is not the finish of a
   request whose reassignment failed after giving its (non-empty) decoder load back.
   */
  lemma DecoderBooksBreakExactlyOnOverRelease(s: Sys, e: Event)
    requires Inv(s) && DecBalanced(s.sched.decode, s.reqs)
    ensures DecBalanced(Step(s, e).sched.decode, Step(s, e).reqs) <==> !OverReleases(s, e)
  {
    hide Step, Inv, DecBalanced;
    var s' := Step(s, e);
    StepKeeps(s, e);
    BalancedMeansNothingOver(s);
    BalancedMeansNothingOver(s');
    if OverReleases(s, e) {
      OverReleaseIsLive(s, e);
    } else {
      forall r | 0 <= r < |s'.reqs|
        ensures !OverLive(s'.sched, s'.reqs[r])
      {
        OverOnlyByFinish(s, e, r);
        if r < |s.reqs| {
          Facts(s, r);
          if e.Finish? && e.r == r && s.reqs[r].phase.Closing? && !s.reqs[r].phase.decoderHeld {
            EmptyOverRelease(s, r);
          } else {
            OverStaysDead(s, e, s.reqs[r]);
          }
        }
      }
    }
  }

  lemma OverReleaseIsLive(s: Sys, e: Event)
    requires Inv(s) && OverReleases(s, e)
    ensures e.r < |Step(s, e).reqs| && OverLive(Step(s, e).sched, Step(s, e).reqs[e.r])
  {
    Facts(s, e.r);
  }

  lemma EmptyOverRelease(s: Sys, r: nat)
    requires Inv(s) && r < |s.reqs| && s.reqs[r].phase.Closing?
    requires !s.reqs[r].phase.decoderHeld && !OverReleases(s, Finish(r))
    ensures !OverLive(Step(s, Finish(r)).sched, Step(s, Finish(r)).reqs[r])
  {
    Facts(s, r);
  }

  // --------------------------------------------------------------- listener

  /**
   The listener never lifts a taint: activating a reachable node either adds a server, or, when the
   node's key is tainted in its role, fails with a missing key and ends the listener thread.
   */
  lemma ListenerNeverUntaints(s: Sys, maxRetries: int)
    requires Inv(s) && s.listener.Checking? && s.listener.todo != []
    ensures var (key, w) := s.listener.todo[0];
            var s' := Step(s, ListenerCheck(true, maxRetries));
            && (s'.listener.Dead? <==> key in s.sched.RolePool(w.role).tainted)
            && key !in s.sched.RolePool(w.role).servers
            && (!s'.listener.Dead? ==>
                  s'.sched.RolePool(w.role).servers ==
                  s.sched.RolePool(w.role).servers[key := Load(w.host, w.port, s.sched.nextOrdinal, 0.0, 0.0)])
            && (s'.listener.Dead? ==> s'.sched.RolePool(w.role).servers == s.sched.RolePool(w.role).servers)
  {
    hide KvBounded, KvExact, DecExact, ReqOk, OrdinalsBelow;
  }

  /** A dead listener never finalizes: taints of a role only go by a later removal with no open request. */
  lemma {:induction false} DeadListenerStaysDead(s: Sys, events: seq<Event>)
    requires s.listener.Dead?
    ensures Run(s, events).listener.Dead?
    ensures (forall e :: e in events ==> !e.RemoveNodes?) ==>
              forall role: Role :: Run(s, events).sched.RolePool(role).tainted == s.sched.RolePool(role).tainted
    decreases |events|
  {
    if events != [] {
      var before, e := events[..|events| - 1], events[|events| - 1];
      DeadListenerStaysDead(s, before);
      DeadStep(Run(s, before), e);
    }
  }

  lemma DeadStep(s: Sys, e: Event)
    requires s.listener.Dead?
    ensures Step(s, e).listener.Dead?
    ensures !e.RemoveNodes? ==> forall role: Role :: Step(s, e).sched.RolePool(role).tainted == s.sched.RolePool(role).tainted
  {
    hide Best, AddInstances;
    if e.AddNodes? {
      AddInstancesQueues(s.sched, e.role, e.addrs);
    }
  }
}
