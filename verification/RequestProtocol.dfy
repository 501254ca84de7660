/**
 Concurrent completion requests and the node listener over the scheduler, as one state
 machine. Every scheduler call is atomic under its lock, so each event below is one such
 call (or a point where a request stops without one), and a run is any sequence of events.
 */
module RequestProtocol {
  import opened Options
  import opened SchedulerSpec

  // ------------------------------------------------------------------ state

  function PrefillScore(length: nat): real {
    length as real / 4.0 * 0.0345 + 120.0745
  }

  function DecodeScore(length: nat): real {
    length as real
  }

  /** A prefill weighs a fixed part and three hundredths and a half for every four bytes; a decode weighs its bytes. */
  lemma ScoresAreAffine(length: nat)
    ensures PrefillScore(0) == 120.0745 && PrefillScore(length + 4) == PrefillScore(length) + 0.0345
    ensures DecodeScore(0) == 0.0 && DecodeScore(length + 1) == DecodeScore(length) + 1.0
  {
  }

  /** One reservation, on the incarnation of a server that its ordinal identifies. */
  datatype Hold = Hold(key: string, ordinal: nat, load: real)

  /** What a request remembers of the servers assigned to it. */
  datatype Info = Info(pk: string, pl: real, dk: string, dl: real)

  datatype Phase =
    | Prefilling(pk: string, length: nat)               // assign_instances, waiting for the prefill reply
    | Streaming(info: Info, kvReleased: bool)           // generate_stream
    | KvReturned(info: Info)                            // reassign_instances, prefill KV given back
    | DecoderReturned(info: Info)                       // reassign_instances, decoder given back too
    | RePrefilling(info: Info, pk: string, length: nat) // second assign_instances, waiting for its prefill
    | Closing(info: Info, decoderHeld: bool)            // reassign failed; the finally block is still to run
    | Lost                                              // stopped where no finally block counts it down: never finishes
    | Done

  /** `kv`, `dec`: reservations made and not given back. `over`: a decoder load given back twice. */
  datatype Req = Req(phase: Phase, kv: Option<Hold>, dec: Option<Hold>, over: Option<Hold>)

  datatype Listener = Idle | Checking(todo: seq<(string, Waiting)>) | Dead

  datatype Sys = Sys(sched: State, reqs: seq<Req>, listener: Listener)

  predicate Unfinished(q: Req) {
    !q.phase.Done?
  }

  // ------------------------------------------------------------------ steps

  datatype Event =
    | Begin(length: nat)
    | PrefillFailed(r: nat)
    | PickDecoder(r: nat, clientsOk: bool)
    | FirstChunk(r: nat)
    | Recompute(r: nat)
    | ReturnDecoder(r: nat)
    | Reserve(r: nat, length: nat)
    | RePrefillFailed(r: nat)
    | RePickDecoder(r: nat, clientsOk: bool)
    | Cancel(r: nat)
    | Abandon(r: nat)
    | Finish(r: nat)
    | AddNodes(role: Role, addrs: seq<Address>)
    | RemoveNodes(role: Role, addrs: seq<Address>)
    | ListenerSnapshot(order: seq<string>)
    | ListenerCheck(reachable: bool, maxRetries: int)
    | ListenerFinalize

  ghost function HoldOn(pool: Pool, key: string, load: real): Hold
    requires key in pool.servers
  {
    Hold(key, pool.servers[key].ordinal, load)
  }

  ghost function SetReq(s: Sys, sched: State, r: nat, q: Req): Sys
    requires r < |s.reqs|
  {
    s.(sched := sched, reqs := s.reqs[r := q])
  }

  /** assign_instances gives up on its prefiller; the first assignment also ends the request. */
  ghost function AbortInitial(s: Sys, r: nat): Sys
    requires r < |s.reqs| && s.reqs[r].phase.Prefilling?
  {
    var q := s.reqs[r];
    SetReq(s, FinishRequest(s.sched, Some(q.phase.pk), PrefillScore(q.phase.length), None, 0.0, true),
           r, q.(phase := Done, kv := None))
  }

  ghost function AbortReassign(s: Sys, r: nat): Sys
    requires r < |s.reqs| && s.reqs[r].phase.RePrefilling?
  {
    var q := s.reqs[r];
    SetReq(s, ReleasePrefillKv(s.sched, Some(q.phase.pk), PrefillScore(q.phase.length)),
           r, q.(phase := Closing(q.phase.info, false), kv := None))
  }

  ghost function Step(s: Sys, e: Event): Sys {
    match e
    case Begin(length) => StepBegin(s, length)
    case AddNodes(role, addrs) => s.(sched := AddInstances(s.sched, role, addrs).0)
    case RemoveNodes(role, addrs) => s.(sched := RemoveInstances(s.sched, role, addrs).0)
    case ListenerSnapshot(order) =>
      if s.listener.Idle? && Lists(order, s.sched.waiting.Keys)
      then s.(listener := Checking(seq(|order|, i requires 0 <= i < |order| => (order[i], s.sched.waiting[order[i]]))))
      else s
    case ListenerCheck(reachable, maxRetries) => StepCheck(s, reachable, maxRetries)
    case ListenerFinalize =>
      if s.listener == Checking([]) then s.(sched := Finalize(s.sched), listener := Idle) else s
    case _ => if e.r < |s.reqs| then StepRequest(s, e, s.reqs[e.r]) else s
  }

  /** `order` is an iteration order of `keys`. */
  ghost predicate Lists(order: seq<string>, keys: set<string>) {
    && (forall i :: 0 <= i < |order| ==> order[i] in keys)
    && (forall k :: k in keys ==> k in order)
    && (forall i, j :: 0 <= i < j < |order| ==> order[i] != order[j])
  }

  ghost function StepBegin(s: Sys, length: nat): Sys {
    var (sched, picked) := BeginRequest(s.sched, PrefillScore(length));
    if picked.None? then s
    else
      var hold := HoldOn(sched.prefill, picked.value, PrefillScore(length));
      s.(sched := sched, reqs := s.reqs + [Req(Prefilling(picked.value, length), Some(hold), None, None)])
  }

  /** One waiting node of the listener's pass; a failed activation ends the listener thread. */
  ghost function StepCheck(s: Sys, reachable: bool, maxRetries: int): Sys {
    if !s.listener.Checking? || s.listener.todo == [] then s
    else
      var (key, w) := s.listener.todo[0];
      var rest := Checking(s.listener.todo[1..]);
      if reachable then
        var (sched, ok) := Activate(s.sched, w.role, Address(key, w.host, w.port));
        s.(sched := sched, listener := if ok then rest else Dead)
      else if w.retries + 1 >= maxRetries then s.(sched := DropWaiting(s.sched, key), listener := rest)
      else s.(sched := MarkRetry(s.sched, key, w.retries + 1), listener := rest)
  }

  ghost function StepRequest(s: Sys, e: Event, q: Req): Sys
    requires !e.Begin? && !e.AddNodes? && !e.RemoveNodes?
    requires !e.ListenerSnapshot? && !e.ListenerCheck? && !e.ListenerFinalize?
    requires e.r < |s.reqs| && q == s.reqs[e.r]
  {
    match (e, q.phase)
    case (PrefillFailed(r), Prefilling(_, _)) => AbortInitial(s, r)
    case (PickDecoder(r, clientsOk), Prefilling(pk, length)) =>
      var (sched, picked) := SchedulerSpec.PickDecoder(s.sched, DecodeScore(length));
      if picked.None? then AbortInitial(s, r)
      else
        var info := Info(pk, PrefillScore(length), picked.value, DecodeScore(length));
        var dec := Some(HoldOn(sched.decode, picked.value, DecodeScore(length)));
        SetReq(s, sched, r, q.(phase := if clientsOk then Streaming(info, false) else Lost, dec := dec))
    case (FirstChunk(r), Streaming(info, false)) =>
      SetReq(s, ReleasePrefillKv(s.sched, Some(info.pk), info.pl), r, q.(phase := Streaming(info, true), kv := None))
    case (Recompute(r), Streaming(info, true)) =>
      SetReq(s, ReleasePrefillKv(s.sched, Some(info.pk), info.pl), r, q.(phase := KvReturned(info)))
    case (ReturnDecoder(r), KvReturned(info)) =>
      SetReq(s, ReleaseDecoder(s.sched, Some(info.dk), info.dl), r, q.(phase := DecoderReturned(info), dec := None))
    case (Reserve(r, length), DecoderReturned(info)) =>
      var (sched, picked) := ReservePrefillKv(s.sched, PrefillScore(length));
      if picked.None? then SetReq(s, s.sched, r, q.(phase := Closing(info, false)))
      else
        var kv := Some(HoldOn(sched.prefill, picked.value, PrefillScore(length)));
        SetReq(s, sched, r, q.(phase := RePrefilling(info, picked.value, length), kv := kv))
    case (RePrefillFailed(r), RePrefilling(_, _, _)) => AbortReassign(s, r)
    case (RePickDecoder(r, clientsOk), RePrefilling(prior, pk, length)) =>
      var (sched, picked) := SchedulerSpec.PickDecoder(s.sched, DecodeScore(length));
      if picked.None? then AbortReassign(s, r)
      else
        var info := Info(pk, PrefillScore(length), picked.value, DecodeScore(length));
        var dec := Some(HoldOn(sched.decode, picked.value, DecodeScore(length)));
        SetReq(s, sched, r, q.(phase := if clientsOk then Streaming(info, false) else Closing(prior, false), dec := dec))
    case (Cancel(r), Prefilling(_, _)) => SetReq(s, s.sched, r, q.(phase := Lost))
    case (Cancel(r), KvReturned(info)) => SetReq(s, s.sched, r, q.(phase := Closing(info, true)))
    case (Cancel(r), DecoderReturned(info)) => SetReq(s, s.sched, r, q.(phase := Closing(info, false)))
    case (Cancel(r), RePrefilling(info, _, _)) => SetReq(s, s.sched, r, q.(phase := Closing(info, false)))
    case (Abandon(r), Streaming(_, _)) => SetReq(s, s.sched, r, q.(phase := Lost))
    case (Abandon(r), Closing(_, _)) => SetReq(s, s.sched, r, q.(phase := Lost))
    case (Finish(r), Streaming(info, released)) =>
      SetReq(s, FinishRequest(s.sched, Some(info.pk), info.pl, Some(info.dk), info.dl, !released),
             r, q.(phase := Done, kv := None, dec := None))
    case (Finish(r), Closing(info, held)) =>
      var sched := FinishRequest(s.sched, Some(info.pk), info.pl, Some(info.dk), info.dl, false);
      if held then SetReq(s, sched, r, q.(phase := Done, dec := None))
      else
        var over := if info.dk in s.sched.decode.servers then Some(HoldOn(s.sched.decode, info.dk, info.dl)) else None;
        SetReq(s, sched, r, q.(phase := Done, over := over))
    case _ => s
  }

  ghost function Run(s: Sys, events: seq<Event>): Sys {
    if events == [] then s else Step(Run(s, events[..|events| - 1]), events[|events| - 1])
  }

  ghost function Start(prefillers: seq<Address>, decoders: seq<Address>): Sys {
    Sys(Init(prefillers, decoders), [], Idle)
  }

  // ---------------------------------------------------------------- ledgers

  /** A column of the ledger: reservations of one kind on one incarnation of one server. */
  datatype Account = KvAt(key: string, ordinal: nat) | DecAt(key: string, ordinal: nat) | OverAt(key: string, ordinal: nat)

  function Weight(q: Req, a: Account): real {
    var hold := match a
                case KvAt(_, _) => q.kv
                case DecAt(_, _) => q.dec
                case OverAt(_, _) => q.over;
    if hold.Some? && hold.value.key == a.key && hold.value.ordinal == a.ordinal then hold.value.load else 0.0
  }

  function Total(reqs: seq<Req>, a: Account): real {
    if reqs == [] then 0.0 else Weight(reqs[0], a) + Total(reqs[1..], a)
  }

  function Open(reqs: seq<Req>): nat {
    if reqs == [] then 0 else (if Unfinished(reqs[0]) then 1 else 0) + Open(reqs[1..])
  }

  lemma {:induction false} UpdateTotals(reqs: seq<Req>, r: nat, q: Req, a: Account)
    requires r < |reqs|
    ensures Total(reqs[r := q], a) == Total(reqs, a) - Weight(reqs[r], a) + Weight(q, a)
    ensures Open(reqs[r := q]) == Open(reqs) - (if Unfinished(reqs[r]) then 1 else 0) + (if Unfinished(q) then 1 else 0)
  {
    if r == 0 {
      assert reqs[r := q][1..] == reqs[1..];
    } else {
      assert reqs[r := q][1..] == reqs[1..][r - 1 := q];
      UpdateTotals(reqs[1..], r - 1, q, a);
    }
  }

  lemma {:induction false} AppendTotals(reqs: seq<Req>, q: Req, a: Account)
    ensures Total(reqs + [q], a) == Total(reqs, a) + Weight(q, a)
    ensures Open(reqs + [q]) == Open(reqs) + (if Unfinished(q) then 1 else 0)
  {
    if reqs == [] {
      assert reqs + [q] == [q];
    } else {
      assert (reqs + [q])[1..] == reqs[1..] + [q];
      AppendTotals(reqs[1..], q, a);
    }
  }

  lemma OpenMeansSomeone(reqs: seq<Req>)
    ensures Open(reqs) == 0 <==> forall r :: 0 <= r < |reqs| ==> !Unfinished(reqs[r])
  {
    if reqs != [] {
      OpenMeansSomeone(reqs[1..]);
      assert forall r :: 0 <= r < |reqs[1..]| ==> reqs[1..][r] == reqs[r + 1];
      assert forall r :: 1 <= r < |reqs| ==> reqs[r] == reqs[1..][r - 1];
    }
  }
}
