/**
 Concrete runs from a fresh scheduler that reach the situations in which its promises fail: one
 prefiller, one decoder, and at most two requests.
 */
module RequestWitnesses {
  import opened Options
  import opened SchedulerSpec
  import opened RequestProtocol
  import opened RequestSafety
  import opened RequestRuns
  import opened RequestDrain

  /** One prefiller, one decoder, and the requests `reqs`. */
  ghost function Duo(p: Address, d: Address, kv: real, tokens: real, open: nat, reqs: seq<Req>): Sys {
    Sys(State(Pool(map[p.key := Load(p.host, p.port, 0, 0.0, kv)], {}),
              Pool(map[d.key := Load(d.host, d.port, 1, tokens, 0.0)], {}), open, map[], 2), reqs, Idle)
  }

  lemma DuoStart(p: Address, d: Address)
    ensures Start([p], [d]) == Duo(p, d, 0.0, 0.0, 0, [])
  {
    assert [p][..0] == [] && [d][..0] == [];
    assert AddServers(EMPTY, Prefill, [p]) == AddServer(AddServers(EMPTY, Prefill, []), Prefill, p);
    var s := AddServers(EMPTY, Prefill, [p]);
    assert AddServers(s, Decode, [d]) == AddServer(AddServers(s, Decode, []), Decode, d);
  }

  lemma DuoBest(p: Address, d: Address, kv: real, tokens: real, open: nat, reqs: seq<Req>)
    ensures var s := Duo(p, d, kv, tokens, open, reqs).sched;
            Best(Prefill, s.prefill) == Some(p.key) && Best(Decode, s.decode) == Some(d.key)
  {
    var s := Duo(p, d, kv, tokens, open, reqs).sched;
    assert p.key in s.prefill.servers && d.key in s.decode.servers;
  }

  const FIRST: real := PrefillScore(4)
  const SECOND: real := PrefillScore(8)

  ghost function Assigned(p: Address, d: Address): Info {
    Info(p.key, FIRST, d.key, 4.0)
  }

  lemma DuoOpens(p: Address, d: Address)
    ensures var info, kv, dec := Assigned(p, d), Some(Hold(p.key, 0, FIRST)), Some(Hold(d.key, 1, 4.0));
            && Step(Duo(p, d, 0.0, 0.0, 0, []), Begin(4))
               == Duo(p, d, FIRST, 0.0, 1, [Req(Prefilling(p.key, 4), kv, None, None)])
            && Step(Duo(p, d, FIRST, 0.0, 1, [Req(Prefilling(p.key, 4), kv, None, None)]), PickDecoder(0, true))
               == Duo(p, d, FIRST, 4.0, 1, [Req(Streaming(info, false), kv, dec, None)])
            && Step(Duo(p, d, FIRST, 4.0, 1, [Req(Streaming(info, false), kv, dec, None)]), FirstChunk(0))
               == Duo(p, d, 0.0, 4.0, 1, [Req(Streaming(info, true), None, dec, None)])
  {
    DuoBest(p, d, 0.0, 0.0, 0, []);
    DuoBest(p, d, FIRST, 0.0, 1, [Req(Prefilling(p.key, 4), Some(Hold(p.key, 0, FIRST)), None, None)]);
  }

  lemma DuoReturns(p: Address, d: Address)
    ensures var info, dec := Assigned(p, d), Some(Hold(d.key, 1, 4.0));
            && Step(Duo(p, d, 0.0, 4.0, 1, [Req(Streaming(info, true), None, dec, None)]), Recompute(0))
               == Duo(p, d, 0.0, 4.0, 1, [Req(KvReturned(info), None, dec, None)])
            && Step(Duo(p, d, 0.0, 4.0, 1, [Req(KvReturned(info), None, dec, None)]), ReturnDecoder(0))
               == Duo(p, d, 0.0, 0.0, 1, [Req(DecoderReturned(info), None, None, None)])
  {
  }

  lemma DuoReserves(p: Address, d: Address)
    ensures var info, kv := Assigned(p, d), Some(Hold(p.key, 0, SECOND));
            Step(Duo(p, d, 0.0, 0.0, 1, [Req(DecoderReturned(info), None, None, None)]), Reserve(0, 8))
            == Duo(p, d, SECOND, 0.0, 1, [Req(RePrefilling(info, p.key, 8), kv, None, None)])
  {
    DuoBest(p, d, 0.0, 0.0, 1, [Req(DecoderReturned(Assigned(p, d)), None, None, None)]);
  }

  lemma DuoFails(p: Address, d: Address)
    ensures var info, kv := Assigned(p, d), Some(Hold(p.key, 0, SECOND));
            && Step(Duo(p, d, SECOND, 0.0, 1, [Req(RePrefilling(info, p.key, 8), kv, None, None)]), RePrefillFailed(0))
               == Duo(p, d, 0.0, 0.0, 1, [Req(Closing(info, false), None, None, None)])
            && Step(Duo(p, d, 0.0, 0.0, 1, [Req(Closing(info, false), None, None, None)]), Finish(0))
               == Duo(p, d, 0.0, -4.0, 0, [Req(Done, None, None, Some(Hold(d.key, 1, 4.0)))])
  {
  }

  lemma RunPrefixes(s: Sys, events: seq<Event>)
    ensures Run(s, events[..0]) == s
    ensures forall i {:trigger events[..i]} :: 0 <= i < |events| ==>
              Run(s, events[..i + 1]) == Step(Run(s, events[..i]), events[i])
  {
    forall i | 0 <= i < |events|
      ensures Run(s, events[..i + 1]) == Step(Run(s, events[..i]), events[i])
    {
      assert events[..i + 1][..i] == events[..i];
    }
  }

  // ------------------------------------------------------------ the common start

  const REASSIGNS: seq<Event> := [
    Begin(4), PickDecoder(0, true), FirstChunk(0), Recompute(0), ReturnDecoder(0), Reserve(0, 8)]

  /** A request is assigned, streams, and is reassigned up to its second prefill. */
  lemma ReassigningRun(p: Address, d: Address)
    ensures Run(Start([p], [d]), REASSIGNS[..3])
            == Duo(p, d, 0.0, 4.0, 1, [Req(Streaming(Assigned(p, d), true), None, Some(Hold(d.key, 1, 4.0)), None)])
    ensures Run(Start([p], [d]), REASSIGNS)
            == Duo(p, d, SECOND, 0.0, 1, [Req(RePrefilling(Assigned(p, d), p.key, 8), Some(Hold(p.key, 0, SECOND)), None, None)])
  {
    hide Step, PrefillScore, Run;
    var s := Start([p], [d]);
    DuoStart(p, d);
    DuoOpens(p, d);
    DuoReturns(p, d);
    DuoReserves(p, d);
    RunPrefixes(s, REASSIGNS);
    assert REASSIGNS[..6] == REASSIGNS;
    assert forall i {:trigger REASSIGNS[..i]} :: 0 <= i < 6 ==>
             Run(s, REASSIGNS[..i + 1]) == Step(Run(s, REASSIGNS[..i]), REASSIGNS[i]);
    assert Run(s, REASSIGNS[..3]) == Step(Step(Step(s, Begin(4)), PickDecoder(0, true)), FirstChunk(0));
    assert Run(s, REASSIGNS) == Step(Step(Step(Run(s, REASSIGNS[..3]), Recompute(0)), ReturnDecoder(0)), Reserve(0, 8));
  }

  lemma RunOfTwo(s: Sys, events: seq<Event>, a: Event, b: Event)
    ensures Run(s, events + [a, b]) == Step(Step(Run(s, events), a), b)
  {
    hide Step;
    assert (events + [a, b])[..|events| + 1] == events + [a];
    assert (events + [a])[..|events|] == events;
  }

  // ------------------------------------------------------------------ the runs

  /** The second prefill fails, and the decoder ends below zero. */
  lemma FailedReassignDrivesDecoderNegative(p: Address, d: Address)
    ensures var s := Run(Start([p], [d]), REASSIGNS + [RePrefillFailed(0), Finish(0)]);
            && |s.reqs| == 1 && s.reqs[0].phase.Done? && s.sched.requestNum == 0
            && d.key in s.sched.decode.servers && s.sched.decode.servers[d.key].activeTokens == -4.0
  {
    hide Step, PrefillScore, Run;
    ReassigningRun(p, d);
    RunOfTwo(Start([p], [d]), REASSIGNS, RePrefillFailed(0), Finish(0));
    DuoFails(p, d);
  }

  /** The request is cancelled in its second prefill; its prefiller is deleted under the KV it still holds. */
  lemma CancelledReassignLosesItsServer(p: Address, d: Address)
    ensures var s := Run(Start([p], [d]), REASSIGNS + [Cancel(0), Finish(0)]);
            && |s.reqs| == 1 && s.reqs[0].phase.Done? && s.sched.requestNum == 0
            && s.reqs[0].kv == Some(Hold(p.key, 0, SECOND)) && OnLive(s.sched.prefill, s.reqs[0].kv.value)
            && Deleted(s.sched.prefill, Step(s, RemoveNodes(Prefill, [p])).sched.prefill, p.key)
  {
    var holds, q := Some(Hold(p.key, 0, SECOND)), Assigned(p, d);
    assert Step(Duo(p, d, SECOND, 0.0, 1, [Req(RePrefilling(q, p.key, 8), holds, None, None)]), Cancel(0))
        == Duo(p, d, SECOND, 0.0, 1, [Req(Closing(q, false), holds, None, None)]);
    assert Step(Duo(p, d, SECOND, 0.0, 1, [Req(Closing(q, false), holds, None, None)]), Finish(0))
        == Duo(p, d, SECOND, -4.0, 0, [Req(Done, holds, None, Some(Hold(d.key, 1, 4.0)))]);
    DuoRemoves(p, d, SECOND, -4.0, [Req(Done, holds, None, Some(Hold(d.key, 1, 4.0)))]);
    hide Step, PrefillScore, Run;
    ReassigningRun(p, d);
    RunOfTwo(Start([p], [d]), REASSIGNS, Cancel(0), Finish(0));
  }

  /** The second assignment loses its clients; both servers are deleted under the loads still held there. */
  lemma ClientlessReassignLosesBothServers(p: Address, d: Address)
    ensures var s := Run(Start([p], [d]), REASSIGNS + [RePickDecoder(0, false), Finish(0)]);
            && |s.reqs| == 1 && s.reqs[0].phase.Done? && s.sched.requestNum == 0
            && s.reqs[0].kv == Some(Hold(p.key, 0, SECOND)) && OnLive(s.sched.prefill, s.reqs[0].kv.value)
            && s.reqs[0].dec == Some(Hold(d.key, 1, 8.0)) && OnLive(s.sched.decode, s.reqs[0].dec.value)
            && Deleted(s.sched.prefill, Step(s, RemoveNodes(Prefill, [p])).sched.prefill, p.key)
            && Deleted(s.sched.decode, Step(s, RemoveNodes(Decode, [d])).sched.decode, d.key)
  {
    var holds, took, q := Some(Hold(p.key, 0, SECOND)), Some(Hold(d.key, 1, 8.0)), Assigned(p, d);
    DuoBest(p, d, SECOND, 0.0, 1, [Req(RePrefilling(q, p.key, 8), holds, None, None)]);
    assert Step(Duo(p, d, SECOND, 0.0, 1, [Req(RePrefilling(q, p.key, 8), holds, None, None)]), RePickDecoder(0, false))
        == Duo(p, d, SECOND, 8.0, 1, [Req(Closing(q, false), holds, took, None)]);
    assert Step(Duo(p, d, SECOND, 8.0, 1, [Req(Closing(q, false), holds, took, None)]), Finish(0))
        == Duo(p, d, SECOND, 4.0, 0, [Req(Done, holds, took, Some(Hold(d.key, 1, 4.0)))]);
    DuoRemoves(p, d, SECOND, 4.0, [Req(Done, holds, took, Some(Hold(d.key, 1, 4.0)))]);
    hide Step, PrefillScore, Run;
    ReassigningRun(p, d);
    RunOfTwo(Start([p], [d]), REASSIGNS, RePickDecoder(0, false), Finish(0));
  }

  lemma DuoRemoves(p: Address, d: Address, kv: real, tokens: real, reqs: seq<Req>)
    ensures var s := Duo(p, d, kv, tokens, 0, reqs);
            && Deleted(s.sched.prefill, Step(s, RemoveNodes(Prefill, [p])).sched.prefill, p.key)
            && Deleted(s.sched.decode, Step(s, RemoveNodes(Decode, [d])).sched.decode, d.key)
  {
    assert [p][0] in [p] && [d][0] in [d];
    assert p.key in Keys([p]) && d.key in Keys([d]);
  }

  /** A second request begins between the first one's first chunk and its recompute, which then releases the other's KV. */
  lemma RecomputeTakesAnothersKv(p: Address, d: Address)
    ensures var s := Run(Start([p], [d]), REASSIGNS[..3] + [Begin(4), Recompute(0)]);
            && Inv(s) && p.key in s.sched.prefill.servers && s.sched.prefill.servers[p.key].activeKv == 0.0
            && |s.reqs| == 2 && s.reqs[1].kv == Some(Hold(p.key, 0, FIRST)) && FIRST > 0.0
            && Total(s.reqs, KvAt(p.key, s.sched.prefill.servers[p.key].ordinal)) == FIRST
            && !KvExact(s.sched.prefill, s.reqs)
  {
    hide Step, Run, Total, Inv, PrefillScore;
    EveryRunIsSafe([p], [d], REASSIGNS[..3] + [Begin(4), Recompute(0)]);
    ReassigningRun(p, d);
    RunOfTwo(Start([p], [d]), REASSIGNS[..3], Begin(4), Recompute(0));
    SecondOpens(p, d);
  }

  lemma SecondOpens(p: Address, d: Address)
    ensures var dec, q := Some(Hold(d.key, 1, 4.0)), Req(Prefilling(p.key, 4), Some(Hold(p.key, 0, FIRST)), None, None);
            var first := Req(Streaming(Assigned(p, d), true), None, dec, None);
            var later := Req(KvReturned(Assigned(p, d)), None, dec, None);
            && Step(Duo(p, d, 0.0, 4.0, 1, [first]), Begin(4)) == Duo(p, d, FIRST, 4.0, 2, [first, q])
            && Step(Duo(p, d, FIRST, 4.0, 2, [first, q]), Recompute(0)) == Duo(p, d, 0.0, 4.0, 2, [later, q])
            && Total([later, q], KvAt(p.key, 0)) == FIRST && FIRST > 0.0
  {
    var dec, q := Some(Hold(d.key, 1, 4.0)), Req(Prefilling(p.key, 4), Some(Hold(p.key, 0, FIRST)), None, None);
    DuoBest(p, d, 0.0, 4.0, 1, [Req(Streaming(Assigned(p, d), true), None, dec, None)]);
    TotalOfTwo(Req(KvReturned(Assigned(p, d)), None, dec, None), q, KvAt(p.key, 0));
  }

  lemma TotalOfTwo(a: Req, b: Req, account: Account)
    ensures Total([a, b], account) == Weight(a, account) + Weight(b, account)
  {
    assert [a, b][1..] == [b] && [b][1..] == [];
    assert Total([b], account) == Weight(b, account) + Total([b][1..], account);
  }

  /** A node queued and then removed while a request is open ends the listener when it answers. */
  lemma RemovedWaitingNodeKillsListener(p: Address, d: Address, a: Address, maxRetries: int)
    requires a.key != p.key
    ensures Run(Start([p], [d]), [Begin(4)] + [AddNodes(Prefill, [a]), RemoveNodes(Prefill, [a])]
                                 + [ListenerSnapshot([a.key]), ListenerCheck(true, maxRetries)]).listener.Dead?
  {
    var s, w := Start([p], [d]), Waiting(Prefill, a.host, a.port, 0);
    var open := Duo(p, d, FIRST, 0.0, 1, [Req(Prefilling(p.key, 4), Some(Hold(p.key, 0, FIRST)), None, None)]);
    var queued := open.(sched := open.sched.(waiting := map[a.key := w]));
    var tainted := queued.(sched := queued.sched.(prefill := queued.sched.prefill.(tainted := {a.key})));
    hide Step, Run, PrefillScore;
    DuoStart(p, d);
    DuoOpens(p, d);
    QueuedAndTainted(open, a, p);
    RunOfOne(s, Begin(4));
    RunOfTwo(s, [Begin(4)], AddNodes(Prefill, [a]), RemoveNodes(Prefill, [a]));
    RunOfTwo(s, [Begin(4)] + [AddNodes(Prefill, [a]), RemoveNodes(Prefill, [a])],
             ListenerSnapshot([a.key]), ListenerCheck(true, maxRetries));
    WaitingTaintKills(tainted, a, w, maxRetries);
  }

  lemma QueuedAndTainted(open: Sys, a: Address, p: Address)
    requires a.key !in open.sched.prefill.servers && open.sched.waiting == map[] && open.sched.prefill.tainted == {}
    requires open.sched.requestNum > 0
    ensures var w := Waiting(Prefill, a.host, a.port, 0);
            var queued := open.(sched := open.sched.(waiting := map[a.key := w]));
            && Step(open, AddNodes(Prefill, [a])) == queued
            && Step(queued, RemoveNodes(Prefill, [a]))
               == queued.(sched := queued.sched.(prefill := queued.sched.prefill.(tainted := {a.key})))
  {
    assert [a][..0] == [];
    assert AddInstances(open.sched, Prefill, []) == (open.sched, []);
    assert Keys([a]) == {a.key} by {
      assert [a][0] in [a];
    }
  }

  lemma WaitingTaintKills(s: Sys, a: Address, w: Waiting, maxRetries: int)
    requires s.sched.waiting == map[a.key := w] && w.role == Prefill && s.listener.Idle?
    requires a.key in s.sched.prefill.tainted && a.key !in s.sched.prefill.servers
    ensures Step(Step(s, ListenerSnapshot([a.key])), ListenerCheck(true, maxRetries)).listener.Dead?
  {
    assert [a.key][0] in [a.key];
    assert Lists([a.key], s.sched.waiting.Keys);
  }

  /** A request cancelled in its first prefill: the drain can never complete again. */
  lemma CancelledRequestBlocksTheDrain(p: Address, d: Address)
    ensures var s := Run(Start([p], [d]), [] + [Begin(4), Cancel(0)]);
            Inv(s) && |s.reqs| == 1 && s.reqs[0].phase.Lost? && !CanDrain(s)
  {
    var q := Req(Prefilling(p.key, 4), Some(Hold(p.key, 0, FIRST)), None, None);
    assert Step(Duo(p, d, FIRST, 0.0, 1, [q]), Cancel(0)) == Duo(p, d, FIRST, 0.0, 1, [q.(phase := Lost)]);
    hide Step, Run, PrefillScore, Inv;
    DuoStart(p, d);
    DuoOpens(p, d);
    RunOfNone(Start([p], [d]));
    RunOfTwo(Start([p], [d]), [], Begin(4), Cancel(0));
    EveryRunIsSafe([p], [d], [] + [Begin(4), Cancel(0)]);
    DrainsUnlessLost(Run(Start([p], [d]), [] + [Begin(4), Cancel(0)]));
  }
}
