/**
 What the scheduler's picks and its administration mean, on the loads and the lists themselves.
 */
module SchedulerLaws {
  import opened Options
  import opened SchedulerSpec

  // ------------------------------------------------------------------ picking

  /**
   While some untainted prefiller weighs less than the taint priority, the pick is untainted and has the
   least weight among the untainted, where KV counts three tenths of a token; the oldest of several wins.
   */
  lemma PrefillPickIsLeastLoaded(pool: Pool, k: string)
    requires k in pool.servers && k !in pool.tainted
    requires 10.0 * pool.servers[k].activeTokens + 3.0 * pool.servers[k].activeKv < 10000000000000000.0
    ensures Best(Prefill, pool).Some? && Best(Prefill, pool).value in pool.servers
    ensures var b := Best(Prefill, pool).value;
            && b !in pool.tainted
            && forall j :: j in pool.servers && j !in pool.tainted ==>
                 var x, y := pool.servers[b], pool.servers[j];
                 var weightX, weightY := 10.0 * x.activeTokens + 3.0 * x.activeKv, 10.0 * y.activeTokens + 3.0 * y.activeKv;
                 weightX < weightY || (weightX == weightY && x.ordinal <= y.ordinal)
  {
    var b := Best(Prefill, pool).value;
    assert NoLater(Prefill, pool, b, k);
    forall j | j in pool.servers && j !in pool.tainted
      ensures var x, y := pool.servers[b], pool.servers[j];
              var weightX, weightY := 10.0 * x.activeTokens + 3.0 * x.activeKv, 10.0 * y.activeTokens + 3.0 * y.activeKv;
              weightX < weightY || (weightX == weightY && x.ordinal <= y.ordinal)
    {
      assert NoLater(Prefill, pool, b, j);
    }
  }

  /** Decoders are weighed by their tokens alone, whatever KV is recorded for them. */
  lemma DecodePickIsLeastLoaded(pool: Pool, k: string)
    requires k in pool.servers && k !in pool.tainted && pool.servers[k].activeTokens < 1000000000000000.0
    ensures Best(Decode, pool).Some? && Best(Decode, pool).value in pool.servers
    ensures var b := Best(Decode, pool).value;
            && b !in pool.tainted
            && forall j :: j in pool.servers && j !in pool.tainted ==>
                 var x, y := pool.servers[b], pool.servers[j];
                 x.activeTokens < y.activeTokens || (x.activeTokens == y.activeTokens && x.ordinal <= y.ordinal)
  {
    var b := Best(Decode, pool).value;
    assert NoLater(Decode, pool, b, k);
    forall j | j in pool.servers && j !in pool.tainted
      ensures var x, y := pool.servers[b], pool.servers[j];
              x.activeTokens < y.activeTokens || (x.activeTokens == y.activeTokens && x.ordinal <= y.ordinal)
    {
      assert NoLater(Decode, pool, b, j);
    }
  }

  /** Tainted servers all weigh the same: if there are no others, the oldest one is picked. */
  lemma AllTaintedPicksTheOldest(role: Role, pool: Pool)
    requires pool.servers != map[] && pool.servers.Keys <= pool.tainted
    ensures Best(role, pool).Some? && Best(role, pool).value in pool.servers
    ensures forall j :: j in pool.servers ==> pool.servers[Best(role, pool).value].ordinal <= pool.servers[j].ordinal
  {
    var b := Best(role, pool).value;
    forall j | j in pool.servers
      ensures pool.servers[b].ordinal <= pool.servers[j].ordinal
    {
      assert NoLater(role, pool, b, j);
      assert j in pool.servers.Keys && b in pool.servers.Keys;
    }
  }

  /** With no server in the role nothing is picked, charged or counted. */
  lemma NothingToPick(s: State, load: real)
    ensures s.prefill.servers == map[] ==> BeginRequest(s, load) == (s, None) && ReservePrefillKv(s, load) == (s, None)
    ensures s.decode.servers == map[] ==> SchedulerSpec.PickDecoder(s, load) == (s, None)
  {
  }

  /** One begin_request per load, in order. */
  ghost function BeginAll(s: State, loads: seq<real>): (State, seq<Option<string>>) {
    if loads == [] then (s, [])
    else
      var (before, picks) := BeginAll(s, loads[..|loads| - 1]);
      var (after, pick) := BeginRequest(before, loads[|loads| - 1]);
      (after, picks + [pick])
  }

  function Untainted(pool: Pool): set<string> {
    pool.servers.Keys - pool.tainted
  }

  /** Of the untainted prefillers, exactly those in `busy` carry KV, and none carries tokens. */
  ghost predicate IdleOutside(pool: Pool, busy: set<string>) {
    && busy <= Untainted(pool)
    && forall k :: k in Untainted(pool) ==>
         && pool.servers[k].activeTokens == 0.0
         && (if k in busy then pool.servers[k].activeKv > 0.0 else pool.servers[k].activeKv == 0.0)
  }

  lemma SomeoneOutside(keys: set<string>, busy: set<string>) returns (k: string)
    requires busy <= keys && |busy| < |keys|
    ensures k in keys && k !in busy
  {
    assert keys == busy + (keys - busy);
    k :| k in keys - busy;
  }

  lemma BeginTakesAnIdleOne(s: State, busy: set<string>, load: real)
    requires IdleOutside(s.prefill, busy) && load > 0.0 && |busy| < |Untainted(s.prefill)|
    ensures var (t, pick) := BeginRequest(s, load);
            && pick.Some? && pick.value in Untainted(s.prefill) && pick.value !in busy
            && Untainted(t.prefill) == Untainted(s.prefill) && IdleOutside(t.prefill, busy + {pick.value})
            && t.prefill.servers[pick.value].activeKv == load
            && t.requestNum == s.requestNum + 1
  {
    var k := SomeoneOutside(Untainted(s.prefill), busy);
    PrefillPickIsLeastLoaded(s.prefill, k);
  }

  /**
   As long as there are idle untainted prefillers, consecutive requests go to different ones, each charged
   once; of two idle prefillers, the second request takes the one the first did not.
   */
  lemma {:induction false} RequestsSpreadOverIdlePrefillers(s: State, loads: seq<real>) returns (busy: set<string>)
    requires IdleOutside(s.prefill, {}) && |loads| <= |Untainted(s.prefill)|
    requires forall i :: 0 <= i < |loads| ==> loads[i] > 0.0
    ensures var (t, picks) := BeginAll(s, loads);
            && |picks| == |loads| == |busy| && t.requestNum == s.requestNum + |loads|
            && Untainted(t.prefill) == Untainted(s.prefill) && IdleOutside(t.prefill, busy)
            && (forall i :: 0 <= i < |picks| ==> picks[i].Some? && picks[i].value in busy)
            && (forall i, j :: 0 <= i < j < |picks| ==> picks[i] != picks[j])
            && forall i :: 0 <= i < |picks| ==>
                 picks[i].value in t.prefill.servers && t.prefill.servers[picks[i].value].activeKv == loads[i]
  {
    hide Best, IdleOutside, BeginRequest;
    if loads == [] {
      busy := {};
    } else {
      var n := |loads| - 1;
      busy := RequestsSpreadOverIdlePrefillers(s, loads[..n]);
      var (before, picks) := BeginAll(s, loads[..n]);
      BeginTakesAnIdleOne(before, busy, loads[n]);
      BeginLeavesOthers(before, loads[n]);
      busy := busy + {BeginRequest(before, loads[n]).1.value};
    }
  }

  lemma BeginLeavesOthers(s: State, load: real)
    ensures var (t, pick) := BeginRequest(s, load);
            forall k :: k in s.prefill.servers && pick != Some(k) ==>
              k in t.prefill.servers && t.prefill.servers[k] == s.prefill.servers[k]
  {
    hide IsBest;
  }

  // ------------------------------------------------------------ administration

  /** The configured servers are live, idle and untainted, and ordinals follow the configured order, prefillers first. */
  lemma {:induction false} InitHoldsTheConfigured(prefillers: seq<Address>, decoders: seq<Address>)
    ensures var s := Init(prefillers, decoders);
            && s.requestNum == 0 && s.waiting == map[]
            && Configured(s.prefill, prefillers) && Configured(s.decode, decoders)
            && forall k, j :: k in s.prefill.servers && j in s.decode.servers ==>
                 s.prefill.servers[k].ordinal < s.decode.servers[j].ordinal
  {
    AddedServers(EMPTY, Prefill, prefillers);
    AddedServers(AddServers(EMPTY, Prefill, prefillers), Decode, decoders);
  }

  /** `i` is the first place at which its key is listed. */
  predicate FirstOf(addrs: seq<Address>, i: nat)
    requires i < |addrs|
  {
    forall j :: 0 <= j < i ==> addrs[j].key != addrs[i].key
  }

  predicate Listed(addrs: seq<Address>, k: string) {
    exists i :: 0 <= i < |addrs| && addrs[i].key == k
  }

  /** The server of the address at place `i`, if its key was not listed before. */
  ghost predicate JoinedAt(p: Pool, addrs: seq<Address>, i: nat)
    requires i < |addrs|
  {
    FirstOf(addrs, i) ==>
      && addrs[i].key in p.servers
      && var l := p.servers[addrs[i].key];
         l.host == addrs[i].host && l.port == addrs[i].port && l.activeTokens == 0.0 && l.activeKv == 0.0
  }

  ghost predicate JoinedBefore(p: Pool, addrs: seq<Address>, i: nat, j: nat)
    requires i < |addrs| && j < |addrs| && JoinedAt(p, addrs, i) && JoinedAt(p, addrs, j)
  {
    FirstOf(addrs, i) && FirstOf(addrs, j) ==> p.servers[addrs[i].key].ordinal < p.servers[addrs[j].key].ordinal
  }

  ghost predicate Configured(p: Pool, addrs: seq<Address>) {
    && p.tainted == {}
    && (forall k :: k in p.servers <==> Listed(addrs, k))
    && (forall i :: 0 <= i < |addrs| ==> JoinedAt(p, addrs, i))
    && (forall i, j :: 0 <= i < j < |addrs| ==> JoinedBefore(p, addrs, i, j))
  }

  lemma {:induction false} AddedServers(s: State, role: Role, addrs: seq<Address>)
    requires s.RolePool(role) == Pool(map[], {})
    ensures var t := AddServers(s, role, addrs);
            && Configured(t.RolePool(role), addrs)
            && t.requestNum == s.requestNum && t.waiting == s.waiting && s.nextOrdinal <= t.nextOrdinal
            && (forall other: Role :: other != role ==> t.RolePool(other) == s.RolePool(other))
            && (forall k :: k in t.RolePool(role).servers ==>
                  s.nextOrdinal <= t.RolePool(role).servers[k].ordinal < t.nextOrdinal)
  {
    hide Configured;
    if addrs == [] {
      NothingConfigured(s.RolePool(role));
    } else {
      var n := |addrs| - 1;
      AddedServers(s, role, addrs[..n]);
      ConfiguredGrows(AddServers(s, role, addrs[..n]), role, addrs[..n], addrs[n]);
      assert addrs[..n] + [addrs[n]] == addrs;
    }
  }

  lemma NothingConfigured(p: Pool)
    requires p == Pool(map[], {})
    ensures Configured(p, [])
  {
  }

  lemma ListedGrows(addrs: seq<Address>, a: Address)
    ensures forall k :: Listed(addrs + [a], k) <==> Listed(addrs, k) || k == a.key
    ensures forall i :: 0 <= i < |addrs| ==> (FirstOf(addrs + [a], i) <==> FirstOf(addrs, i))
    ensures FirstOf(addrs + [a], |addrs|) <==> !Listed(addrs, a.key)
  {
    var all := addrs + [a];
    assert all[|addrs|] == a && forall i :: 0 <= i < |addrs| ==> all[i] == addrs[i];
    forall k | Listed(addrs, k)
      ensures Listed(all, k)
    {
      var i :| 0 <= i < |addrs| && addrs[i].key == k;
      assert all[i].key == k;
    }
  }

  lemma ConfiguredGrows(s: State, role: Role, addrs: seq<Address>, a: Address)
    requires Configured(s.RolePool(role), addrs)
    requires forall k :: k in s.RolePool(role).servers ==> s.RolePool(role).servers[k].ordinal < s.nextOrdinal
    ensures Configured(AddServer(s, role, a).RolePool(role), addrs + [a])
  {
    hide Listed, FirstOf;
    var p, p', all, n := s.RolePool(role), AddServer(s, role, a).RolePool(role), addrs + [a], |addrs|;
    ListedGrows(addrs, a);
    if Listed(addrs, a.key) {
      assert p' == p;
    } else {
      assert p' == p.(servers := p.servers[a.key := Load(a.host, a.port, s.nextOrdinal, 0.0, 0.0)]);
    }
    forall i | 0 <= i < |all|
      ensures JoinedAt(p', all, i)
    {
      if i < n {
        assert JoinedAt(p, addrs, i);
      }
    }
    forall i, j | 0 <= i < j < |all|
      ensures JoinedBefore(p', all, i, j)
    {
      assert JoinedAt(p, addrs, i);
      if j < n {
        assert JoinedAt(p, addrs, j) && JoinedBefore(p, addrs, i, j);
      }
    }
  }

  /** Address `i` is one that add_instances queues: neither live, nor waiting, nor listed before. */
  predicate Queues(s: State, role: Role, addrs: seq<Address>, i: nat)
    requires i < |addrs|
  {
    addrs[i].key !in s.RolePool(role).servers && addrs[i].key !in s.waiting && FirstOf(addrs, i)
  }

  /** The addresses at the places `at` are queued, in order. */
  ghost predicate QueuedAt(addrs: seq<Address>, queued: seq<Address>, at: seq<nat>) {
    && |queued| == |at| && (forall i :: 0 <= i < |at| ==> at[i] < |addrs| && queued[i] == addrs[at[i]])
    && forall i, j :: 0 <= i < j < |at| ==> at[i] < at[j]
  }

  /** Each address of `queued` waits with no retry yet, beside everything that waited before. */
  ghost predicate Joins(before: map<string, Waiting>, after: map<string, Waiting>, role: Role, queued: seq<Address>) {
    && (forall k :: k in after <==> k in before || Listed(queued, k))
    && (forall k :: k in before ==> k in after && after[k] == before[k])
    && forall i :: 0 <= i < |queued| ==>
         queued[i].key in after && after[queued[i].key] == Waiting(role, queued[i].host, queued[i].port, 0)
  }

  /** Queued are, in order, exactly the addresses neither live in the role, nor waiting, nor listed before. */
  lemma {:induction false} AddInstancesQueuesTheNew(s: State, role: Role, addrs: seq<Address>) returns (at: seq<nat>)
    ensures forall i: nat :: i < |addrs| ==> (i in at <==> Queues(s, role, addrs, i))
    ensures var (t, queued) := AddInstances(s, role, addrs);
            && QueuedAt(addrs, queued, at)
            && t == s.(waiting := t.waiting) && Joins(s.waiting, t.waiting, role, queued)
  {
    hide QueuedAt, Joins, Queues;
    if addrs == [] {
      at := [];
      NothingQueued(s.waiting, role);
    } else {
      var n, a := |addrs| - 1, addrs[|addrs| - 1];
      at := AddInstancesQueuesTheNew(s, role, addrs[..n]);
      var (t, queued) := AddInstances(s, role, addrs[..n]);
      assert addrs == addrs[..n] + [a];
      QueuesPrefix(s, role, addrs[..n], a);
      AllQueued(s, role, addrs[..n], queued, at, t.waiting, a);
      if a.key !in t.RolePool(role).servers && a.key !in t.waiting {
        QueuedGrows(addrs[..n], queued, at, a);
        JoinsGrows(s.waiting, t.waiting, role, queued, a);
        at := at + [n];
      } else {
        QueuedStays(addrs[..n], queued, at, a);
      }
    }
  }

  lemma NothingQueued(waiting: map<string, Waiting>, role: Role)
    ensures QueuedAt([], [], []) && Joins(waiting, waiting, role, [])
  {
  }

  lemma QueuesPrefix(s: State, role: Role, addrs: seq<Address>, a: Address)
    ensures forall i: nat :: i < |addrs| ==> (Queues(s, role, addrs + [a], i) <==> Queues(s, role, addrs, i))
    ensures Queues(s, role, addrs + [a], |addrs|)
            <==> a.key !in s.RolePool(role).servers && a.key !in s.waiting && !Listed(addrs, a.key)
  {
    ListedGrows(addrs, a);
  }

  lemma QueuedStays(addrs: seq<Address>, queued: seq<Address>, at: seq<nat>, a: Address)
    requires QueuedAt(addrs, queued, at)
    ensures QueuedAt(addrs + [a], queued, at) && |addrs| !in at
  {
  }

  lemma QueuedGrows(addrs: seq<Address>, queued: seq<Address>, at: seq<nat>, a: Address)
    requires QueuedAt(addrs, queued, at)
    ensures QueuedAt(addrs + [a], queued + [a], at + [|addrs|])
  {
  }

  lemma JoinsGrows(before: map<string, Waiting>, after: map<string, Waiting>, role: Role, queued: seq<Address>, a: Address)
    requires Joins(before, after, role, queued) && a.key !in after
    ensures Joins(before, after[a.key := Waiting(role, a.host, a.port, 0)], role, queued + [a])
  {
    hide Listed;
    ListedGrows(queued, a);
  }

  /** A listed key that is neither live nor waiting before is queued by now. */
  lemma AllQueued(s: State, role: Role, addrs: seq<Address>, queued: seq<Address>, at: seq<nat>,
                  after: map<string, Waiting>, a: Address)
    requires QueuedAt(addrs, queued, at) && Joins(s.waiting, after, role, queued)
    requires forall i: nat :: i < |addrs| ==> (i in at <==> Queues(s, role, addrs, i))
    ensures a.key !in s.RolePool(role).servers && a.key !in after
            <==> a.key !in s.RolePool(role).servers && a.key !in s.waiting && !Listed(addrs, a.key)
  {
    if Listed(queued, a.key) {
      var i :| 0 <= i < |queued| && queued[i].key == a.key;
      assert addrs[at[i]].key == a.key;
    }
    if a.key !in s.RolePool(role).servers && a.key !in s.waiting && Listed(addrs, a.key) {
      var first := FirstPlace(addrs, a.key);
      assert Queues(s, role, addrs, first);
      var i :| 0 <= i < |at| && at[i] == first;
      assert queued[i].key == a.key;
    }
  }

  /** The first place at which `k` is listed. */
  function FirstPlace(addrs: seq<Address>, k: string): (i: nat)
    requires exists j :: 0 <= j < |addrs| && addrs[j].key == k
    ensures i < |addrs| && addrs[i].key == k && FirstOf(addrs, i)
    decreases addrs
  {
    if addrs[0].key == k then 0
    else
      assert exists j :: 0 <= j < |addrs[1..]| && addrs[1..][j].key == k by {
        var j :| 0 <= j < |addrs| && addrs[j].key == k;
        assert addrs[1..][j - 1].key == k;
      }
      var i := FirstPlace(addrs[1..], k);
      assert forall j :: 1 <= j < i + 1 ==> addrs[j] == addrs[1..][j - 1];
      1 + i
  }

  lemma KeysAreListed(addrs: seq<Address>)
    ensures forall k :: k in Keys(addrs) <==> Listed(addrs, k)
  {
    forall k
      ensures k in Keys(addrs) <==> Listed(addrs, k)
    {
      if Listed(addrs, k) {
        var i :| 0 <= i < |addrs| && addrs[i].key == k;
        assert addrs[i] in addrs;
      }
    }
  }

  /**
   A removal asks its caller to wait exactly when requests are counted. It then taints the listed keys and
   keeps every server; otherwise the listed keys leave the role's servers and taints and the waiting list.
   */
  lemma RemovalTaintsOrDeletes(s: State, role: Role, addrs: seq<Address>, k: string)
    ensures var (t, wait) := RemoveInstances(s, role, addrs);
            var p, p' := s.RolePool(role), t.RolePool(role);
            && (wait <==> addrs != [] && s.requestNum > 0)
            && t.requestNum == s.requestNum && t.nextOrdinal == s.nextOrdinal
            && (forall other: Role :: other != role ==> t.RolePool(other) == s.RolePool(other))
            && (k in p'.tainted <==> if wait then k in p.tainted || Listed(addrs, k) else k in p.tainted && !Listed(addrs, k))
            && (k in p'.servers <==> k in p.servers && (wait || !Listed(addrs, k)))
            && (k in p'.servers ==> p'.servers[k] == p.servers[k])
            && (k in t.waiting <==> k in s.waiting && (wait || !Listed(addrs, k)))
            && (k in t.waiting ==> t.waiting[k] == s.waiting[k])
  {
    hide Keys;
    KeysAreListed(addrs);
  }

  /** What a finish gives back: the decoder's tokens, the prefiller's KV if asked to, and one of the count. */
  lemma FinishGivesBack(s: State, pk: string, pl: real, dk: string, dl: real, releaseKv: bool)
    ensures var t := FinishRequest(s, Some(pk), pl, Some(dk), dl, releaseKv);
            && t.requestNum == (if s.requestNum == 0 then 0 else s.requestNum - 1)
            && t.prefill.servers.Keys == s.prefill.servers.Keys && t.decode.servers.Keys == s.decode.servers.Keys
            && t.waiting == s.waiting && t.prefill.tainted == s.prefill.tainted && t.decode.tainted == s.decode.tainted
            && (forall k :: k in s.prefill.servers ==>
                  var x, y := s.prefill.servers[k], t.prefill.servers[k];
                  && y.activeTokens == x.activeTokens
                  && y.activeKv == (if !releaseKv || k != pk then x.activeKv
                                    else if x.activeKv < pl then 0.0 else x.activeKv - pl))
            && forall k :: k in s.decode.servers ==>
                 var x, y := s.decode.servers[k], t.decode.servers[k];
                 y.activeKv == x.activeKv && y.activeTokens == x.activeTokens - if k == dk then dl else 0.0
  {
  }

  /** Without keys a finish moves no load at all. */
  lemma FinishWithoutKeys(s: State, pl: real, dl: real, releaseKv: bool)
    ensures FinishRequest(s, None, pl, None, dl, releaseKv)
            == s.(requestNum := if s.requestNum == 0 then 0 else s.requestNum - 1)
  {
  }

  /** Activating takes the key off the waiting list; an untainted key that is not live joins idle, under the next ordinal. */
  lemma ActivationAddsOrUntaints(s: State, role: Role, a: Address)
    ensures var (t, ok) := Activate(s, role, a);
            var p, p' := s.RolePool(role), t.RolePool(role);
            && (ok <==> a.key !in p.tainted || a.key in p.servers)
            && a.key !in t.waiting && a.key !in p'.tainted
            && (forall k :: k != a.key ==> (k in t.waiting <==> k in s.waiting) && (k in p'.tainted <==> k in p.tainted))
            && (forall k :: k in p.servers ==> k in p'.servers && p'.servers[k] == p.servers[k])
            && (forall k :: k in p'.servers ==> k in p.servers || (k == a.key && a.key !in p.tainted))
            && (a.key !in p.tainted && a.key !in p.servers ==>
                  && a.key in p'.servers && p'.servers[a.key] == Load(a.host, a.port, s.nextOrdinal, 0.0, 0.0)
                  && t.nextOrdinal == s.nextOrdinal + 1)
  {
  }
}
