/**
 The shared proxy scheduler over lazily deleted heaps. A priority change pushes a
 new entry and bumps the server's sequence number; entries with an older number are
 skipped when popped.
 */
module ProxyScheduler {
  import opened Options
  import opened SchedulerSpec
  import opened HeapIndex

  datatype BackendServer = BackendServer(load: Load, heapSeq: nat)

  /** What the heap-free specification sees of a pool. */
  ghost function PoolOf(servers: map<string, BackendServer>, tainted: set<string>): Pool {
    Pool(map k | k in servers :: servers[k].load, tainted)
  }

  /** The entry that stands for a live server now. */
  function CurrentEntry(role: Role, servers: map<string, BackendServer>, tainted: set<string>, key: string): (e: HeapEntry)
    requires key in servers
    ensures e.key == key
  {
    var entry := servers[key];
    HeapEntry(Priority(role, key in tainted, entry.load), entry.load.ordinal, entry.heapSeq, key)
  }

  ghost function CurrentsOf(role: Role, servers: map<string, BackendServer>, tainted: set<string>): (cur: map<string, HeapEntry>)
    ensures cur.Keys == servers.Keys && |cur| == |servers|
    ensures forall k :: k in cur ==> cur[k] == CurrentEntry(role, servers, tainted, k)
  {
    var cur := map k | k in servers :: CurrentEntry(role, servers, tainted, k);
    assert cur.Keys == servers.Keys;
    cur
  }

  function Bump(servers: map<string, BackendServer>, key: string): map<string, BackendServer>
    requires key in servers
  {
    servers[key := servers[key].(heapSeq := servers[key].heapSeq + 1)]
  }

  /** The servers in `bumped` have the next sequence number, the others keep theirs. */
  ghost predicate Renumbered(servers: map<string, BackendServer>, live: map<string, BackendServer>, bumped: set<string>) {
    && live.Keys == servers.Keys
    && forall k :: k in live ==> live[k].heapSeq == servers[k].heapSeq + if k in bumped then 1 else 0
  }

  lemma RenumberedKeys(servers: map<string, BackendServer>, live: map<string, BackendServer>, bumped: set<string>)
    requires Renumbered(servers, live, bumped)
    ensures live.Keys == servers.Keys
  {
  }

  lemma BumpRenumbers(servers: map<string, BackendServer>, live: map<string, BackendServer>, done: set<string>, key: string)
    requires live.Keys == servers.Keys && key in live && key !in done
    ensures Renumbered(servers, live, done) ==> Renumbered(servers, Bump(live, key), done + {key})
  {
    assert Bump(live, key).Keys == servers.Keys;
  }

  /** A newer sequence number changes nothing the specification sees. */
  lemma BumpIsInvisible(servers: map<string, BackendServer>, tainted: set<string>, key: string)
    requires key in servers
    ensures PoolOf(Bump(servers, key), tainted) == PoolOf(servers, tainted)
    ensures Bump(servers, key).Keys == servers.Keys
  {
    assert PoolOf(Bump(servers, key), tainted).servers == PoolOf(servers, tainted).servers;
  }

  /** A newer sequence number changes one current entry. */
  lemma BumpChangesOneEntry(role: Role, servers: map<string, BackendServer>, tainted: set<string>, key: string)
    requires key in servers && WellKeyed(CurrentsOf(role, servers, tainted))
    ensures var cur, cur' := CurrentsOf(role, servers, tainted), CurrentsOf(role, Bump(servers, key), tainted);
            && WellKeyed(cur')
            && cur' == cur[key := cur'[key]]
            && cur'[key] == cur[key].(seqNo := cur[key].seqNo + 1)
  {
    hide WellKeyed, PriorityOf, Priority, PoolOf;
    var servers' := Bump(servers, key);
    var cur, cur' := CurrentsOf(role, servers, tainted), CurrentsOf(role, servers', tainted);
    assert cur'[key] == CurrentEntry(role, servers', tainted, key);
    assert cur' == cur[key := cur'[key]];
    StaysWellKeyed(cur, cur'[key]);
  }

  function Reload(servers: map<string, BackendServer>, key: string, load: Load): map<string, BackendServer>
    requires key in servers
  {
    servers[key := servers[key].(load := load)]
  }

  /** A new load on one server changes that server alone, and at most the priority of its entry. */
  lemma ReloadChangesOneServer(role: Role, servers: map<string, BackendServer>, tainted: set<string>,
                               key: string, load: Load)
    requires key in servers && load.ordinal == servers[key].load.ordinal
    ensures var pool := PoolOf(servers, tainted);
            PoolOf(Reload(servers, key, load), tainted) == pool.(servers := pool.servers[key := load])
    ensures var cur, cur' := CurrentsOf(role, servers, tainted), CurrentsOf(role, Reload(servers, key, load), tainted);
            cur' == cur[key := cur'[key]] && cur'[key] == cur[key].(priority := cur'[key].priority)
  {
    var servers' := Reload(servers, key, load);
    var pool, pool' := PoolOf(servers, tainted), PoolOf(servers', tainted);
    assert pool'.servers == pool.servers[key := load];
    var cur, cur' := CurrentsOf(role, servers, tainted), CurrentsOf(role, servers', tainted);
    assert cur' == cur[key := cur'[key]];
  }

  lemma BestOf(role: Role, servers: map<string, BackendServer>, tainted: set<string>, key: string)
    requires WellKeyed(CurrentsOf(role, servers, tainted))
    requires IsBest(role, PoolOf(servers, tainted), key)
    ensures Best(role, PoolOf(servers, tainted)) == Some(key)
  {
    var pool, cur := PoolOf(servers, tainted), CurrentsOf(role, servers, tainted);
    forall a, b | a in pool.servers && b in pool.servers && a != b
      ensures pool.servers[a].ordinal != pool.servers[b].ordinal
    {
      assert cur[a].ordinal != cur[b].ordinal;
    }
    BestIsUnique(role, pool, key, Best(role, pool).value);
  }

  lemma JoinChangesOneServer(role: Role, servers: map<string, BackendServer>, tainted: set<string>,
                             key: string, load: Load)
    requires key !in servers
    ensures var pool, servers' := PoolOf(servers, tainted), servers[key := BackendServer(load, 0)];
            PoolOf(servers', tainted) == pool.(servers := pool.servers[key := load])
    ensures var cur, servers' := CurrentsOf(role, servers, tainted), servers[key := BackendServer(load, 0)];
            CurrentsOf(role, servers', tainted) == cur[key := CurrentEntry(role, servers', tainted, key)]
  {
    var servers' := servers[key := BackendServer(load, 0)];
    assert PoolOf(servers', tainted).servers == PoolOf(servers, tainted).servers[key := load];
    var cur, cur' := CurrentsOf(role, servers, tainted), CurrentsOf(role, servers', tainted);
    assert cur' == cur[key := cur'[key]];
  }

  /** Taints and departures leave every remaining server its key and ordinal. */
  lemma SubsetStaysWellKeyed(role: Role, servers: map<string, BackendServer>, tainted: set<string>,
                             gone: set<string>, tainted': set<string>)
    requires WellKeyed(CurrentsOf(role, servers, tainted))
    ensures WellKeyed(CurrentsOf(role, servers - gone, tainted'))
    ensures PoolOf(servers - gone, tainted') == Pool(PoolOf(servers, tainted).servers - gone, tainted')
  {
    var cur, cur' := CurrentsOf(role, servers, tainted), CurrentsOf(role, servers - gone, tainted');
    assert forall k :: k in cur' ==> k in cur && cur'[k].ordinal == cur[k].ordinal;
    assert PoolOf(servers - gone, tainted').servers == PoolOf(servers, tainted).servers - gone;
  }

  /** Clearing the taint of `key` touches only that key's entry. */
  lemma UntaintIsLocal(role: Role, servers: map<string, BackendServer>, tainted: set<string>, key: string)
    ensures PoolOf(servers, tainted - {key}) == PoolOf(servers, tainted).(tainted := tainted - {key})
    ensures var cur, cur' := CurrentsOf(role, servers, tainted), CurrentsOf(role, servers, tainted - {key});
            && (key !in servers ==> cur' == cur)
            && (key in servers ==> cur' == cur[key := cur[key].(priority := cur'[key].priority)])
  {
    assert PoolOf(servers, tainted - {key}).servers == PoolOf(servers, tainted).servers;
    UntaintKeepsOthers(role, servers, tainted, key);
  }

  lemma UntaintKeepsOthers(role: Role, servers: map<string, BackendServer>, tainted: set<string>, key: string)
    ensures var cur, cur' := CurrentsOf(role, servers, tainted), CurrentsOf(role, servers, tainted - {key});
            && (key !in servers ==> cur' == cur)
            && (key in servers ==> cur' == cur[key := cur[key].(priority := cur'[key].priority)])
  {
    var cur, cur' := CurrentsOf(role, servers, tainted), CurrentsOf(role, servers, tainted - {key});
    forall k | k in servers && k != key
      ensures cur'[k] == cur[k]
    {
      assert k in tainted - {key} <==> k in tainted;
    }
    hide CurrentsOf, CurrentEntry, Priority;
    if key in servers {
      assert cur' == cur[key := cur'[key]];
    }
  }

  /** Progress of a rebuild: `done` keys are in `heap`, under numbers that were bumped if `bump` asks for it. */
  ghost predicate Rebuilding(role: Role, servers: map<string, BackendServer>, tainted: set<string>, bump: bool,
                             live: map<string, BackendServer>, heap: multiset<HeapEntry>, done: set<string>)
  {
    && Renumbered(servers, live, if bump then done else {})
    && PoolOf(live, tainted) == PoolOf(servers, tainted)
    && WellKeyed(CurrentsOf(role, live, tainted))
    && Rebuilt(heap, CurrentsOf(role, live, tainted), done)
  }

  lemma RebuildStart(role: Role, servers: map<string, BackendServer>, tainted: set<string>, bump: bool)
    requires WellKeyed(CurrentsOf(role, servers, tainted))
    ensures Rebuilding(role, servers, tainted, bump, servers, multiset{}, {})
  {
    RebuiltEmpty(CurrentsOf(role, servers, tainted));
  }

  lemma RebuildOne(role: Role, servers: map<string, BackendServer>, tainted: set<string>, bump: bool,
                   live: map<string, BackendServer>, heap: multiset<HeapEntry>, done: set<string>, key: string)
    requires Rebuilding(role, servers, tainted, bump, live, heap, done) && key in servers && key !in done
    ensures key in live
    ensures var live' := if bump then Bump(live, key) else live;
            && key in live'
            && Rebuilding(role, servers, tainted, bump, live',
                          heap + multiset{CurrentEntry(role, live', tainted, key)}, done + {key})
  {
    hide WellKeyed, PoolOf, CurrentsOf, Rebuilt, Priority;
    var cur := CurrentsOf(role, live, tainted);
    BumpIsInvisible(live, tainted, key);
    BumpChangesOneEntry(role, live, tainted, key);
    BumpRenumbers(servers, live, done, key);
    var live' := if bump then Bump(live, key) else live;
    var e := CurrentEntry(role, live', tainted, key);
    assert CurrentsOf(role, live', tainted) == cur[key := e];
    RebuildStep(heap, cur, done, e);
  }

  lemma RebuildDone(role: Role, servers: map<string, BackendServer>, tainted: set<string>, bump: bool,
                    live: map<string, BackendServer>, heap: multiset<HeapEntry>)
    requires Rebuilding(role, servers, tainted, bump, live, heap, servers.Keys)
    ensures var cur := CurrentsOf(role, live, tainted);
            WellKeyed(cur) && Indexed(heap, cur, {}) && |heap| == |live| == |servers|
    ensures PoolOf(live, tainted) == PoolOf(servers, tainted)
    ensures Renumbered(servers, live, if bump then servers.Keys else {})
  {
    RebuiltIsIndex(heap, CurrentsOf(role, live, tainted));
    assert |live.Keys| == |servers.Keys|;
  }

  lemma LeastIsBest(role: Role, servers: map<string, BackendServer>, tainted: set<string>, key: string)
    requires key in servers
    requires var cur := CurrentsOf(role, servers, tainted);
             forall k :: k in cur ==> EntryLe(cur[key], cur[k])
    ensures IsBest(role, PoolOf(servers, tainted), key)
  {
    var pool, cur := PoolOf(servers, tainted), CurrentsOf(role, servers, tainted);
    forall k | k in pool.servers
      ensures NoLater(role, pool, key, k)
    {
      assert EntryLe(cur[key], cur[k]);
    }
  }

  class RolePools {
    const role: Role
    var servers: map<string, BackendServer>
    var heap: multiset<HeapEntry>
    var tainted: set<string>

    constructor (role: Role)
      ensures Valid() && View() == Pool(map[], {}) && this.role == role
    {
      this.role := role;
      servers, heap, tainted := map[], multiset{}, {};
    }

    ghost function View(): Pool
      reads this`servers, this`tainted
    {
      PoolOf(servers, tainted)
    }

    ghost function Currents(): map<string, HeapEntry>
      reads this`servers, this`tainted
    {
      CurrentsOf(role, servers, tainted)
    }

    ghost predicate Valid()
      reads this
    {
      WellKeyed(Currents()) && Indexed(heap, Currents(), {}) && |heap| <= 2 * |servers|
    }

    /** The heap holds between |servers| and 2*|servers| entries. */
    lemma HeapBounds()
      requires Valid()
      ensures |servers| <= |heap| <= 2 * |servers|
    {
      IndexCovers(heap, Currents());
    }

    method HeapPop() returns (e: HeapEntry)
      requires heap != multiset{}
      modifies this`heap
      ensures IsLeast(e, old(heap)) && heap == old(heap) - multiset{e}
    {
      ghost var least := LeastEntry(heap);
      assert IsLeast(least, heap);
      e :| e in heap && forall x :: x in heap ==> EntryLe(e, x);
      heap := heap - multiset{e};
    }

    /** One entry per live server, under the next sequence numbers if `bumpSeq` asks for them. */
    method Rebuild(bumpSeq: bool) returns (live: map<string, BackendServer>, rebuilt: multiset<HeapEntry>)
      requires WellKeyed(CurrentsOf(role, servers, tainted))
      ensures Rebuilding(role, servers, tainted, bumpSeq, live, rebuilt, servers.Keys)
    {
      hide Rebuilding, Bump, CurrentEntry, WellKeyed, CurrentsOf, PoolOf;
      live, rebuilt := servers, multiset{};
      var todo := servers.Keys;
      ghost var done: set<string> := {};
      RebuildStart(role, servers, tainted, bumpSeq);
      while todo != {}
        invariant done + todo == servers.Keys && done !! todo
        invariant Rebuilding(role, servers, tainted, bumpSeq, live, rebuilt, done)
        decreases todo
      {
        var key :| key in todo;
        RebuildOne(role, servers, tainted, bumpSeq, live, rebuilt, done, key);
        if bumpSeq {
          live := Bump(live, key);
        }
        rebuilt := rebuilt + multiset{CurrentEntry(role, live, tainted, key)};
        todo, done := todo - {key}, done + {key};
      }
      assert done == servers.Keys;
    }

    /** Rebuild the heap from the live servers. */
    method ResetHeap(bumpSeq: bool)
      requires WellKeyed(Currents())
      modifies this`heap, this`servers
      ensures Valid() && |heap| == |servers|
      ensures View() == old(View())
      ensures Renumbered(old(servers), servers, if bumpSeq then servers.Keys else {})
    {
      hide Indexed, WellKeyed, CurrentsOf, Rebuilding, PoolOf, Renumbered;
      var live, rebuilt := Rebuild(bumpSeq);
      RebuildDone(role, servers, tainted, bumpSeq, live, rebuilt);
      RenumberedKeys(servers, live, if bumpSeq then servers.Keys else {});
      servers, heap := live, rebuilt;
    }

    /** Make the present state of `key` the one the index holds. */
    method PushHeap(key: string)
      requires key in servers && WellKeyed(Currents())
      requires Indexed(heap, Currents(), {key}) && |heap| <= 2 * |servers|
      modifies this`heap, this`servers
      ensures Valid()
      ensures View() == old(View())
    {
      hide Indexed, WellKeyed, PoolOf, CurrentsOf, Bump;
      BumpIsInvisible(servers, tainted, key);
      BumpChangesOneEntry(role, servers, tainted, key);
      servers := Bump(servers, key);
      var e := CurrentEntry(role, servers, tainted, key);
      PushIndexes(heap, old(Currents()), e);
      heap := heap + multiset{e};
      if |heap| > 2 * |servers| {
        ResetHeap(false);
      }
    }

    /**
     Pop entries until one is current. The lazy heap answers like a search for the
     least live server, within |servers| + 1 pops.
     */
    method PopValid() returns (found: Option<string>, ghost pops: nat)
      requires Valid()
      modifies this`heap
      ensures found.None? <==> servers == map[]
      ensures found.None? ==> Valid()
      ensures found.Some? ==> IsBest(role, View(), found.value) && Indexed(heap, Currents(), {found.value})
      ensures found.Some? ==> found.value in servers && |heap| < 2 * |servers|
      ensures pops <= |servers| + 1
    {
      hide Indexed, WellKeyed, PoolOf, CurrentsOf, IsBest, IsLeast;
      pops := 0;
      while heap != multiset{}
        invariant Valid()
        invariant |heap| + pops == |old(heap)|
        decreases |heap|
      {
        IndexCovers(heap, Currents());
        ghost var before := heap;
        var e := HeapPop();
        PopLeast(before, Currents(), e);
        pops := pops + 1;
        if e.key in servers && servers[e.key].heapSeq == e.seqNo {
          LeastIsBest(role, servers, tainted, e.key);
          found := Some(e.key);
          return;
        }
      }
      IndexCovers(heap, Currents());
      found := None;
    }

    /** Charge the least (priority, ordinal) server, or report that the pool is empty. */
    method PickServer(load: real, activeTokens: bool, kvCache: bool) returns (found: Option<string>)
      requires Valid()
      modifies this`heap, this`servers
      ensures Valid()
      ensures found == Best(role, old(View()))
      ensures View() == if found.None? then old(View())
                        else ChargePool(old(View()), found.value, load, activeTokens, kvCache)
    {
      hide Indexed, WellKeyed, PoolOf, CurrentsOf, IsBest, Reload, Charge;
      ghost var pops;
      ViewFacts();
      found, pops := PopValid();
      if found.None? {
        return;
      }
      BestOf(role, servers, tainted, found.value);
      SetLoad(found.value, Charge(servers[found.value].load, load, activeTokens, kvCache));
      PushHeap(found.value);
    }

    lemma ViewFacts()
      ensures View().tainted == tainted
      ensures servers == map[] <==> Best(role, View()).None?
      ensures View().servers.Keys == servers.Keys
      ensures forall k :: k in servers ==> View().servers[k] == servers[k].load
    {
      assert View().servers.Keys == servers.Keys;
    }

    /** Store a new load for a server the index is about to be told about again. */
    method SetLoad(key: string, load: Load)
      requires key in servers && load.ordinal == servers[key].load.ordinal
      requires WellKeyed(Currents()) && (Indexed(heap, Currents(), {}) || Indexed(heap, Currents(), {key}))
      modifies this`servers
      ensures servers.Keys == old(servers).Keys && |servers| == |old(servers)|
      ensures WellKeyed(Currents()) && Indexed(heap, Currents(), {key})
      ensures View() == old(View()).(servers := old(View()).servers[key := load])
    {
      hide Indexed, WellKeyed, PoolOf, CurrentsOf;
      ReloadChangesOneServer(role, servers, tainted, key, load);
      servers := Reload(servers, key, load);
      ForgetKey(heap, old(Currents()), key, Currents()[key]);
      assert servers.Keys == old(servers).Keys;
    }

    method ReleaseLoad(key: Option<string>, load: real, activeTokens: bool, kvCache: bool)
      requires Valid()
      modifies this`heap, this`servers
      ensures Valid()
      ensures View() == ReleasePool(old(View()), key, load, activeTokens, kvCache)
    {
      hide Indexed, WellKeyed, PoolOf, CurrentsOf, Discharge;
      ViewFacts();
      if key.None? || key.value !in servers {
        return;
      }
      SetLoad(key.value, Discharge(servers[key.value].load, load, activeTokens, kvCache));
      PushHeap(key.value);
    }

    /** Add a live server under an ordinal no other server has. */
    method Join(key: string, load: Load)
      requires Valid() && key !in servers && OrdinalsBelow(View(), load.ordinal)
      modifies this`heap, this`servers
      ensures Valid()
      ensures View() == old(View()).(servers := old(View()).servers[key := load])
    {
      hide Indexed, WellKeyed, PoolOf, CurrentsOf;
      ViewFacts();
      JoinChangesOneServer(role, servers, tainted, key, load);
      servers := servers[key := BackendServer(load, 0)];
      FreshOrdinal(old(servers), load.ordinal);
      JoinKey(heap, old(Currents()), CurrentEntry(role, servers, tainted, key));
      PushHeap(key);
    }

    lemma FreshOrdinal(servers: map<string, BackendServer>, n: nat)
      requires OrdinalsBelow(PoolOf(servers, tainted), n)
      ensures forall k :: k in CurrentsOf(role, servers, tainted) ==> CurrentsOf(role, servers, tainted)[k].ordinal < n
    {
      assert forall k :: k in servers ==> PoolOf(servers, tainted).servers[k] == servers[k].load;
    }

    method Taint(keys: set<string>)
      requires Valid()
      modifies this
      ensures Valid()
      ensures View() == old(View()).(tainted := old(View()).tainted + keys)
    {
      hide Indexed, WellKeyed, CurrentsOf;
      SubsetStaysWellKeyed(role, servers, tainted, {}, tainted + keys);
      assert servers - {} == servers && View().servers - {} == View().servers;
      tainted := tainted + keys;
      ResetHeap(true);
    }

    /** Drop live servers and their taints, then rebuild the heap if any server went. */
    method Drop(keys: set<string>)
      requires Valid()
      modifies this
      ensures Valid()
      ensures View() == DropPool(old(View()), keys)
    {
      hide Indexed, WellKeyed, CurrentsOf;
      SubsetStaysWellKeyed(role, servers, tainted, keys, tainted - keys);
      var removed := exists key :: key in keys && key in servers;
      if removed {
        servers, tainted := servers - keys, tainted - keys;
        ResetHeap(true);
      } else {
        assert servers - keys == servers;
        UntaintAbsent(role, servers, tainted, keys);
        tainted := tainted - keys;
      }
    }

    /** Clear one taint and tell the heap; False is the missing-key failure. */
    method Untaint(key: string) returns (ok: bool)
      requires Valid()
      modifies this
      ensures Valid()
      ensures View() == old(View()).(tainted := old(View()).tainted - {key})
      ensures ok == (key in old(View()).servers)
    {
      hide Indexed, WellKeyed, CurrentsOf;
      UntaintIsLocal(role, servers, tainted, key);
      tainted := tainted - {key};
      ok := key in servers;
      if ok {
        ForgetKey(heap, old(Currents()), key, Currents()[key]);
        PushHeap(key);
      }
    }
  }

  lemma UntaintAbsent(role: Role, servers: map<string, BackendServer>, tainted: set<string>, keys: set<string>)
    requires keys !! servers.Keys
    ensures CurrentsOf(role, servers, tainted - keys) == CurrentsOf(role, servers, tainted)
  {
  }

  class Scheduler {
    const prefillPool: RolePools
    const decodePool: RolePools
    var requestNum: nat
    var waiting: map<string, Waiting>
    var nextOrdinal: nat

    ghost function View(): State
      reads this, prefillPool, decodePool
    {
      State(prefillPool.View(), decodePool.View(), requestNum, waiting, nextOrdinal)
    }

    ghost predicate Valid()
      reads this, prefillPool, decodePool
    {
      && prefillPool != decodePool
      && prefillPool.role == Prefill && decodePool.role == Decode
      && prefillPool.Valid() && decodePool.Valid()
      && OrdinalsBelow(prefillPool.View(), nextOrdinal)
      && OrdinalsBelow(decodePool.View(), nextOrdinal)
    }

    function PoolFor(role: Role): RolePools {
      if role == Prefill then prefillPool else decodePool
    }

    constructor (prefillers: seq<Address>, decoders: seq<Address>)
      ensures Valid() && fresh(prefillPool) && fresh(decodePool)
      ensures View() == Init(prefillers, decoders)
    {
      prefillPool := new RolePools(Prefill);
      decodePool := new RolePools(Decode);
      requestNum, waiting, nextOrdinal := 0, map[], 0;
      new;
      hide AddServers;
      AddAll(Prefill, prefillers);
      AddAll(Decode, decoders);
    }

    method AddAll(role: Role, addrs: seq<Address>)
      requires Valid()
      modifies this`nextOrdinal, prefillPool, decodePool
      ensures Valid()
      ensures View() == AddServers(old(View()), role, addrs)
    {
      hide RolePools.Valid, RolePools.View, OrdinalsBelow, AddServer;
      for i := 0 to |addrs|
        invariant Valid()
        invariant View() == AddServers(old(View()), role, addrs[..i])
      {
        var _ := AddServerNoLock(role, addrs[i]);
        assert addrs[..i + 1][..i] == addrs[..i];
      }
      assert addrs[..|addrs|] == addrs;
    }

    method AddServerNoLock(role: Role, a: Address) returns (added: bool)
      requires Valid()
      modifies this`nextOrdinal, prefillPool, decodePool
      ensures Valid()
      ensures View() == AddServer(old(View()), role, a)
      ensures added == (a.key !in old(View()).RolePool(role).servers)
    {
      hide RolePools.Valid, RolePools.View, OrdinalsBelow;
      var pool := PoolFor(role);
      pool.ViewFacts();
      if a.key in pool.servers {
        return false;
      }
      var ordinal := nextOrdinal;
      JoinKeepsOrdinals(prefillPool.View(), a.key, Load(a.host, a.port, ordinal, 0.0, 0.0));
      JoinKeepsOrdinals(decodePool.View(), a.key, Load(a.host, a.port, ordinal, 0.0, 0.0));
      nextOrdinal := nextOrdinal + 1;
      pool.Join(a.key, Load(a.host, a.port, ordinal, 0.0, 0.0));
      return true;
    }

    method PickServer(role: Role, load: real, activeTokens: bool, kvCache: bool) returns (key: Option<string>)
      requires Valid()
      modifies prefillPool, decodePool
      ensures Valid()
      ensures (View(), key) == SchedulerSpec.PickServer(old(View()), role, load, activeTokens, kvCache)
    {
      hide RolePools.Valid, RolePools.View, OrdinalsBelow, Charge, Discharge;
      var pool := PoolFor(role);
      LoadsKeepOrdinals(pool.View(), Best(role, pool.View()), load, activeTokens, kvCache, nextOrdinal);
      key := pool.PickServer(load, activeTokens, kvCache);
    }

    method BeginRequest(load: real) returns (key: Option<string>)
      requires Valid()
      modifies this`requestNum, prefillPool, decodePool
      ensures Valid()
      ensures (View(), key) == SchedulerSpec.BeginRequest(old(View()), load)
    {
      hide RolePools.Valid, RolePools.View, OrdinalsBelow, Charge, Discharge;
      key := PickServer(Prefill, load, false, true);
      if key.Some? {
        requestNum := requestNum + 1;
      }
    }

    method ReservePrefillKv(load: real) returns (key: Option<string>)
      requires Valid()
      modifies prefillPool, decodePool
      ensures Valid()
      ensures (View(), key) == SchedulerSpec.ReservePrefillKv(old(View()), load)
    {
      hide RolePools.Valid, RolePools.View, OrdinalsBelow, Charge, Discharge;
      key := PickServer(Prefill, load, false, true);
    }

    method PickDecoder(load: real) returns (key: Option<string>)
      requires Valid()
      modifies prefillPool, decodePool
      ensures Valid()
      ensures (View(), key) == SchedulerSpec.PickDecoder(old(View()), load)
    {
      hide RolePools.Valid, RolePools.View, OrdinalsBelow, Charge, Discharge;
      key := PickServer(Decode, load, true, false);
    }

    method ReleasePrefillKv(key: Option<string>, load: real)
      requires Valid()
      modifies prefillPool
      ensures Valid()
      ensures View() == SchedulerSpec.ReleasePrefillKv(old(View()), key, load)
    {
      hide RolePools.Valid, RolePools.View, OrdinalsBelow, Charge, Discharge;
      LoadsKeepOrdinals(prefillPool.View(), key, load, false, true, nextOrdinal);
      prefillPool.ReleaseLoad(key, load, false, true);
    }

    method ReleaseDecoder(key: Option<string>, load: real)
      requires Valid()
      modifies decodePool
      ensures Valid()
      ensures View() == SchedulerSpec.ReleaseDecoder(old(View()), key, load)
    {
      hide RolePools.Valid, RolePools.View, OrdinalsBelow, Charge, Discharge;
      LoadsKeepOrdinals(decodePool.View(), key, load, true, false, nextOrdinal);
      decodePool.ReleaseLoad(key, load, true, false);
    }

    method FinishRequest(pk: Option<string>, pl: real, dk: Option<string>, dl: real, releaseKv: bool)
      requires Valid()
      modifies this`requestNum, prefillPool, decodePool
      ensures Valid()
      ensures View() == SchedulerSpec.FinishRequest(old(View()), pk, pl, dk, dl, releaseKv)
    {
      hide RolePools.Valid, RolePools.View, OrdinalsBelow, Charge, Discharge;
      if releaseKv {
        ReleasePrefillKv(pk, pl);
      }
      ReleaseDecoder(dk, dl);
      if requestNum > 0 {
        requestNum := requestNum - 1;
      }
    }

    method AddInstances(role: Role, addrs: seq<Address>) returns (queued: seq<Address>)
      requires Valid()
      modifies this`waiting
      ensures Valid()
      ensures (View(), queued) == SchedulerSpec.AddInstances(old(View()), role, addrs)
    {
      hide RolePools.Valid, RolePools.View, OrdinalsBelow;
      queued := [];
      PoolFor(role).ViewFacts();
      for i := 0 to |addrs|
        invariant Valid()
        invariant (View(), queued) == SchedulerSpec.AddInstances(old(View()), role, addrs[..i])
      {
        var a := addrs[i];
        assert addrs[..i + 1][..i] == addrs[..i];
        if a.key !in PoolFor(role).servers && a.key !in waiting {
          waiting := waiting[a.key := Waiting(role, a.host, a.port, 0)];
          queued := queued + [a];
        }
      }
      assert addrs[..|addrs|] == addrs;
    }

    method MarkWaitingRetry(key: string, retries: int)
      requires Valid()
      modifies this`waiting
      ensures Valid()
      ensures View() == MarkRetry(old(View()), key, retries)
    {
      hide RolePools.Valid, RolePools.View, OrdinalsBelow;
      if key in waiting {
        waiting := waiting[key := waiting[key].(retries := retries)];
      }
    }

    method DropWaitingInstance(key: string)
      requires Valid()
      modifies this`waiting
      ensures Valid()
      ensures View() == DropWaiting(old(View()), key)
    {
      hide RolePools.Valid, RolePools.View, OrdinalsBelow;
      waiting := waiting - {key};
    }

    /** False marks the KeyError of a tainted key with no live server; the index survives it. */
    method ActivateWaitingInstance(role: Role, a: Address) returns (ok: bool)
      requires Valid()
      modifies this, prefillPool, decodePool
      ensures Valid()
      ensures (View(), ok) == Activate(old(View()), role, a)
    {
      hide RolePools.Valid, OrdinalsBelow;
      waiting := waiting - {a.key};
      var pool := PoolFor(role);
      AdminKeepsOrdinals(pool.View(), {}, pool.tainted - {a.key}, nextOrdinal);
      if a.key in pool.tainted {
        ok := pool.Untaint(a.key);
        return;
      }
      var _ := AddServerNoLock(role, a);
      ok := true;
    }

    method RemoveInstances(role: Role, addrs: seq<Address>) returns (wait: bool)
      requires Valid()
      modifies this`waiting, prefillPool, decodePool
      ensures Valid()
      ensures (View(), wait) == SchedulerSpec.RemoveInstances(old(View()), role, addrs)
    {
      hide RolePools.Valid, RolePools.View, OrdinalsBelow, Keys, DropPool;
      if addrs == [] {
        return false;
      }
      var keys := Keys(addrs);
      var pool := PoolFor(role);
      pool.ViewFacts();
      AdminKeepsOrdinals(pool.View(), keys, pool.tainted - keys, nextOrdinal);
      AdminKeepsOrdinals(pool.View(), {}, pool.tainted + keys, nextOrdinal);
      if requestNum > 0 {
        pool.Taint(keys);
        return true;
      }
      pool.Drop(keys);
      waiting := waiting - keys;
      return false;
    }

    method FinalizeTaintedInstances()
      requires Valid()
      modifies prefillPool, decodePool
      ensures Valid()
      ensures View() == Finalize(old(View()))
    {
      hide RolePools.Valid, RolePools.View, OrdinalsBelow, DropPool;
      if requestNum != 0 {
        return;
      }
      prefillPool.ViewFacts();
      decodePool.ViewFacts();
      AdminKeepsOrdinals(prefillPool.View(), prefillPool.tainted, {}, nextOrdinal);
      AdminKeepsOrdinals(decodePool.View(), decodePool.tainted, {}, nextOrdinal);
      if prefillPool.tainted != {} {
        prefillPool.Drop(prefillPool.tainted);
        prefillPool.ViewFacts();
      } else {
        NothingTainted(prefillPool.View());
      }
      if decodePool.tainted != {} {
        decodePool.Drop(decodePool.tainted);
      } else {
        NothingTainted(decodePool.View());
      }
    }
  }
}
