/**
 A lazily deleted heap as a value: a multiset of entries beside the map `cur` of the
 one entry that stands for each live key now. `heapq` is modelled as a multiset whose
 pop removes a least entry.
 */
module HeapIndex {

  datatype HeapEntry = HeapEntry(priority: real, ordinal: nat, seqNo: nat, key: string)

  /** Tuple order up to the sequence number; `NoTies` shows keys are never compared. */
  predicate EntryLe(a: HeapEntry, b: HeapEntry) {
    || a.priority < b.priority
    || (a.priority == b.priority && a.ordinal < b.ordinal)
    || (a.priority == b.priority && a.ordinal == b.ordinal && a.seqNo <= b.seqNo)
  }

  ghost predicate IsLeast(e: HeapEntry, heap: multiset<HeapEntry>) {
    e in heap && forall x :: x in heap ==> EntryLe(e, x)
  }

  lemma LeastEntry(heap: multiset<HeapEntry>) returns (e: HeapEntry)
    requires heap != multiset{}
    ensures IsLeast(e, heap)
    decreases |heap|
  {
    e :| e in heap;
    var rest := heap[e := 0];
    if rest != multiset{} {
      var r := LeastEntry(rest);
      if !EntryLe(e, r) {
        e := r;
      }
    }
    forall x | x in heap
      ensures EntryLe(e, x)
    {
      assert x in rest || rest[x] != heap[x];
    }
  }

  /** Every live key names itself and has an ordinal of its own. */
  ghost predicate WellKeyed(cur: map<string, HeapEntry>) {
    && (forall k :: k in cur ==> cur[k].key == k)
    && (forall a, b :: a in cur && b in cur && a != b ==> cur[a].ordinal != cur[b].ordinal)
  }

  lemma StaysWellKeyed(cur: map<string, HeapEntry>, e: HeapEntry)
    requires WellKeyed(cur) && e.key in cur && e.ordinal == cur[e.key].ordinal
    ensures WellKeyed(cur[e.key := e])
  {
  }

  /** Each live key outside `skip` has exactly one current entry; all other entries are older. */
  ghost predicate Indexed(heap: multiset<HeapEntry>, cur: map<string, HeapEntry>, skip: set<string>) {
    && (forall k :: k in cur && k !in skip ==> heap[cur[k]] == 1)
    && (forall e :: e in heap ==> Explained(e, cur, skip))
  }

  ghost predicate Explained(e: HeapEntry, cur: map<string, HeapEntry>, skip: set<string>) {
    && e.key in cur
    && e.seqNo <= cur[e.key].seqNo
    && e.ordinal == cur[e.key].ordinal
    && (e.key !in skip && e.seqNo == cur[e.key].seqNo ==> e == cur[e.key])
  }

  /** Two entries that tie in the modelled order are the same entry. */
  lemma NoTies(heap: multiset<HeapEntry>, cur: map<string, HeapEntry>, a: HeapEntry, b: HeapEntry)
    requires WellKeyed(cur) && Indexed(heap, cur, {})
    requires a in heap && b in heap && EntryLe(a, b) && EntryLe(b, a)
    ensures a == b
  {
    assert Explained(a, cur, {}) && Explained(b, cur, {});
    assert cur[a.key].ordinal == cur[b.key].ordinal;
    assert a.key == b.key;
  }

  /** The heap never holds fewer entries than there are live keys. */
  lemma EnoughEntries(heap: multiset<HeapEntry>, cur: map<string, HeapEntry>, keys: set<string>)
    requires WellKeyed(cur) && keys <= cur.Keys
    requires forall k :: k in keys ==> heap[cur[k]] >= 1
    ensures |keys| <= |heap|
    decreases keys
  {
    if keys != {} {
      var k :| k in keys;
      var rest := heap - multiset{cur[k]};
      forall j | j in keys - {k}
        ensures rest[cur[j]] >= 1
      {
        assert cur[j].key == j && cur[k].key == k;
      }
      EnoughEntries(rest, cur, keys - {k});
      assert |rest| == |heap| - 1;
      assert |keys - {k}| == |keys| - 1;
    }
  }

  /** An index never holds fewer entries than there are live keys. */
  lemma IndexCovers(heap: multiset<HeapEntry>, cur: map<string, HeapEntry>)
    requires WellKeyed(cur) && Indexed(heap, cur, {})
    ensures |cur| <= |heap|
    ensures cur == map[] ==> heap == multiset{}
  {
    EnoughEntries(heap, cur, cur.Keys);
    assert forall e :: e in heap ==> Explained(e, cur, {});
  }

  /** Pushing a newer entry for `key` makes it the key's current entry. */
  lemma PushIndexes(heap: multiset<HeapEntry>, cur: map<string, HeapEntry>, e: HeapEntry)
    requires WellKeyed(cur) && e.key in cur && Indexed(heap, cur, {e.key})
    requires e.seqNo == cur[e.key].seqNo + 1 && e.ordinal == cur[e.key].ordinal
    ensures WellKeyed(cur[e.key := e]) && Indexed(heap + multiset{e}, cur[e.key := e], {})
  {
  }

  /** A key whose priority changes is the only one the index no longer accounts for. */
  lemma ForgetKey(heap: multiset<HeapEntry>, cur: map<string, HeapEntry>, key: string, now: HeapEntry)
    requires WellKeyed(cur) && key in cur
    requires Indexed(heap, cur, {}) || Indexed(heap, cur, {key})
    requires now == cur[key].(priority := now.priority)
    ensures WellKeyed(cur[key := now]) && Indexed(heap, cur[key := now], {key})
  {
  }

  /** A key that joins starts without entries. */
  lemma JoinKey(heap: multiset<HeapEntry>, cur: map<string, HeapEntry>, e: HeapEntry)
    requires WellKeyed(cur) && e.key !in cur && Indexed(heap, cur, {})
    requires forall k :: k in cur ==> cur[k].ordinal != e.ordinal
    ensures WellKeyed(cur[e.key := e]) && Indexed(heap, cur[e.key := e], {e.key})
  {
  }

  /**
   Popping a least entry: an old one leaves an index behind; the first one that
   carries its key's sequence number is that key's current entry and the least of all.
   */
  lemma PopLeast(heap: multiset<HeapEntry>, cur: map<string, HeapEntry>, e: HeapEntry)
    requires WellKeyed(cur) && Indexed(heap, cur, {}) && IsLeast(e, heap)
    ensures e.key in cur
    ensures e.seqNo != cur[e.key].seqNo ==> Indexed(heap - multiset{e}, cur, {})
    ensures e.seqNo == cur[e.key].seqNo ==>
              && Indexed(heap - multiset{e}, cur, {e.key})
              && forall k :: k in cur ==> EntryLe(cur[e.key], cur[k])
  {
    assert Explained(e, cur, {});
    assert forall k :: k in cur ==> heap[cur[k]] == 1;
  }

  /** `heap` holds the current entry of each key in `done` and nothing else. */
  ghost predicate Rebuilt(heap: multiset<HeapEntry>, cur: map<string, HeapEntry>, done: set<string>) {
    && done <= cur.Keys
    && (forall k :: k in done ==> heap[cur[k]] == 1)
    && (forall e :: e in heap ==> e.key in done && e == cur[e.key])
    && |heap| == |done|
  }

  lemma RebuiltEmpty(cur: map<string, HeapEntry>)
    ensures Rebuilt(multiset{}, cur, {})
  {
  }

  lemma RebuildStep(heap: multiset<HeapEntry>, cur: map<string, HeapEntry>, done: set<string>, e: HeapEntry)
    requires WellKeyed(cur) && Rebuilt(heap, cur, done) && e.key in cur && e.key !in done
    ensures Rebuilt(heap + multiset{e}, cur[e.key := e], done + {e.key})
  {
    assert e !in heap;
  }

  /** One entry per key, all current, is an index as small as the pool. */
  lemma RebuiltIsIndex(heap: multiset<HeapEntry>, cur: map<string, HeapEntry>)
    requires WellKeyed(cur) && Rebuilt(heap, cur, cur.Keys)
    ensures Indexed(heap, cur, {}) && |heap| == |cur|
  {
  }
}
