/**
 The FFN model runner: receive shapes and buffers derived from each control payload, and the cache of
 captured graphs that receive into those buffers when they are replayed.
 */
module FfnGraphCache {
  import opened Topology
  import opened TokenCounts

  /** Token counts per stage. */
  type Metadata = map<int, seq<int>>

  datatype Payload = Payload(metadata: Metadata, capturing: bool, warmup: bool, replaying: bool)

  // ---------------------------------------------------------------- graph keys

  type Key = seq<(int, seq<int>)>

  predicate Names(key: Key, stage: int) {
    exists i :: 0 <= i < |key| && key[i].0 == stage
  }

  /** The stages in ascending order, each with its counts. */
  ghost predicate IsKeyOf(key: Key, m: Metadata) {
    && (forall i, j :: 0 <= i < j < |key| ==> key[i].0 < key[j].0)
    && (forall i :: 0 <= i < |key| ==> key[i].0 in m && m[key[i].0] == key[i].1)
    && (forall stage :: stage in m ==> Names(key, stage))
  }

  lemma NoMembers(s: set<int>)
    requires forall y :: y !in s
    ensures s == {}
  {
    assert forall y :: y in s <==> y in {};
  }

  lemma SomeMember(s: set<int>) returns (x: int)
    requires s != {}
    ensures x in s
  {
    if y :| y in s {
      x := y;
    } else {
      NoMembers(s);
    }
  }

  predicate IsLeast(x: int, s: set<int>) {
    x in s && forall y :: y in s ==> x <= y
  }

  lemma {:induction false} LeastOf(s: set<int>) returns (x: int)
    requires s != {}
    ensures IsLeast(x, s)
  {
    x := SomeMember(s);
    var rest := s - {x};
    if rest == {} {
      assert s == {x};
    } else {
      var z := LeastOf(rest);
      assert s == rest + {x};
      x := if x < z then x else z;
    }
  }

  /** make_ffn_graph_key without aggregation: the metadata itself, in stage order. */
  method MakeFfnGraphKey(m: Metadata) returns (key: Key)
    ensures IsKeyOf(key, m)
  {
    hide Names;
    key := [];
    var left := m.Keys;
    while left != {}
      invariant left <= m.Keys
      invariant forall i, j :: 0 <= i < j < |key| ==> key[i].0 < key[j].0
      invariant forall i :: 0 <= i < |key| ==> key[i].0 in m && m[key[i].0] == key[i].1
      invariant forall i, stage :: 0 <= i < |key| && stage in left ==> key[i].0 < stage
      invariant forall stage :: stage in m ==> stage in left || Names(key, stage)
      decreases |left|
    {
      ghost var least := LeastOf(left);
      assert forall other :: other in left ==> least <= other;
      var stage :| stage in left && forall other :: other in left ==> stage <= other;
      NamesGrow(key, (stage, m[stage]));
      key := key + [(stage, m[stage])];
      left := left - {stage};
    }
  }

  lemma NamesGrow(key: Key, entry: (int, seq<int>))
    ensures forall s :: Names(key + [entry], s) <==> Names(key, s) || s == entry.0
  {
    var grown := key + [entry];
    assert grown[|key|] == entry;
    forall s
      ensures Names(grown, s) <==> Names(key, s) || s == entry.0
    {
      if Names(key, s) {
        var i :| 0 <= i < |key| && key[i].0 == s;
        assert grown[i].0 == s;
      }
    }
  }

  /** Equal keys come from equal metadata... */
  lemma KeyDeterminesMetadata(key: Key, m1: Metadata, m2: Metadata)
    requires IsKeyOf(key, m1) && IsKeyOf(key, m2)
    ensures m1 == m2
  {
    forall stage | stage in m1
      ensures stage in m2 && m1[stage] == m2[stage]
    {
      assert Names(key, stage);
    }
    forall stage | stage in m2
      ensures stage in m1
    {
      assert Names(key, stage);
    }
  }

  /** ... and equal metadata give equal keys. */
  lemma {:induction false} MetadataDeterminesKey(key1: Key, key2: Key, m: Metadata)
    requires IsKeyOf(key1, m) && IsKeyOf(key2, m)
    ensures key1 == key2
    decreases |key1|
  {
    OnlyEmptyHasEmptyKey(key1, m);
    OnlyEmptyHasEmptyKey(key2, m);
    if key1 != [] {
      assert Names(key2, key1[0].0);
      assert Names(key1, key2[0].0);
      assert key1[0] == key2[0];
      var rest := m - {key1[0].0};
      WithoutFirst(key1, m);
      WithoutFirst(key2, m);
      MetadataDeterminesKey(key1[1..], key2[1..], rest);
      assert key1 == [key1[0]] + key1[1..] && key2 == [key2[0]] + key2[1..];
    }
  }

  lemma OnlyEmptyHasEmptyKey(key: Key, m: Metadata)
    requires IsKeyOf(key, m)
    ensures key == [] <==> m == map[]
  {
    if key != [] {
      assert key[0].0 in m;
    } else {
      assert forall stage :: !Names(key, stage);
      NoMembers(m.Keys);
    }
  }

  lemma WithoutFirst(key: Key, m: Metadata)
    requires IsKeyOf(key, m) && key != []
    ensures IsKeyOf(key[1..], m - {key[0].0})
  {
    forall stage | stage in m - {key[0].0}
      ensures Names(key[1..], stage)
    {
      assert Names(key, stage);
      var i :| 0 <= i < |key| && key[i].0 == stage;
      assert key[1..][i - 1].0 == stage;
    }
  }

  // ------------------------------------------------------------------ run modes

  datatype RunMode = Eager | Warmup | Capture | Replay

  function GraphRunMode(warmup: bool, capturing: bool, replaying: bool, enabled: bool, exists_: bool): RunMode {
    if warmup then Warmup
    else if capturing then Capture
    else if replaying && enabled && exists_ then Replay
    else Eager
  }

  // ---------------------------------------------------------------- the runner

  /** A receive buffer; its identity is what a captured graph holds on to. */
  class Buffer {
    const rows: int

    constructor (rows: int)
      ensures this.rows == rows
    {
      this.rows := rows;
    }
  }

  /** A captured graph receives every peer's rows of every stage into a fixed buffer. */
  datatype Graph = Graph(receives: map<(int, int), Buffer>)

  datatype Ran = Replayed(graph: Graph) | Forwarded(receives: map<(int, int), Buffer>) | NoStages | NothingToCapture

  class Runner {
    const attention: int
    const ffn: int
    const rank: int
    const roster: seq<int>
    const enforceEager: bool
    const useGraph: bool
    var tensorTokens: map<int, int>
    var recvTokens: map<(int, int), int>
    var buffers: map<(int, int, int), Buffer>
    var graphs: map<Key, Graph>
    /** The metadata of every capture so far. */
    ghost var captured: set<Metadata>

    constructor (attention: int, ffn: int, rank: int, enforceEager: bool, useGraph: bool)
      requires 0 < ffn <= attention && 0 <= rank < ffn && (useGraph ==> !enforceEager)
      ensures this.attention == attention && this.ffn == ffn && this.rank == rank
      ensures this.enforceEager == enforceEager && this.useGraph == useGraph
      ensures Valid() && captured == {}
    {
      this.attention, this.ffn, this.rank, this.enforceEager, this.useGraph := attention, ffn, rank, enforceEager, useGraph;
      roster := Roster(rank, attention, ffn);
      tensorTokens, recvTokens, buffers, graphs, captured := map[], map[], map[], map[], {};
    }

    predicate Placed() {
      0 < ffn <= attention && 0 <= rank < ffn && roster == Roster(rank, attention, ffn)
    }

    /** The rows peer `src` sends for a stage with these counts. */
    function Rows(counts: seq<int>, src: int): int
      requires 1 <= src < |roster|
    {
      RankTokens(counts, roster[src] - ffn, attention, 1)
    }

    /** The rows of the whole subgroup for a stage with these counts. */
    function AllRows(counts: seq<int>): int
      requires Placed()
    {
      Aggregate(counts, attention, ffn, 1)[rank]
    }

    predicate Slot(m: Metadata, at: (int, int)) {
      at.0 in m && 1 <= at.1 < |roster|
    }

    /** The graph's receives are those of `m`, into the buffers kept for their shapes. */
    ghost predicate Receives(receives: map<(int, int), Buffer>, m: Metadata, kept: map<(int, int, int), Buffer>) {
      && (forall at :: at in receives <==> Slot(m, at))
      && forall at :: at in receives ==>
           var key := (at.0, at.1, Rows(m[at.0], at.1));
           key in kept && receives[at] == kept[key]
    }

    ghost predicate Valid()
      reads this
    {
      && Placed() && (useGraph ==> !enforceEager)
      && (forall key :: key in buffers ==> buffers[key].rows == key.2)
      && (forall key: Key, m: Metadata :: key in graphs && IsKeyOf(key, m) ==>
            m in captured && Receives(graphs[key].receives, m, buffers))
      && (forall key: Key, m: Metadata :: m in captured && IsKeyOf(key, m) ==> key in graphs)
    }

    /** What each peer sends, for the stages of `m` in `stages`. */
    ghost predicate PeerRows(peers: map<(int, int), int>, m: Metadata, stages: set<int>) {
      && (forall at :: at in peers <==> Slot(m, at) && at.0 in stages)
      && forall at :: at in peers ==> peers[at] == Rows(m[at.0], at.1)
    }

    ghost predicate StageRows(totals: map<int, int>, m: Metadata)
      requires Placed()
    {
      forall stage :: stage in totals ==> stage in m && totals[stage] == AllRows(m[stage])
    }

    /** The connector's view of the current payload. */
    ghost predicate Describes(m: Metadata)
      reads this
      requires Placed()
    {
      tensorTokens.Keys == m.Keys && StageRows(tensorTokens, m) && PeerRows(recvTokens, m, m.Keys)
    }

    ghost predicate HasBuffers(m: Metadata)
      reads this
    {
      forall at :: Slot(m, at) ==> (at.0, at.1, Rows(m[at.0], at.1)) in buffers
    }

    /** The Attention ranks of this subgroup. */
    ghost predicate IsPeer(a: int)
      requires 0 < ffn <= attention
    {
      0 <= a < attention && MappingOf(Attention, a, attention, ffn).subgroup == rank
    }

    /** The place of peer `a` in the subgroup, as the peer itself computes it. */
    ghost function PlaceOf(a: int): int
      requires 0 < ffn <= attention && 0 <= a < attention
    {
      MappingOf(Attention, a, attention, ffn).rankInSubgroup
    }

    /** For every stage and every peer, `tokens` has what that peer counts for itself, under the peer's own place. */
    ghost predicate FromEveryPeer(tokens: map<(int, int), int>, m: Metadata)
      requires 0 < ffn <= attention
    {
      forall stage, a :: stage in m && IsPeer(a) ==>
        (stage, PlaceOf(a)) in tokens && tokens[(stage, PlaceOf(a))] == RankTokens(m[stage], a, attention, 1)
    }

    /** For every stage and every peer, the buffer at the peer's place has the rows that peer sends. */
    ghost predicate ExpectsEveryPeer(receives: map<(int, int), Buffer>, m: Metadata)
      requires 0 < ffn <= attention
    {
      forall stage, a :: stage in m && IsPeer(a) ==>
        (stage, PlaceOf(a)) in receives && receives[(stage, PlaceOf(a))].rows == RankTokens(m[stage], a, attention, 1)
    }

    /** The graph receives exactly the rows the payload announces, peer by peer. */
    ghost predicate Fits(graph: Graph, m: Metadata)
      requires 0 < ffn <= attention
    {
      && (forall at :: at in graph.receives <==> Slot(m, at))
      && ExpectsEveryPeer(graph.receives, m)
    }

    lemma PeerAtItsPlace(a: int)
      requires Placed() && IsPeer(a)
      ensures 1 <= PlaceOf(a) < |roster| && forall counts :: Rows(counts, PlaceOf(a)) == RankTokens(counts, a, attention, 1)
    {
      hide RankTokens, BlockStart, Owner;
      WorldRankIsInRoster(Attention, a, attention, ffn);
      assert MappingOf(Attention, a, attention, ffn).roster == roster;
    }

    lemma PeersAreCounted(tokens: map<(int, int), int>, m: Metadata)
      requires Placed() && PeerRows(tokens, m, m.Keys)
      ensures FromEveryPeer(tokens, m)
    {
      hide RankTokens, Rows, Roster;
      forall stage, a | stage in m && IsPeer(a)
        ensures (stage, PlaceOf(a)) in tokens && tokens[(stage, PlaceOf(a))] == RankTokens(m[stage], a, attention, 1)
      {
        PeerAtItsPlace(a);
        assert Slot(m, (stage, PlaceOf(a)));
      }
    }

    lemma PeersAreExpected(receives: map<(int, int), Buffer>, m: Metadata)
      requires Placed() && (forall at :: at in receives <==> Slot(m, at))
      requires forall at :: at in receives ==> Slot(m, at) && receives[at].rows == Rows(m[at.0], at.1)
      ensures ExpectsEveryPeer(receives, m)
    {
      hide RankTokens, Rows, Roster;
      forall stage, a | stage in m && IsPeer(a)
        ensures (stage, PlaceOf(a)) in receives && receives[(stage, PlaceOf(a))].rows == RankTokens(m[stage], a, attention, 1)
      {
        PeerAtItsPlace(a);
        assert Slot(m, (stage, PlaceOf(a)));
      }
    }

    /** update_state_from_dp_metadata on an FFN rank. */
    method UpdateState(m: Metadata)
      requires Valid()
      modifies this`tensorTokens, this`recvTokens, this`buffers
      ensures Valid() && Describes(m) && FromEveryPeer(recvTokens, m)
      ensures tensorTokens.Keys == m.Keys
      ensures forall stage :: stage in m ==> tensorTokens[stage] == Aggregate(m[stage], attention, ffn, 1)[rank]
      ensures forall key :: key in old(buffers) ==> key in buffers && buffers[key] == old(buffers)[key]
      ensures !enforceEager ==> HasBuffers(m)
    {
      hide PeerRows, StageRows, Roster, AllRows, Rows, FromEveryPeer, Receives, IsKeyOf, HasBuffers;
      var tensors, recvs := CountTokens(m);
      PeersAreCounted(recvs, m);
      TotalsAre(tensors, m);
      tensorTokens, recvTokens := tensors, recvs;
      if !enforceEager {
        AllocateBuffers();
        ShapesAreKept(m);
      }
      forall key: Key, other: Metadata | key in graphs && IsKeyOf(key, other)
        ensures Receives(graphs[key].receives, other, buffers)
      {
        ReceivesKept(graphs[key].receives, other, old(buffers), buffers);
      }
    }

    lemma TotalsAre(totals: map<int, int>, m: Metadata)
      requires Placed() && totals.Keys == m.Keys && StageRows(totals, m)
      ensures forall stage :: stage in m ==> totals[stage] == Aggregate(m[stage], attention, ffn, 1)[rank]
    {
      assert forall stage :: stage in m ==> stage in totals;
    }

    lemma ShapesAreKept(m: Metadata)
      requires Placed() && PeerRows(recvTokens, m, m.Keys)
      requires forall at :: at in recvTokens ==> (at.0, at.1, recvTokens[at]) in buffers
      ensures HasBuffers(m)
    {
      hide Rows;
    }

    lemma ReceivesKept(receives: map<(int, int), Buffer>, m: Metadata,
                       kept: map<(int, int, int), Buffer>, later: map<(int, int, int), Buffer>)
      requires Receives(receives, m, kept) && forall key :: key in kept ==> key in later && later[key] == kept[key]
      ensures Receives(receives, m, later)
    {
      hide Rows;
    }

    /** The token counts of every stage and peer. */
    method CountTokens(m: Metadata) returns (tensors: map<int, int>, recvs: map<(int, int), int>)
      requires Placed()
      ensures tensors.Keys == m.Keys && StageRows(tensors, m) && PeerRows(recvs, m, m.Keys)
    {
      hide Roster, AllRows, Rows;
      tensors, recvs := map[], map[];
      var left := m.Keys;
      while left != {}
        invariant left <= m.Keys && tensors.Keys == m.Keys - left
        invariant StageRows(tensors, m) && PeerRows(recvs, m, m.Keys - left)
        decreases |left|
      {
        ghost var some := SomeMember(left);
        var stage :| stage in left;
        var total, peers := StageTokens(m, stage);
        recvs := recvs + peers;
        tensors := tensors[stage := total];
        left := left - {stage};
      }
      assert m.Keys - left == m.Keys;
    }

    lemma PeersAreAll(counts: seq<int>)
      requires Placed()
      ensures AllRows(counts) == SumRange(RankTokensOf(counts, attention, 1), BlockStart(rank, attention, ffn),
                                          BlockStart(rank, attention, ffn) + |roster| - 1)
    {
      hide SumRange;
      AggregateIsPeerTotal(counts, attention, ffn, 1, rank);
    }

    /** One stage: what each peer sends, and their sum. */
    method StageTokens(m: Metadata, stage: int) returns (total: int, peers: map<(int, int), int>)
      requires Placed() && stage in m
      ensures total == AllRows(m[stage]) && PeerRows(peers, m, {stage})
    {
      hide RankTokens, Roster, AllRows, BlockStart;
      total, peers := 0, map[];
      ghost var start := BlockStart(rank, attention, ffn);
      for src := 1 to |roster|
        invariant total == SumRange(RankTokensOf(m[stage], attention, 1), start, start + src - 1)
        invariant forall at :: at in peers <==> at.0 == stage && 1 <= at.1 < src
        invariant forall at :: at in peers ==> peers[at] == Rows(m[stage], at.1)
      {
        peers := peers[(stage, src) := Rows(m[stage], src)];
        total := total + Rows(m[stage], src);
      }
      PeersAreAll(m[stage]);
    }

    /** Keep one buffer for every shape seen; existing buffers stay. */
    method AllocateBuffers()
      requires Placed() && forall key :: key in buffers ==> buffers[key].rows == key.2
      modifies this`buffers
      ensures forall key :: key in old(buffers) ==> key in buffers && buffers[key] == old(buffers)[key]
      ensures forall key :: key in buffers ==> buffers[key].rows == key.2
      ensures forall at :: at in recvTokens ==> (at.0, at.1, recvTokens[at]) in buffers
    {
      var left, kept := recvTokens.Keys, buffers;
      while left != {}
        invariant left <= recvTokens.Keys
        invariant forall key :: key in buffers ==> key in kept && kept[key] == buffers[key]
        invariant forall key :: key in kept ==> kept[key].rows == key.2
        invariant forall at :: at in recvTokens && at !in left ==> (at.0, at.1, recvTokens[at]) in kept
        modifies {}
        decreases |left|
      {
        var at :| at in left;
        var key := (at.0, at.1, recvTokens[at]);
        if key !in kept {
          var buffer := new Buffer(recvTokens[at]);
          kept := kept[key := buffer];
        }
        left := left - {at};
      }
      buffers := kept;
    }

    /** The receives of one layer; every layer makes the same ones. */
    method Forward(m: Metadata) returns (ok: bool, receives: map<(int, int), Buffer>)
      requires Valid() && Describes(m)
      ensures ok <==> m != map[]
      ensures ok && !enforceEager && HasBuffers(m) ==> Receives(receives, m, buffers)
      ensures ok ==> forall at :: at in receives <==> Slot(m, at)
      ensures ok ==> forall at :: at in receives ==> receives[at].rows == Rows(m[at.0], at.1)
      ensures ok ==> ExpectsEveryPeer(receives, m)
    {
      hide BlockStart, Roster, AllRows, Rows, ExpectsEveryPeer;
      receives := map[];
      if m == map[] {
        return false, receives;
      }
      var left := m.Keys;
      while left != {}
        invariant left <= m.Keys
        invariant forall at :: at in receives <==> Slot(m, at) && at.0 !in left
        invariant forall at :: at in receives ==> receives[at].rows == Rows(m[at.0], at.1)
        invariant !enforceEager && HasBuffers(m) ==>
                    forall at :: at in receives ==> receives[at] == buffers[(at.0, at.1, Rows(m[at.0], at.1))]
        modifies {}
        decreases |left|
      {
        ghost var some := SomeMember(left);
        var stage :| stage in left;
        var own := ReceiveStage(m, stage);
        receives := receives + own;
        left := left - {stage};
      }
      PeersAreExpected(receives, m);
      return true, receives;
    }

    /** recv_attn_output: each peer into the kept buffer of its shape, or into a new one. */
    method ReceiveStage(m: Metadata, stage: int) returns (own: map<(int, int), Buffer>)
      requires Valid() && Describes(m) && stage in m
      ensures forall at :: at in own <==> Slot(m, at) && at.0 == stage
      ensures forall at :: at in own ==> own[at].rows == Rows(m[at.0], at.1)
      ensures !enforceEager && HasBuffers(m) ==>
                forall at :: at in own ==> own[at] == buffers[(at.0, at.1, Rows(m[at.0], at.1))]
    {
      hide BlockStart, Roster, AllRows, Rows;
      own := map[];
      for src := 1 to |roster|
        invariant forall at :: at in own <==> at.0 == stage && 1 <= at.1 < src
        invariant forall at :: at in own ==> own[at].rows == Rows(m[stage], at.1)
        invariant !enforceEager && HasBuffers(m) ==>
                    forall at :: at in own ==> own[at] == buffers[(at.0, at.1, Rows(m[stage], at.1))]
      {
        assert Slot(m, (stage, src));
        var tokens := recvTokens[(stage, src)];
        var key := (stage, src, tokens);
        var buffer;
        if !enforceEager && key in buffers {
          buffer := buffers[key];
        } else {
          buffer := new Buffer(tokens);
        }
        own := own[(stage, src) := buffer];
      }
    }

    /** execute_model: replay a captured graph, or run the forward. */
    method ExecuteModel(p: Payload) returns (r: Ran)
      requires Valid()
      modifies this`tensorTokens, this`recvTokens, this`buffers
      ensures Valid()
      ensures r.Replayed? <==> !p.warmup && !p.capturing && p.replaying && useGraph && p.metadata in captured
      ensures r.Replayed? ==>
                && unchanged(this)
                && Receives(r.graph.receives, p.metadata, buffers)
                && Fits(r.graph, p.metadata)
      ensures r.NoStages? <==> !r.Replayed? && p.metadata == map[]
      ensures r.Forwarded? ==>
                && Describes(p.metadata) && FromEveryPeer(recvTokens, p.metadata)
                && (forall at :: at in r.receives <==> Slot(p.metadata, at)) && ExpectsEveryPeer(r.receives, p.metadata)
      ensures !r.NothingToCapture?
      ensures forall key :: key in old(buffers) ==> key in buffers && buffers[key] == old(buffers)[key]
    {
      hide FromEveryPeer, ExpectsEveryPeer;
      var key := MakeFfnGraphKey(p.metadata);
      var mode := GraphRunMode(p.warmup, p.capturing, p.replaying, useGraph, key in graphs);
      if mode == Replay {
        PeersAreExpected(graphs[key].receives, p.metadata);
        return Replayed(graphs[key]);
      }
      UpdateState(p.metadata);
      var ok, receives := Forward(p.metadata);
      return if ok then Forwarded(receives) else NoStages;
    }

    /** capture_model: warm up, or capture a graph for the payload's metadata. */
    method CaptureModel(p: Payload) returns (r: Ran)
      requires Valid()
      modifies this
      ensures Valid()
      ensures r.NothingToCapture? <==> !useGraph
      ensures r.NothingToCapture? ==> unchanged(this)
      ensures r.NoStages? <==> useGraph && p.metadata == map[]
      ensures captured == old(captured) + if useGraph && !p.warmup && p.metadata != map[] then {p.metadata} else {}
      ensures !r.Replayed?
      ensures forall key :: key in old(buffers) ==> key in buffers && buffers[key] == old(buffers)[key]
    {
      if !useGraph {
        return NothingToCapture;
      }
      var key := MakeFfnGraphKey(p.metadata);
      UpdateState(p.metadata);
      var ok, receives := Forward(p.metadata);
      if !ok {
        return NoStages;
      }
      if !p.warmup {
        Store(key, p.metadata, receives);
      }
      return Forwarded(receives);
    }

    method Store(key: Key, m: Metadata, receives: map<(int, int), Buffer>)
      requires Valid() && IsKeyOf(key, m) && Receives(receives, m, buffers)
      modifies this`graphs, this`captured
      ensures Valid() && captured == old(captured) + {m}
    {
      graphs := graphs[key := Graph(receives)];
      captured := captured + {m};
      forall other: Metadata | IsKeyOf(key, other)
        ensures other == m
      {
        KeyDeterminesMetadata(key, other, m);
      }
      forall otherKey: Key | IsKeyOf(otherKey, m)
        ensures otherKey == key
      {
        MetadataDeterminesKey(otherKey, key, m);
      }
    }

    /** One turn of the FFN server loop. */
    method Step(p: Payload) returns (r: Ran)
      requires Valid()
      modifies this
      ensures Valid()
      ensures r.Replayed? <==> !p.warmup && !p.capturing && p.replaying && useGraph && p.metadata in old(captured)
      ensures r.Replayed? ==>
                && unchanged(this)
                && Receives(r.graph.receives, p.metadata, buffers)
                && Fits(r.graph, p.metadata)
      ensures captured == old(captured)
                          + if useGraph && p.capturing && !p.warmup && p.metadata != map[] then {p.metadata} else {}
      ensures forall key :: key in old(buffers) ==> key in buffers && buffers[key] == old(buffers)[key]
    {
      if useGraph && (p.warmup || p.capturing) {
        r := CaptureModel(p);
      } else {
        r := ExecuteModel(p);
      }
    }

    /** One of the first `n` payloads captured a graph for `m`. */
    static ghost predicate CapturedWithin(payloads: seq<Payload>, n: nat, m: Metadata) {
      exists j :: 0 <= j < n && j < |payloads| && payloads[j].metadata == m && payloads[j].capturing && !payloads[j].warmup
    }

    /** No kept buffer is dropped or replaced by another object. */
    static ghost predicate Grows(kept: map<(int, int, int), Buffer>, later: map<(int, int, int), Buffer>) {
      forall key :: key in kept ==> key in later && later[key] == kept[key]
    }

    /** Every map of `kept` grows into every later one and into `last`. */
    static ghost predicate AllGrow(kept: seq<map<(int, int, int), Buffer>>, last: map<(int, int, int), Buffer>) {
      && (forall i, j :: 0 <= i <= j < |kept| ==> Grows(kept[i], kept[j]))
      && (forall i :: 0 <= i < |kept| ==> Grows(kept[i], last))
    }

    static lemma GrowsOn(kept: seq<map<(int, int, int), Buffer>>, last: map<(int, int, int), Buffer>,
                         next: map<(int, int, int), Buffer>)
      requires AllGrow(kept, last) && forall key :: key in last ==> key in next && next[key] == last[key]
      ensures AllGrow(kept + [next], next)
    {
      forall i | 0 <= i < |kept|
        ensures Grows(kept[i], next)
      {
        assert Grows(kept[i], last);
      }
    }

    static lemma CapturesGrow(payloads: seq<Payload>, n: nat, known: set<Metadata>, captured: set<Metadata>)
      requires n < |payloads| && forall m :: m in known ==> CapturedWithin(payloads, n, m)
      requires forall m :: m in captured ==>
                 m in known || (m == payloads[n].metadata && payloads[n].capturing && !payloads[n].warmup)
      ensures forall m :: m in captured ==> CapturedWithin(payloads, n + 1, m)
    {
    }

    /** Payload `i` was served by replaying `graph`, captured earlier, on the buffers kept then. */
    ghost predicate Served(payloads: seq<Payload>, i: nat, graph: Graph, kept: map<(int, int, int), Buffer>)
      requires i < |payloads| && 0 < ffn <= attention
    {
      && Fits(graph, payloads[i].metadata)
      && payloads[i].replaying && CapturedWithin(payloads, i, payloads[i].metadata)
      && Receives(graph.receives, payloads[i].metadata, kept)
    }

    /**
     The FFN server loop over any sequence of payloads, starting with no graphs. `kept[i]` is the buffer
     map when payload `i` was served: a replayed graph receives into the objects kept then.
     */
    method Serve(payloads: seq<Payload>) returns (ran: seq<Ran>, ghost kept: seq<map<(int, int, int), Buffer>>)
      requires Valid() && captured == {}
      modifies this
      ensures Valid() && |ran| == |kept| == |payloads|
      ensures forall i :: 0 <= i < |ran| && ran[i].Replayed? ==>
                && Fits(ran[i].graph, payloads[i].metadata)
                && payloads[i].replaying && CapturedWithin(payloads, i, payloads[i].metadata)
                && Receives(ran[i].graph.receives, payloads[i].metadata, kept[i])
      ensures forall i, j :: 0 <= i <= j < |kept| ==> Grows(kept[i], kept[j])
      ensures forall i :: 0 <= i < |kept| ==> Grows(kept[i], buffers)
    {
      assert 0 < ffn <= attention;
      hide Valid, Rows, Receives, Fits, Grows, CapturedWithin;
      ran, kept := [], [];
      for n := 0 to |payloads|
        invariant Valid() && |ran| == |kept| == n
        invariant AllGrow(kept, buffers)
        invariant forall m :: m in captured ==> CapturedWithin(payloads, n, m)
        invariant forall i :: 0 <= i < n && ran[i].Replayed? ==> Served(payloads, i, ran[i].graph, kept[i])
      {
        ghost var known, before := captured, buffers;
        var r := Step(payloads[n]);
        GrowsOn(kept, before, buffers);
        ran, kept := ran + [r], kept + [buffers];
        CapturesGrow(payloads, n, known, captured);
      }
    }
  }
}
