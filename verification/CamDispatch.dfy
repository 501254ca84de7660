/**
 The rank-local payload of one CAM dispatch, and the way back from its result.

 With sequence parallelism, or on a single rank, a rank dispatches the rows it holds. Under
 plain tensor parallelism every rank holds a copy of the same rows, and only the dispatch
 divides them, so that each token is sent once.
 */
module CamDispatch {
  import opened Arith
  import opened Rows
  import opened CamLayout

  datatype Layout = Layout(parentTokens: nat, paddedTokens: nat, start: nat, stop: nat, needsGather: bool) {
    function LocalTokens(): int {
      stop - start
    }
  }

  datatype Payload<H, K> = Payload(hidden: seq<H>, routes: seq<K>, layout: Layout)

  /** `n` tokens rounded up so that `d` ranks can share them evenly. */
  function PaddedTo(n: nat, d: nat): (m: nat)
    requires d > 0
    ensures n <= m < n + d && m % d == 0
  {
    CeilDivCovers(n, d);
    Multiple(d, CeilDiv(n, d));
    assert d * CeilDiv(n, d) == CeilDiv(n, d) * d;
    CeilDiv(n, d) * d
  }

  predicate PassesThrough(sp: bool, tp: nat) {
    sp || tp <= 1
  }

  /** prepare_cam_dispatch_payload on rank `rank`. */
  function PrepareDispatch<H, K>(hidden: seq<H>, routes: seq<K>, sp: bool, tp: nat, rank: nat, zh: H, zk: K)
    : (r: Checked<Payload<H, K>>)
    requires rank < tp
  {
    var n := |hidden|;
    if |routes| != n then Raised(RouteRows)
    else if PassesThrough(sp, tp) then Fine(Payload(hidden, routes, Layout(n, n, 0, n, false)))
    else
      CeilDivCovers(n, tp);
      var local := CeilDiv(n, tp);
      var padded := PaddedTo(n, tp);
      SliceFitsPadded(local, tp, rank);
      var lo, hi := rank * local, rank * local + local;
      Fine(Payload(Pad(hidden, padded, zh)[lo..hi], Pad(routes, padded, zk)[lo..hi], Layout(n, padded, lo, hi, true)))
  }

  /** Routes must match the rows; with sequence parallelism or one rank, a rank sends what it holds and gathers nothing. */
  lemma OwnRowsPassThrough<H, K>(hidden: seq<H>, routes: seq<K>, sp: bool, tp: nat, rank: nat, zh: H, zk: K)
    requires rank < tp
    ensures var r := PrepareDispatch(hidden, routes, sp, tp, rank, zh, zk);
            && (r.Raised? <==> |routes| != |hidden|)
            && (r.Fine? && (sp || tp == 1) ==>
                  && r.value.hidden == hidden && r.value.routes == routes && !r.value.layout.needsGather
                  && r.value.layout.start == 0 && r.value.layout.stop == r.value.layout.parentTokens == |hidden|)
  {
  }

  lemma SliceFitsPadded(local: nat, tp: nat, rank: nat)
    requires rank < tp
    ensures 0 <= rank * local && rank * local + local <= local * tp
  {
    MulMonotone(rank + 1, tp, local);
    assert (rank + 1) * local == rank * local + local;
  }

  /** restore_cam_dispatch_output on rank `rank`, given what every rank received. */
  function RestoreDispatch<H>(received: Group<H>, layout: Layout, rank: nat): Checked<seq<H>>
    requires rank < |received| && layout.parentTokens <= layout.paddedTokens
  {
    if |received[rank]| != layout.LocalTokens() then Raised(PayloadRows)
    else if !layout.needsGather then Fine(received[rank])
    else if |Gather(received)| != layout.paddedTokens then Raised(GatheredRows)
    else Fine(Gather(received)[..layout.parentTokens])
  }

  // ------------------------------------------------------ rows with their routes

  /** A function of a row and its route, on every row. */
  function Apply<H, K, B>(g: (H, K) -> B, hidden: seq<H>, routes: seq<K>): (r: seq<B>)
    requires |hidden| == |routes|
    ensures |r| == |hidden| && forall i :: 0 <= i < |r| ==> r[i] == g(hidden[i], routes[i])
  {
    seq(|hidden|, i requires 0 <= i < |hidden| => g(hidden[i], routes[i]))
  }

  predicate RowsAgree<H, K>(hidden: Group<H>, routes: Group<K>) {
    |hidden| == |routes| && forall r :: 0 <= r < |hidden| ==> |hidden[r]| == |routes[r]|
  }

  function ApplyGroup<H, K, B>(g: (H, K) -> B, hidden: Group<H>, routes: Group<K>): (a: Group<B>)
    requires RowsAgree(hidden, routes)
    ensures |a| == |hidden| && forall r :: 0 <= r < |a| ==> a[r] == Apply(g, hidden[r], routes[r])
  {
    seq(|hidden|, r requires 0 <= r < |hidden| => Apply(g, hidden[r], routes[r]))
  }

  // ------------------------------------------------------------- whole group

  /** Every rank's payload. */
  function Payloads<H, K>(hidden: Group<H>, routes: Group<K>, sp: bool, zh: H, zk: K): (p: seq<Payload<H, K>>)
    requires RowsAgree(hidden, routes)
    ensures |p| == |hidden|
    ensures forall r :: 0 <= r < |p| ==> PrepareDispatch(hidden[r], routes[r], sp, |hidden|, r, zh, zk) == Fine(p[r])
  {
    seq(|hidden|, r requires 0 <= r < |hidden| => PrepareDispatch(hidden[r], routes[r], sp, |hidden|, r, zh, zk).value)
  }

  function SentHidden<H, K>(p: seq<Payload<H, K>>): (g: Group<H>)
    ensures |g| == |p| && forall r :: 0 <= r < |p| ==> g[r] == p[r].hidden
  {
    seq(|p|, r requires 0 <= r < |p| => p[r].hidden)
  }

  function SentRoutes<H, K>(p: seq<Payload<H, K>>): (g: Group<K>)
    ensures |g| == |p| && forall r :: 0 <= r < |p| ==> g[r] == p[r].routes
  {
    seq(|p|, r requires 0 <= r < |p| => p[r].routes)
  }

  function LayoutsOf<H, K>(p: seq<Payload<H, K>>): (g: seq<Layout>)
    ensures |g| == |p| && forall r :: 0 <= r < |p| ==> g[r] == p[r].layout
  {
    seq(|p|, r requires 0 <= r < |p| => p[r].layout)
  }

  ghost predicate Padded(layouts: seq<Layout>) {
    forall r :: 0 <= r < |layouts| ==> layouts[r].parentTokens <= layouts[r].paddedTokens
  }

  ghost predicate AllRestore<H>(received: Group<H>, layouts: seq<Layout>) {
    && |received| == |layouts| && Padded(layouts)
    && forall k :: 0 <= k < |layouts| ==> RestoreDispatch(received, layouts[k], k).Fine?
  }

  ghost function RestoredRows<H>(received: Group<H>, layouts: seq<Layout>): (g: Group<H>)
    requires AllRestore(received, layouts)
    ensures |g| == |layouts| && forall k :: 0 <= k < |g| ==> RestoreDispatch(received, layouts[k], k) == Fine(g[k])
  {
    seq(|layouts|, k requires 0 <= k < |layouts| => RestoreDispatch(received, layouts[k], k).value)
  }

  /** restore_cam_dispatch_output on every rank; the first rank that refuses stops the group. */
  method RestoreAll<H>(received: Group<H>, layouts: seq<Layout>) returns (r: Checked<Group<H>>)
    requires |received| == |layouts| && Padded(layouts)
    ensures r.Fine? <==> AllRestore(received, layouts)
    ensures r.Fine? <==> forall k :: 0 <= k < |layouts| ==>
              && |received[k]| == layouts[k].stop - layouts[k].start
              && (layouts[k].needsGather ==> |Gather(received)| == layouts[k].paddedTokens)
    ensures r.Fine? ==> r.value == RestoredRows(received, layouts)
  {
    var restored: Group<H> := [];
    for rank := 0 to |layouts|
      invariant |restored| == rank
      invariant forall k :: 0 <= k < rank ==> RestoreDispatch(received, layouts[k], k) == Fine(restored[k])
    {
      var local := RestoreDispatch(received, layouts[rank], rank);
      if local.Raised? {
        return Raised(local.guard);
      }
      restored := restored + [local.value];
    }
    return Fine(restored);
  }

  lemma PayloadRowsAgree<H, K>(hidden: Group<H>, routes: Group<K>, sp: bool, zh: H, zk: K)
    requires RowsAgree(hidden, routes)
    ensures var p := Payloads(hidden, routes, sp, zh, zk);
            && RowsAgree(SentHidden(p), SentRoutes(p)) && Padded(LayoutsOf(p))
            && forall r :: 0 <= r < |p| ==> && |p[r].hidden| == p[r].layout.LocalTokens()
                                            && p[r].layout.parentTokens <= p[r].layout.paddedTokens
  {
    forall r | 0 <= r < |hidden|
      ensures var q := PrepareDispatch(hidden[r], routes[r], sp, |hidden|, r, zh, zk).value;
              && |q.hidden| == |q.routes| == q.layout.LocalTokens()
              && q.layout.parentTokens <= q.layout.paddedTokens
    {
      CeilDivCovers(|hidden[r]|, |hidden|);
      SliceFitsPadded(CeilDiv(|hidden[r]|, |hidden|), |hidden|, r);
    }
  }

  /**
   Under plain tensor parallelism the payloads in rank order are the replicated rows followed by
   fewer than `tp` zero rows: each token is dispatched by exactly one rank.
   */
  lemma EachTokenDispatchedOnce<H, K>(hidden: Group<H>, routes: Group<K>, n: nat, zh: H, zk: K)
    requires |hidden| > 1 && RowsAgree(hidden, routes)
    requires Coherent(hidden, |hidden|, n, false) && Coherent(routes, |hidden|, n, false)
    ensures var tp, padded := |hidden|, PaddedTo(n, |hidden|);
            var p := Payloads(hidden, routes, false, zh, zk);
            && n <= padded < n + tp
            && SentHidden(p) == Shards(Pad(hidden[0], padded, zh), tp)
            && SentRoutes(p) == Shards(Pad(routes[0], padded, zk), tp)
            && Gather(SentHidden(p)) == Pad(hidden[0], padded, zh)
            && Gather(SentRoutes(p)) == Pad(routes[0], padded, zk)
            && forall r :: 0 <= r < tp ==>
                 && 0 <= p[r].layout.start <= p[r].layout.stop <= padded
                 && p[r].hidden == Pad(hidden[0], padded, zh)[p[r].layout.start..p[r].layout.stop]
                 && p[r].layout.start == r * (padded / tp) && p[r].layout.parentTokens == n
  {
    var tp, padded := |hidden|, PaddedTo(n, |hidden|);
    var allHidden, allRoutes := Pad(hidden[0], padded, zh), Pad(routes[0], padded, zk);
    var p := Payloads(hidden, routes, false, zh, zk);
    forall r | 0 <= r < tp
      ensures p[r].hidden == Shard(allHidden, tp, r)
      ensures p[r].routes == Shard(allRoutes, tp, r)
      ensures 0 <= p[r].layout.start <= p[r].layout.stop <= padded
      ensures p[r].hidden == allHidden[p[r].layout.start..p[r].layout.stop]
      ensures p[r].layout.start == r * (padded / tp) && p[r].layout.parentTokens == n
    {
      PayloadIsShard(hidden[0], routes[0], tp, r, zh, zk);
    }
    SentAre(p, Shards(allHidden, tp), Shards(allRoutes, tp));
    GatherOfShards(allHidden, tp);
    GatherOfShards(allRoutes, tp);
  }

  lemma SentAre<H, K>(p: seq<Payload<H, K>>, hidden: Group<H>, routes: Group<K>)
    requires |p| == |hidden| == |routes|
    requires forall r :: 0 <= r < |p| ==> p[r].hidden == hidden[r] && p[r].routes == routes[r]
    ensures SentHidden(p) == hidden && SentRoutes(p) == routes
  {
  }

  lemma PayloadIsShard<H, K>(hidden: seq<H>, routes: seq<K>, tp: nat, r: nat, zh: H, zk: K)
    requires |hidden| == |routes| && r < tp && tp > 1
    ensures var padded := PaddedTo(|hidden|, tp);
            var q := PrepareDispatch(hidden, routes, false, tp, r, zh, zk);
            && q.Fine?
            && q.value.hidden == Shard(Pad(hidden, padded, zh), tp, r)
            && q.value.routes == Shard(Pad(routes, padded, zk), tp, r)
            && 0 <= q.value.layout.start <= q.value.layout.stop <= padded
            && q.value.hidden == Pad(hidden, padded, zh)[q.value.layout.start..q.value.layout.stop]
            && q.value.layout.start == r * (padded / tp) && q.value.layout.parentTokens == |hidden|
  {
    CeilDivCovers(|hidden|, tp);
    var local := CeilDiv(|hidden|, tp);
    hide CeilDiv;
    Multiple(tp, local);
    assert local * tp == tp * local;
    SliceFitsPadded(local, tp, r);
    assert (r + 1) * local == r * local + local;
  }

  lemma ApplyToShard<H, K, B>(g: (H, K) -> B, hidden: seq<H>, routes: seq<K>, tp: nat, r: nat)
    requires |hidden| == |routes| && r < tp && |hidden| % tp == 0
    ensures Apply(g, Shard(hidden, tp, r), Shard(routes, tp, r)) == Shard(Apply(g, hidden, routes), tp, r)
  {
    ShardFits(|hidden|, tp, r);
  }

  /** What a rank gets back when every row of every payload went through `g`. */
  ghost predicate CameBack<H, K, B>(g: (H, K) -> B, hidden: Group<H>, routes: Group<K>, sp: bool, zh: H, zk: K, r: nat)
    requires RowsAgree(hidden, routes) && r < |hidden|
  {
    PayloadRowsAgree(hidden, routes, sp, zh, zk);
    var p := Payloads(hidden, routes, sp, zh, zk);
    RestoreDispatch(ApplyGroup(g, SentHidden(p), SentRoutes(p)), p[r].layout, r) == Fine(Apply(g, hidden[r], routes[r]))
  }

  /**
   Dispatch, any function of each row with its route, and restore is that function on the rows each
   rank held: the gather and the trim undo the sharding and the padding, and no guard fires.
   */
  lemma DispatchRoundTrip<H, K, B>(g: (H, K) -> B, hidden: Group<H>, routes: Group<K>, n: nat, sp: bool, zh: H, zk: K, r: nat)
    requires |hidden| > 0 && RowsAgree(hidden, routes) && r < |hidden|
    requires Coherent(hidden, |hidden|, n, sp) && Coherent(routes, |hidden|, n, sp)
    ensures CameBack(g, hidden, routes, sp, zh, zk, r)
  {
    PayloadRowsAgree(hidden, routes, sp, zh, zk);
    if !PassesThrough(sp, |hidden|) {
      ReplicatedRoundTrip(g, hidden, routes, n, zh, zk, r);
    }
  }

  lemma ReplicatedRoundTrip<H, K, B>(g: (H, K) -> B, hidden: Group<H>, routes: Group<K>, n: nat, zh: H, zk: K, r: nat)
    requires |hidden| > 1 && RowsAgree(hidden, routes) && r < |hidden|
    requires Coherent(hidden, |hidden|, n, false) && Coherent(routes, |hidden|, n, false)
    ensures CameBack(g, hidden, routes, false, zh, zk, r)
  {
    PayloadRowsAgree(hidden, routes, false, zh, zk);
    EachTokenDispatchedOnce(hidden, routes, n, zh, zk);
    var tp, padded := |hidden|, PaddedTo(n, |hidden|);
    var p := Payloads(hidden, routes, false, zh, zk);
    var allHidden, allRoutes := Pad(hidden[0], padded, zh), Pad(routes[0], padded, zk);
    var all := Apply(g, allHidden, allRoutes);
    var back := ApplyGroup(g, SentHidden(p), SentRoutes(p));
    forall k | 0 <= k < tp
      ensures back[k] == Shards(all, tp)[k]
    {
      ApplyToShard(g, allHidden, allRoutes, tp, k);
    }
    GatherOfShards(all, tp);
    assert back == Shards(all, tp);
    TrimOfApplied(g, hidden[0], routes[0], padded, zh, zk);
  }

  lemma TrimOfApplied<H, K, B>(g: (H, K) -> B, hidden: seq<H>, routes: seq<K>, padded: nat, zh: H, zk: K)
    requires |hidden| == |routes| <= padded
    ensures Apply(g, Pad(hidden, padded, zh), Pad(routes, padded, zk))[..|hidden|] == Apply(g, hidden, routes)
  {
    var n, h, k := |hidden|, Pad(hidden, padded, zh), Pad(routes, padded, zk);
    forall i | 0 <= i < n
      ensures h[i] == hidden[i] && k[i] == routes[i]
    {
      assert h[i] == h[..n][i] && k[i] == k[..n][i];
    }
  }
}
