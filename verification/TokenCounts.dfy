/**
 Token counts around the FFN ranks: what each Attention rank contributes, what each FFN rank expects
 from its peers, and the several computations of these numbers that have to agree.
 */
module TokenCounts {
  import opened Arith
  import opened Rows
  import opened Topology

  function AtLeastOne(x: int): int {
    if x < 1 then 1 else x
  }

  /** Sum of `f` over lo, lo + 1, ..., hi - 1. */
  function SumRange(f: int -> int, lo: int, hi: int): int
    decreases hi - lo
  {
    if hi <= lo then 0 else SumRange(f, lo, hi - 1) + f(hi - 1)
  }

  lemma {:induction false} SumSplits(f: int -> int, lo: int, mid: int, hi: int)
    requires lo <= mid <= hi
    ensures SumRange(f, lo, hi) == SumRange(f, lo, mid) + SumRange(f, mid, hi)
    decreases hi - mid
  {
    if mid < hi {
      SumSplits(f, lo, mid, hi - 1);
    }
  }

  lemma {:induction false} SameSum(f: int -> int, g: int -> int, lo: int, hi: int)
    requires forall a :: lo <= a < hi ==> f(a) == g(a)
    ensures SumRange(f, lo, hi) == SumRange(g, lo, hi)
    decreases hi - lo
  {
    if lo < hi {
      SameSum(f, g, lo, hi - 1);
    }
  }

  // -------------------------------------------------------- per-rank counts

  /** Data-parallel counts repeated over the tensor-parallel workers of each data-parallel rank. */
  function Expand(counts: seq<int>, attention: int): (e: seq<int>)
    ensures 0 < |counts| < attention && attention % |counts| == 0 ==>
              |e| == attention && forall a :: 0 <= a < attention ==>
                0 <= a / (attention / |counts|) < |counts| && e[a] == counts[a / (attention / |counts|)]
    ensures !(0 < |counts| < attention && attention % |counts| == 0) ==> e == counts
  {
    if 0 < |counts| < attention && attention % |counts| == 0 then
      var tp := attention / |counts|;
      ShareIndex(attention, |counts|);
      seq(attention, a requires 0 <= a < attention => counts[a / tp])
    else counts
  }

  lemma ShareIndex(attention: int, n: int)
    requires 0 < n < attention && attention % n == 0
    ensures attention / n > 0 && forall a :: 0 <= a < attention ==> 0 <= a / (attention / n) < n
  {
    var tp := attention / n;
    assert attention == n * tp;
    forall a | 0 <= a < attention
      ensures 0 <= a / tp < n
    {
      QuotientIs(a, tp, a / tp);
      if a / tp >= n {
        MulMonotone(n, a / tp, tp);
      }
      if a / tp < 0 {
        MulMonotone(a / tp + 1, 0, tp);
      }
    }
  }

  /** _num_tokens_for_attention_rank: a missing count falls back, and no rank contributes less than one row. */
  function RankTokens(counts: seq<int>, rank: int, attention: int, fallback: int): int {
    if counts == [] then AtLeastOne(fallback)
    else
      var expanded := Expand(counts, attention);
      if 0 <= rank < |expanded| then AtLeastOne(expanded[rank]) else AtLeastOne(fallback)
  }

  /**
   What an Attention rank contributes: at least one row, and otherwise the count of its data-parallel rank.
   A rank without a count, because there are none or too few that do not divide, contributes the fallback.
   */
  lemma RankContribution(counts: seq<int>, rank: nat, attention: int, fallback: int)
    requires rank < attention
    ensures RankTokens(counts, rank, attention, fallback) >= 1
    ensures |counts| == attention ==>
              RankTokens(counts, rank, attention, fallback) == if counts[rank] < 1 then 1 else counts[rank]
    ensures 0 < |counts| < attention && attention % |counts| == 0 ==>
              && attention / |counts| > 0 && 0 <= rank / (attention / |counts|) < |counts|
              && var count := counts[rank / (attention / |counts|)];
                 RankTokens(counts, rank, attention, fallback) == if count < 1 then 1 else count
    ensures counts == [] || (|counts| < attention && attention % |counts| != 0) ==>
              var count := if rank < |counts| then counts[rank] else fallback;
              RankTokens(counts, rank, attention, fallback) == if count < 1 then 1 else count
  {
    if 0 < |counts| < attention && attention % |counts| == 0 {
      ShareIndex(attention, |counts|);
      assert Expand(counts, attention)[rank] == counts[rank / (attention / |counts|)];
    }
  }

  /** aggregate_ffn_token_counts: each FFN rank's block, summed. */
  function Aggregate(counts: seq<int>, attention: int, ffn: int, fallback: int): (r: seq<int>)
    ensures |r| == if ffn < 0 then 0 else ffn
  {
    var missing := AtLeastOne(fallback);
    if ffn <= 0 || attention < ffn then seq(if ffn < 0 then 0 else ffn, _ => missing)
    else
      var expanded := Expand(counts, attention);
      seq(ffn, f => SumRange(a => if 0 <= a < |expanded| then AtLeastOne(expanded[a]) else missing,
                             BlockStart(f, attention, ffn), BlockStart(f + 1, attention, ffn)))
  }

  ghost function RankTokensOf(counts: seq<int>, attention: int, fallback: int): int -> int {
    a => RankTokens(counts, a, attention, fallback)
  }

  /** An FFN rank's aggregate is what its own peers contribute, for every count vector. */
  lemma AggregateIsPeerTotal(counts: seq<int>, attention: int, ffn: int, fallback: int, f: int)
    requires 0 < ffn <= attention && 0 <= f < ffn
    ensures Aggregate(counts, attention, ffn, fallback)[f]
            == SumRange(RankTokensOf(counts, attention, fallback),
                        BlockStart(f, attention, ffn), BlockStart(f + 1, attention, ffn))
  {
    var expanded, missing := Expand(counts, attention), AtLeastOne(fallback);
    SameSum(a => if 0 <= a < |expanded| then AtLeastOne(expanded[a]) else missing, RankTokensOf(counts, attention, fallback),
            BlockStart(f, attention, ffn), BlockStart(f + 1, attention, ffn));
  }

  lemma {:induction false} SumCountsRows<R>(peers: seq<seq<R>>, f: int -> int, lo: int, n: nat)
    requires n <= |peers| && forall i :: 0 <= i < |peers| ==> |peers[i]| == f(lo + i)
    ensures SumRange(f, lo, lo + n) == |Gather(peers[..n])|
  {
    if n > 0 {
      SumCountsRows(peers, f, lo, n - 1);
      assert peers[..n] == peers[..n - 1] + [peers[n - 1]];
      GatherAppend(peers[..n - 1], peers[n - 1]);
      assert |peers[n - 1]| == f(lo + (n - 1));
    }
  }

  /** When every peer on the roster sends what it contributes, the FFN rank receives its aggregate in rows. */
  lemma AggregateCountsTheRows<R>(peers: seq<seq<R>>, counts: seq<int>, attention: int, ffn: int, fallback: int, f: int)
    requires 0 < ffn <= attention && 0 <= f < ffn && |peers| == |Roster(f, attention, ffn)| - 1
    requires forall k :: 1 <= k < |Roster(f, attention, ffn)| ==>
               |peers[k - 1]| == RankTokens(counts, Roster(f, attention, ffn)[k] - ffn, attention, fallback)
    ensures |Gather(peers)| == Aggregate(counts, attention, ffn, fallback)[f]
  {
    hide Aggregate, RankTokens, BlockStart;
    var lo := BlockStart(f, attention, ffn);
    forall i | 0 <= i < |peers|
      ensures |peers[i]| == RankTokensOf(counts, attention, fallback)(lo + i)
    {
      assert Roster(f, attention, ffn)[i + 1] - ffn == lo + i;
    }
    SumCountsRows(peers, RankTokensOf(counts, attention, fallback), lo, |peers|);
    AggregateIsPeerTotal(counts, attention, ffn, fallback, f);
    assert peers[..|peers|] == peers;
  }

  function Total(s: seq<int>): int {
    if s == [] then 0 else Total(s[..|s| - 1]) + s[|s| - 1]
  }

  /** No token is counted twice or dropped between the Attention and the FFN side. */
  lemma AggregateConserves(counts: seq<int>, attention: int, ffn: int, fallback: int)
    requires 0 < ffn <= attention
    ensures Total(Aggregate(counts, attention, ffn, fallback))
            == SumRange(RankTokensOf(counts, attention, fallback), 0, attention)
  {
    BlocksCover(attention, ffn);
    AggregateUpTo(counts, attention, ffn, fallback, ffn);
    var all := Aggregate(counts, attention, ffn, fallback);
    assert all[..ffn] == all;
  }

  lemma {:induction false} AggregateUpTo(counts: seq<int>, attention: int, ffn: int, fallback: int, n: nat)
    requires 0 < ffn <= attention && n <= ffn
    ensures Total(Aggregate(counts, attention, ffn, fallback)[..n])
            == SumRange(RankTokensOf(counts, attention, fallback), 0, BlockStart(n, attention, ffn))
  {
    hide Aggregate, RankTokensOf, BlockStart;
    BlocksCover(attention, ffn);
    if n > 0 {
      AggregateUpTo(counts, attention, ffn, fallback, n - 1);
      AggregateIsPeerTotal(counts, attention, ffn, fallback, n - 1);
      var all := Aggregate(counts, attention, ffn, fallback);
      assert all[..n][..n - 1] == all[..n - 1];
      BlockStartsRise(0, n - 1, attention, ffn);
      BlockStartsRise(n - 1, n, attention, ffn);
      SumSplits(RankTokensOf(counts, attention, fallback), 0, BlockStart(n - 1, attention, ffn), BlockStart(n, attention, ffn));
    }
  }

  /** What an FFN rank expects from roster position `src` is what that Attention process counts for itself. */
  lemma PeerCountsAgree(counts: seq<int>, rank: int, attention: int, ffn: int, fallback: int)
    requires 0 < ffn <= attention && 0 <= rank < attention
    ensures var peer := MappingOf(Attention, rank, attention, ffn);
            var owner := MappingOf(Ffn, peer.subgroup, attention, ffn);
            && 1 <= peer.rankInSubgroup < |owner.roster|
            && RankTokens(counts, owner.roster[peer.rankInSubgroup] - ffn, attention, fallback)
               == RankTokens(counts, peer.roleRank, attention, fallback)
  {
    hide BlockStart, Owner, RankTokens, Roster;
    WorldRankIsInRoster(Attention, rank, attention, ffn);
    MembersAgree(Attention, rank, Ffn, Owner(rank, attention, ffn), attention, ffn);
  }

  // -------------------------------------------------- projection to DP ranks

  /** project_ffn_token_counts_to_dp. */
  function Project(ffnCounts: seq<int>, dp: int): seq<int>
    requires ffnCounts != []
  {
    if |ffnCounts| == dp || dp <= 0 || |ffnCounts| % dp != 0 then ffnCounts
    else
      var perDp := |ffnCounts| / dp;
      seq(dp, r requires 0 <= r < dp => (ProjectIndex(|ffnCounts|, dp, r); ffnCounts[r * perDp]))
  }

  /** Each data-parallel rank is represented by its first rank; a vector that does not divide stays as it is. */
  lemma ProjectionTakesTheFirst(c: seq<int>, dp: int, r: nat)
    requires c != []
    ensures 0 < dp && |c| % dp == 0 && r < dp ==>
              && |Project(c, dp)| == dp && 0 <= r * (|c| / dp) < |c| && Project(c, dp)[r] == c[r * (|c| / dp)]
    ensures dp <= 0 || |c| % dp != 0 ==> Project(c, dp) == c
  {
    if 0 < dp && |c| % dp == 0 && r < dp {
      ProjectIndex(|c|, dp, r);
      if |c| == dp {
        DivModIs(|c|, dp, 1, 0);
      }
    }
  }

  lemma ProjectIndex(n: nat, dp: int, r: int)
    requires dp > 0 && n > 0 && n % dp == 0 && 0 <= r < dp
    ensures 0 <= r * (n / dp) < n
  {
    ShardFits(n, dp, r);
  }

  /** Ranks of one data-parallel rank all have the same count. */
  ghost predicate ConstantPerDp(c: seq<int>, perDp: int)
    requires perDp > 0
  {
    forall a, b :: 0 <= a < |c| && 0 <= b < |c| && a / perDp == b / perDp ==> c[a] == c[b]
  }

  /** The projection loses nothing exactly when the ranks of each data-parallel rank agree. */
  lemma ProjectionKeepsCounts(c: seq<int>, dp: int)
    requires 0 < dp < |c| && |c| % dp == 0
    ensures |c| / dp > 0
    ensures Expand(Project(c, dp), |c|) == c <==> ConstantPerDp(c, |c| / dp)
  {
    ShareIndex(|c|, dp);
    var per, back := |c| / dp, Expand(Project(c, dp), |c|);
    forall a | 0 <= a < |c|
      ensures 0 <= a / per * per <= a && a / per * per / per == a / per && back[a] == c[a / per * per]
    {
      GroupHead(a, per);
      ProjectIndex(|c|, dp, a / per);
    }
    if back == c {
      forall a, b | 0 <= a < |c| && 0 <= b < |c| && a / per == b / per
        ensures c[a] == c[b]
      {
        assert back[a] == c[a / per * per] && back[b] == c[b / per * per];
      }
    }
  }

  lemma GroupHead(a: int, per: int)
    requires per > 0 && a >= 0
    ensures 0 <= a / per * per <= a && a / per * per / per == a / per
  {
    QuotientIs(a, per, a / per);
    Multiple(per, a / per);
    assert per * (a / per) == a / per * per;
    if a / per < 0 {
      MulMonotone(a / per + 1, 0, per);
    }
    MulMonotone(0, a / per, per);
  }

  // ------------------------------------------------------------ FFN transfers

  datatype SendResult<R> = Sent(parts: seq<seq<R>>) | WrongTokenCount | CannotSplitEvenly

  function Lengths<R>(parts: seq<seq<R>>): (s: seq<int>)
    ensures |s| == |parts| && forall i :: 0 <= i < |s| ==> s[i] == |parts[i]|
  {
    seq(|parts|, i requires 0 <= i < |parts| => |parts[i]|)
  }

  /** recv_attn_output: the peers' rows concatenated, with their lengths. */
  method RecvAttnOutput<R>(peers: seq<seq<R>>) returns (rows: seq<R>, seqLens: seq<int>)
    ensures rows == Gather(peers) && seqLens == Lengths(peers)
  {
    rows, seqLens := [], [];
    for src := 0 to |peers|
      invariant rows == Gather(peers[..src]) && seqLens == Lengths(peers[..src])
    {
      assert peers[..src + 1] == peers[..src] + [peers[src]];
      GatherAppend(peers[..src], peers[src]);
      rows := rows + peers[src];
      seqLens := seqLens + [|peers[src]|];
    }
    assert peers[..|peers|] == peers;
  }

  ghost predicate NonNegative(s: seq<int>) {
    forall i :: 0 <= i < |s| ==> s[i] >= 0
  }

  /** send_ffn_output: the output cut along the recorded lengths, or evenly when they do not name every peer. */
  method SendFfnOutput<R>(output: seq<R>, seqLens: seq<int>, ratio: nat) returns (r: SendResult<R>)
    requires ratio > 0 && NonNegative(seqLens)
    ensures r.WrongTokenCount? <==> |output| != Total(seqLens)
    ensures r.CannotSplitEvenly? <==> |output| == Total(seqLens) && |seqLens| != ratio && ratio != 1 && |output| % ratio != 0
    ensures r.Sent? ==> |r.parts| == ratio && Gather(r.parts) == output
    ensures r.Sent? ==> Lengths(r.parts) == if |seqLens| == ratio then seqLens else seq(ratio, _ => |output| / ratio)
  {
    if |output| != Total(seqLens) {
      return WrongTokenCount;
    }
    if ratio == 1 {
      assert seqLens != [] ==> Total(seqLens[..0]) == 0;
      assert [output][1..] == [];
      return Sent([output]);
    }
    var sizes := seqLens;
    if |sizes| != ratio {
      if |output| % ratio != 0 {
        return CannotSplitEvenly;
      }
      sizes := seq(ratio, _ => |output| / ratio);
      EvenTotal(|output| / ratio, ratio);
    }
    var parts := CutAt(output, sizes);
    return Sent(parts);
  }

  /** Consecutive slices of the given sizes. */
  method CutAt<R>(output: seq<R>, sizes: seq<int>) returns (parts: seq<seq<R>>)
    requires NonNegative(sizes) && |output| == Total(sizes)
    ensures Lengths(parts) == sizes && Gather(parts) == output
  {
    var start := 0;
    parts := [];
    for dst := 0 to |sizes|
      invariant 0 <= start <= |output| && start == Total(sizes[..dst])
      invariant Lengths(parts) == sizes[..dst] && Gather(parts) == output[..start]
    {
      assert sizes[..dst + 1][..dst] == sizes[..dst];
      PrefixTotal(sizes, dst + 1);
      var end := start + sizes[dst];
      GatherAppend(parts, output[start..end]);
      parts := parts + [output[start..end]];
      start := end;
    }
    assert sizes[..|sizes|] == sizes;
  }

  lemma {:induction false} PrefixTotal(s: seq<int>, n: nat)
    requires NonNegative(s) && n <= |s|
    ensures 0 <= Total(s[..n]) <= Total(s)
    decreases |s|
  {
    if n < |s| {
      PrefixTotal(s[..|s| - 1], n);
      assert s[..|s| - 1][..n] == s[..n];
    } else if n > 0 {
      PrefixTotal(s[..|s| - 1], n - 1);
      assert s[..n] == s;
    }
  }

  lemma {:induction false} EvenTotal(x: nat, n: nat)
    ensures Total(seq(n, _ => x)) == n * x && NonNegative(seq(n, _ => x))
  {
    var s := seq(n, _ => x);
    if n > 0 {
      EvenTotal(x, n - 1);
      assert s[..n - 1] == seq(n - 1, _ => x);
      assert n * x == (n - 1) * x + x;
    }
  }

  /** Two ways of cutting the same rows at the same lengths are the same. */
  lemma {:induction false} CutsAreUnique<R>(a: seq<seq<R>>, b: seq<seq<R>>)
    requires Lengths(a) == Lengths(b) && Gather(a) == Gather(b)
    ensures a == b
  {
    if a != [] {
      assert |a[0]| == Lengths(a)[0] == |b[0]|;
      assert a[0] == Gather(a)[..|a[0]|] && b[0] == Gather(b)[..|b[0]|];
      assert Gather(a[1..]) == Gather(a)[|a[0]|..] && Gather(b[1..]) == Gather(b)[|b[0]|..];
      forall i | 0 <= i < |a| - 1
        ensures |a[1..][i]| == |b[1..][i]|
      {
        assert Lengths(a)[i + 1] == Lengths(b)[i + 1];
      }
      CutsAreUnique(a[1..], b[1..]);
      assert a == [a[0]] + a[1..] && b == [b[0]] + b[1..];
    }
  }

  lemma {:induction false} TotalOfLengths<R>(parts: seq<seq<R>>)
    ensures Total(Lengths(parts)) == |Gather(parts)|
  {
    if parts != [] {
      var n := |parts| - 1;
      assert parts == parts[..n] + [parts[n]] && Lengths(parts)[..n] == Lengths(parts[..n]);
      TotalOfLengths(parts[..n]);
      GatherAppend(parts[..n], parts[n]);
    }
  }

  /** Concatenate, apply any per-row function, split: each peer gets back exactly its own mapped rows. */
  method ServePeers<A, B>(peers: seq<seq<A>>, g: A -> B) returns (r: SendResult<B>)
    requires |peers| > 0
    ensures r.Sent? && |r.parts| == |peers| && forall i :: 0 <= i < |peers| ==> r.parts[i] == Map(g, peers[i])
  {
    var rows, seqLens := RecvAttnOutput(peers);
    TotalOfLengths(peers);
    r := SendFfnOutput(Map(g, rows), seqLens, |peers|);
    ghost var images := seq(|peers|, i requires 0 <= i < |peers| => Map(g, peers[i]));
    GatherOfMaps(g, peers, images);
    assert Lengths(images) == Lengths(peers);
    assert r.Sent?;
    CutsAreUnique(r.parts, images);
  }

  // ------------------------------------------------ the CAM P2P computations

  datatype Count = Tokens(n: int) | DivisionByZero

  datatype Counts = AllTokens(ns: seq<int>) | EmptyDivision

  predicate Aggregates(attention: int, ffn: int) {
    0 < ffn <= attention && attention % ffn == 0
  }

  function Sum(s: seq<int>, lo: int, hi: int): int {
    SumRange(a => if 0 <= a < |s| then s[a] else 0, lo, hi)
  }

  /** _num_tokens_for_ffn_rank of the CAM P2P connector. */
  function FfnRankTokens(counts: seq<int>, f: int, attention: int, ffn: int, fallback: int): Count
    requires 0 < ffn && 0 < attention
  {
    if counts == [] then DivisionByZero
    else
      var expanded := Expand(counts, attention);
      if |expanded| < attention || !Aggregates(attention, ffn) then Tokens(AtLeastOne(fallback))
      else
        var groupSize := attention / ffn;
        Tokens(AtLeastOne(Sum(expanded, f * groupSize, f * groupSize + groupSize)))
  }

  /**
   The CAM P2P connector's count on groups of equal size: the rows the group's ranks hold together, one at
   least. Without counts it divides by zero; without a count for every rank it uses the fallback.
   */
  lemma GroupTokens<R>(ranks: seq<seq<R>>, f: nat, attention: int, ffn: int, fallback: int)
    requires 0 < attention && f < ffn
    ensures FfnRankTokens([], f, attention, ffn, fallback).DivisionByZero?
    ensures ranks != [] && (ffn > attention || attention % ffn != 0) ==>
              FfnRankTokens(Lengths(ranks), f, attention, ffn, fallback) == Tokens(if fallback < 1 then 1 else fallback)
    ensures 0 < |ranks| < attention && attention % |ranks| != 0 ==>
              FfnRankTokens(Lengths(ranks), f, attention, ffn, fallback) == Tokens(if fallback < 1 then 1 else fallback)
    ensures |ranks| == attention && ffn <= attention && attention % ffn == 0 ==>
              && 0 <= f * (attention / ffn) <= f * (attention / ffn) + attention / ffn <= |ranks|
              && var rows := |Gather(ranks[f * (attention / ffn)..f * (attention / ffn) + attention / ffn])|;
                 FfnRankTokens(Lengths(ranks), f, attention, ffn, fallback) == Tokens(if rows < 1 then 1 else rows)
  {
    if |ranks| == attention && Aggregates(attention, ffn) {
      GroupFits(f, attention, ffn);
      var lo, group, e := f * (attention / ffn), attention / ffn, Lengths(ranks);
      SumCountsRows(ranks[lo..lo + group], a => if 0 <= a < |e| then e[a] else 0, lo, group);
      assert ranks[lo..lo + group][..group] == ranks[lo..lo + group];
    }
  }

  /** _aggregate_ffn_values_tuple: one stage's part of the aggregated graph key. */
  function KeyCounts(values: seq<int>, attention: int, ffn: int, fallback: int): Counts
    requires Aggregates(attention, ffn)
  {
    if values == [] then EmptyDivision
    else
      var expanded := Expand(values, attention);
      if |expanded| < attention then AllTokens(seq(ffn, _ => AtLeastOne(fallback)))
      else
        var groupSize := attention / ffn;
        AllTokens(seq(ffn, f => AtLeastOne(Sum(expanded, f * groupSize, (f + 1) * groupSize))))
  }

  /** The aggregated graph key holds exactly the receive count of each FFN rank. */
  lemma KeyHoldsReceiveCounts(counts: seq<int>, attention: int, ffn: int, fallback: int, f: int)
    requires Aggregates(attention, ffn) && 0 <= f < ffn
    ensures var key, received := KeyCounts(counts, attention, ffn, fallback), FfnRankTokens(counts, f, attention, ffn, fallback);
            && (key.EmptyDivision? <==> received.DivisionByZero?)
            && (counts != [] ==> |key.ns| == ffn && received == Tokens(key.ns[f]))
  {
    hide Sum, Expand;
    NextGroup(f, attention / ffn);
  }

  lemma NextGroup(f: int, size: int)
    ensures (f + 1) * size == f * size + size
  {
  }

  lemma EvenBlocks(f: int, attention: int, ffn: int)
    requires Aggregates(attention, ffn) && 0 <= f
    ensures BlockStart(f, attention, ffn) == f * (attention / ffn)
  {
    var q := attention / ffn;
    assert attention == q * ffn;
    assert f * attention == (f * q) * ffn;
    MulMonotone(0, f, attention);
    CeilDivAtMost(f * attention, ffn, f * q);
    CeilDivAtMost(f * attention, ffn, f * q - 1);
    assert (f * q - 1) * ffn == (f * q) * ffn - ffn;
  }

  /** Peers of FFN rank `f` that have no tokens. */
  function IdlePeers(counts: seq<int>, f: int, attention: int, ffn: int): int
    requires 0 < ffn
  {
    var expanded := Expand(counts, attention);
    SumRange(a => if 0 <= a < |expanded| && expanded[a] <= 0 then 1 else 0,
             BlockStart(f, attention, ffn), BlockStart(f + 1, attention, ffn))
  }

  lemma {:induction false} PlaceholdersCounted(e: seq<int>, lo: int, hi: int)
    requires 0 <= lo <= hi <= |e| && NonNegative(e)
    ensures SumRange(a => if 0 <= a < |e| then AtLeastOne(e[a]) else 1, lo, hi)
            == Sum(e, lo, hi) + SumRange(a => if 0 <= a < |e| && e[a] <= 0 then 1 else 0, lo, hi)
    ensures Sum(e, lo, hi) >= 0 && 0 <= SumRange(a => if 0 <= a < |e| && e[a] <= 0 then 1 else 0, lo, hi) <= hi - lo
    ensures Sum(e, lo, hi) == 0 <==> SumRange(a => if 0 <= a < |e| && e[a] <= 0 then 1 else 0, lo, hi) == hi - lo
    decreases hi - lo
  {
    if lo < hi {
      PlaceholdersCounted(e, lo, hi - 1);
    }
  }

  /**
   The two FFN counts are not the same: the per-peer aggregate counts a placeholder row for every idle
   peer, the summed one at most one row in all. They agree exactly when no peer of the rank is idle, or
   the rank has a single peer.
   */
  lemma AggregatesDifferOnIdlePeers(counts: seq<int>, attention: int, ffn: int, f: int)
    requires Aggregates(attention, ffn) && 0 <= f < ffn && counts != [] && NonNegative(counts)
    requires |Expand(counts, attention)| >= attention
    ensures FfnRankTokens(counts, f, attention, ffn, 1) == Tokens(Aggregate(counts, attention, ffn, 1)[f])
            <==> IdlePeers(counts, f, attention, ffn) == 0 || attention == ffn
  {
    hide SumRange, Expand, BlockStart;
    var e, q := Expand(counts, attention), attention / ffn;
    ExpandedNonNegative(counts, attention);
    EvenBlocks(f, attention, ffn);
    EvenBlocks(f + 1, attention, ffn);
    NextGroup(f, q);
    GroupFits(f, attention, ffn);
    PlaceholdersCounted(e, f * q, f * q + q);
    assert Aggregate(counts, attention, ffn, 1)[f]
           == SumRange(a => if 0 <= a < |e| then AtLeastOne(e[a]) else AtLeastOne(1), f * q, f * q + q);
    SameSum(a => if 0 <= a < |e| then AtLeastOne(e[a]) else AtLeastOne(1), a => if 0 <= a < |e| then AtLeastOne(e[a]) else 1,
            f * q, f * q + q);
  }

  lemma ExpandedNonNegative(counts: seq<int>, attention: int)
    requires NonNegative(counts)
    ensures NonNegative(Expand(counts, attention))
  {
  }

  lemma GroupFits(f: int, attention: int, ffn: int)
    requires Aggregates(attention, ffn) && 0 <= f < ffn
    ensures 0 <= f * (attention / ffn) <= f * (attention / ffn) + attention / ffn <= attention
    ensures attention / ffn >= 1 && (attention / ffn == 1 <==> attention == ffn)
  {
    var q := attention / ffn;
    assert attention == q * ffn;
    MulMonotone(0, f, q);
    MulMonotone(f + 1, ffn, q);
    NextGroup(f, q);
    assert q == 1 ==> q * ffn == ffn;
  }
}
