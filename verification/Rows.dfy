/**
 Tensors as sequences of rows: padding, sharding over tensor-parallel ranks, and the
 all-gather that concatenates the ranks' shards again.
 */
module Rows {
  import opened Arith

  function Fill<R>(z: R, n: nat): seq<R> {
    seq(n, _ => z)
  }

  /** Zero rows appended up to `n` rows. */
  function Pad<R>(rows: seq<R>, n: int, z: R): (r: seq<R>)
    requires |rows| <= n
    ensures |r| == n && r[..|rows|] == rows && forall i :: |rows| <= i < n ==> r[i] == z
  {
    rows + Fill(z, n - |rows|)
  }

  function Map<A, B>(f: A -> B, s: seq<A>): (r: seq<B>)
    ensures |r| == |s| && forall i :: 0 <= i < |s| ==> r[i] == f(s[i])
  {
    seq(|s|, i requires 0 <= i < |s| => f(s[i]))
  }

  function Zip<A, B>(a: seq<A>, b: seq<B>): (r: seq<(A, B)>)
    requires |a| == |b|
    ensures |r| == |a| && forall i :: 0 <= i < |a| ==> r[i] == (a[i], b[i])
  {
    seq(|a|, i requires 0 <= i < |a| => (a[i], b[i]))
  }

  function Firsts<A, B>(s: seq<(A, B)>): (r: seq<A>)
    ensures |r| == |s| && forall i :: 0 <= i < |s| ==> r[i] == s[i].0
  {
    seq(|s|, i requires 0 <= i < |s| => s[i].0)
  }

  function Seconds<A, B>(s: seq<(A, B)>): (r: seq<B>)
    ensures |r| == |s| && forall i :: 0 <= i < |s| ==> r[i] == s[i].1
  {
    seq(|s|, i requires 0 <= i < |s| => s[i].1)
  }

  /** The all-gather: every rank's rows, in rank order. */
  function Gather<R>(parts: seq<seq<R>>): seq<R> {
    if parts == [] then [] else parts[0] + Gather(parts[1..])
  }

  ghost predicate EachHas<R>(parts: seq<seq<R>>, n: nat) {
    forall r :: 0 <= r < |parts| ==> |parts[r]| == n
  }

  /** The rows of rank `r` when `rows` is divided evenly over `tp` ranks. */
  function Shard<R>(rows: seq<R>, tp: int, r: int): (s: seq<R>)
    requires tp > 0 && |rows| % tp == 0 && 0 <= r < tp
    ensures |s| == |rows| / tp
  {
    ShardFits(|rows|, tp, r);
    rows[r * (|rows| / tp)..(r + 1) * (|rows| / tp)]
  }

  function Shards<R>(rows: seq<R>, tp: int): (p: seq<seq<R>>)
    requires tp > 0 && |rows| % tp == 0
    ensures |p| == tp && forall r :: 0 <= r < tp ==> p[r] == Shard(rows, tp, r)
  {
    seq(tp, r requires 0 <= r < tp => Shard(rows, tp, r))
  }

  lemma ShardFits(n: int, tp: int, r: int)
    requires n >= 0 && tp > 0 && n % tp == 0 && 0 <= r < tp
    ensures 0 <= r * (n / tp) <= (r + 1) * (n / tp) <= n
    ensures (r + 1) * (n / tp) - r * (n / tp) == n / tp
  {
    var q := n / tp;
    assert n == tp * q;
    MulMonotone(r, r + 1, q);
    MulMonotone(r + 1, tp, q);
    assert (r + 1) * q == r * q + q;
  }

  lemma {:induction false} GatherAppend<R>(parts: seq<seq<R>>, last: seq<R>)
    ensures Gather(parts + [last]) == Gather(parts) + last
  {
    if parts == [] {
      assert parts + [last] == [last] && [last][1..] == [];
    } else {
      assert (parts + [last])[1..] == parts[1..] + [last];
      GatherAppend(parts[1..], last);
    }
  }

  lemma {:induction false} GatherOfSum<R>(a: seq<seq<R>>, b: seq<seq<R>>)
    ensures Gather(a + b) == Gather(a) + Gather(b)
  {
    if a == [] {
      assert a + b == b;
    } else {
      assert (a + b)[1..] == a[1..] + b;
      GatherOfSum(a[1..], b);
    }
  }

  lemma {:induction false} GatherSize<R>(parts: seq<seq<R>>, n: nat)
    requires EachHas(parts, n)
    ensures |Gather(parts)| == |parts| * n
  {
    if parts != [] {
      assert EachHas(parts[1..], n);
      GatherSize(parts[1..], n);
      assert |parts| * n == n + (|parts| - 1) * n;
    }
  }

  /** The gathered rows hold each rank's rows as a block. */
  lemma {:induction false} GatherBlock<R>(parts: seq<seq<R>>, n: nat, r: nat)
    requires EachHas(parts, n) && r < |parts|
    ensures 0 <= r * n <= (r + 1) * n <= |Gather(parts)|
    ensures Gather(parts)[r * n..(r + 1) * n] == parts[r]
  {
    GatherSize(parts, n);
    assert EachHas(parts[1..], n);
    GatherSize(parts[1..], n);
    if r == 0 {
    } else {
      GatherBlock(parts[1..], n, r - 1);
      assert r * n == n + (r - 1) * n && (r + 1) * n == n + r * n;
      assert Gather(parts)[n + (r - 1) * n..n + r * n] == Gather(parts[1..])[(r - 1) * n..r * n];
      assert parts[1..][r - 1] == parts[r];
    }
  }

  /** A row of the gathered rows, counted from where its part starts. */
  lemma {:induction false} GatherAt<R>(parts: seq<seq<R>>, k: nat, j: nat)
    requires k < |parts| && j < |parts[k]|
    ensures |Gather(parts[..k])| + j < |Gather(parts)|
    ensures Gather(parts)[|Gather(parts[..k])| + j] == parts[k][j]
  {
    if k == 0 {
      assert parts[..0] == [];
    } else {
      GatherAt(parts[1..], k - 1, j);
      assert parts[1..][..k - 1] == parts[..k][1..];
    }
  }

  /** Sharding undoes the gather... */
  lemma ShardOfGather<R>(parts: seq<seq<R>>, n: nat, r: nat)
    requires EachHas(parts, n) && r < |parts|
    ensures |Gather(parts)| == |parts| * n && |Gather(parts)| % |parts| == 0
    ensures Shard(Gather(parts), |parts|, r) == parts[r]
  {
    GatherSize(parts, n);
    GatherBlock(parts, n, r);
    Multiple(|parts|, n);
  }

  /** ... and the gather undoes sharding. */
  lemma GatherOfShards<R>(rows: seq<R>, tp: int)
    requires tp > 0 && |rows| % tp == 0
    ensures Gather(Shards(rows, tp)) == rows
  {
    var n := |rows| / tp;
    assert |rows| == tp * n;
    var parts := seq(tp, r requires 0 <= r < tp => Shard(rows, tp, r));
    assert parts == Shards(rows, tp);
    GatherFrom(rows, tp, n, 0);
    assert rows[0 * n..] == rows && parts[0..] == parts;
  }

  lemma {:induction false} GatherFrom<R>(rows: seq<R>, tp: int, n: nat, r: nat)
    requires tp > 0 && |rows| == tp * n && |rows| % tp == 0 && |rows| / tp == n && r <= tp
    ensures 0 <= r * n <= |rows|
    ensures Gather(Shards(rows, tp)[r..]) == rows[r * n..]
    decreases tp - r
  {
    MulMonotone(0, r, n);
    MulMonotone(r, tp, n);
    if r < tp {
      GatherFrom(rows, tp, n, r + 1);
      ShardFits(|rows|, tp, r);
      var rest := Shards(rows, tp)[r..];
      assert rest[0] == Shard(rows, tp, r) && rest[1..] == Shards(rows, tp)[r + 1..];
      var lo, hi := r * n, (r + 1) * n;
      assert rows[lo..] == rows[lo..hi] + rows[hi..];
    }
  }

  /** Per-row functions commute with the gather. */
  lemma {:induction false} GatherOfMaps<A, B>(f: A -> B, parts: seq<seq<A>>, images: seq<seq<B>>)
    requires |images| == |parts| && forall r :: 0 <= r < |parts| ==> images[r] == Map(f, parts[r])
    ensures Gather(images) == Map(f, Gather(parts))
  {
    if parts != [] {
      GatherOfMaps(f, parts[1..], images[1..]);
    }
  }

  /** Gathering hidden states and residuals side by side gathers each of them. */
  lemma {:induction false} GatherOfZips<A, B>(a: seq<seq<A>>, b: seq<seq<B>>, zipped: seq<seq<(A, B)>>)
    requires |a| == |b| == |zipped|
    requires forall r :: 0 <= r < |a| ==> |a[r]| == |b[r]| && zipped[r] == Zip(a[r], b[r])
    ensures |Gather(a)| == |Gather(b)| && Gather(zipped) == Zip(Gather(a), Gather(b))
    ensures Firsts(Gather(zipped)) == Gather(a) && Seconds(Gather(zipped)) == Gather(b)
  {
    if a != [] {
      GatherOfZips(a[1..], b[1..], zipped[1..]);
    }
  }
}
