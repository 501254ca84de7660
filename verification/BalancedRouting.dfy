/**
 Deterministic balanced routing: a cycle of distinct experts, repeated into a table of top-k ids per
 token, shifted by whole rank blocks on each source rank, and served from grown or cached buffers.
 */
module BalancedRouting {
  import opened Arith
  import opened Rows

  datatype Config = Config(experts: int, epSize: int, epRank: int, topK: int, topnPerRank: int)

  /** A fixed shuffle of the experts; `Shuffles` is all that is known about it. */
  type Shuffle = nat -> seq<int>

  ghost predicate Distinct(s: seq<int>) {
    forall i, j :: 0 <= i < j < |s| ==> s[i] != s[j]
  }

  ghost predicate Within(s: seq<int>, n: int) {
    forall i :: 0 <= i < |s| ==> 0 <= s[i] < n
  }

  ghost predicate Shuffles(shuffle: Shuffle) {
    forall n: nat :: |shuffle(n)| == n && Distinct(shuffle(n)) && Within(shuffle(n), n)
  }

  /** What both validations ask of the layout of the experts. */
  predicate Divides(c: Config) {
    c.experts > 0 && c.epSize > 0 && 0 <= c.epRank < c.epSize && c.experts % c.epSize == 0
  }

  function LocalExperts(c: Config): (n: int)
    requires Divides(c)
    ensures n > 0 && n * c.epSize == c.experts
  {
    EvenShare(c.experts, c.epSize);
    c.experts / c.epSize
  }

  lemma EvenShare(n: int, ranks: int)
    requires n > 0 && ranks > 0 && n % ranks == 0
    ensures n / ranks > 0 && n / ranks * ranks == n
  {
    assert n == ranks * (n / ranks);
  }

  /** _validate_config of the routing simulator. */
  predicate Valid(c: Config) {
    && Divides(c) && c.topK > 0
    && var selected := if c.topnPerRank != 0 then c.topnPerRank else LocalExperts(c);
       0 < selected <= LocalExperts(c) && c.topK <= selected * c.epSize
  }

  /** _validate_force_lb_config, which leaves top_k unchecked when every expert participates. */
  predicate ValidForced(c: Config) {
    && Divides(c) && c.topK >= 0
    && (c.topnPerRank == 0 || (0 < c.topnPerRank <= LocalExperts(c) && c.topK <= c.topnPerRank * c.epSize))
  }

  lemma ValidMeans(c: Config)
    ensures Valid(c) <==>
            && c.experts > 0 && c.epSize > 0 && 0 <= c.epRank < c.epSize && c.topK > 0 && c.experts % c.epSize == 0
            && var selected := if c.topnPerRank != 0 then c.topnPerRank else c.experts / c.epSize;
               0 < selected <= c.experts / c.epSize && c.topK <= selected * c.epSize
  {
  }

  predicate Buildable(c: Config) {
    Divides(c) && c.topK >= 0 && 0 <= c.topnPerRank <= LocalExperts(c)
  }

  lemma ValidIsBuildable(c: Config)
    ensures Valid(c) || ValidForced(c) ==> Buildable(c)
  {
  }

  // ----------------------------------------------------------------- the cycle

  /** The first `topnPerRank` experts of every rank, rank by rank. */
  function RankBlocks(c: Config): seq<seq<int>>
    requires Buildable(c)
  {
    seq(c.epSize, rank => seq(c.topnPerRank, j => rank * LocalExperts(c) + j))
  }

  function BaseCycle(c: Config, shuffle: Shuffle): seq<int>
    requires Buildable(c)
  {
    if c.topnPerRank > 0 then Gather(RankBlocks(c)) else shuffle(c.experts)
  }

  /** The expert that source rank `c.epRank` uses in place of `e`. */
  function Shifted(c: Config, e: int): int
    requires Divides(c)
  {
    (e + c.epRank * LocalExperts(c)) % c.experts
  }

  function Cycle(c: Config, shuffle: Shuffle): (s: seq<int>)
    requires Buildable(c)
    ensures |s| == |BaseCycle(c, shuffle)| && forall i :: 0 <= i < |s| ==> s[i] == Shifted(c, BaseCycle(c, shuffle)[i])
  {
    var base := BaseCycle(c, shuffle);
    seq(|base|, i requires 0 <= i < |base| => Shifted(c, base[i]))
  }

  /** Entry `i` of the blocks is the expert at place `i % topn` of rank `i / topn`. */
  lemma BlockEntry(c: Config, i: nat)
    requires Buildable(c) && c.topnPerRank > 0 && i < c.epSize * c.topnPerRank
    ensures |Gather(RankBlocks(c))| == c.epSize * c.topnPerRank
    ensures 0 <= i / c.topnPerRank < c.epSize
    ensures Gather(RankBlocks(c))[i] == i / c.topnPerRank * LocalExperts(c) + i % c.topnPerRank
  {
    var parts, n := RankBlocks(c), c.topnPerRank;
    assert n * c.epSize == c.epSize * n;
    ExpertPlace(i, n, c.epSize);
    EntryOfBlock(parts, n, i / n, i % n);
  }

  lemma EntryOfBlock(parts: seq<seq<int>>, n: nat, r: nat, j: nat)
    requires EachHas(parts, n) && r < |parts| && j < n
    ensures |Gather(parts)| == |parts| * n && 0 <= r * n + j < |Gather(parts)|
    ensures Gather(parts)[r * n + j] == parts[r][j]
  {
    GatherSize(parts, n);
    GatherBlock(parts, n, r);
    assert (r + 1) * n == r * n + n;
    assert Gather(parts)[r * n + j] == Gather(parts)[r * n..(r + 1) * n][j];
  }

  lemma ExpertPlace(e: int, local: int, epSize: int)
    requires local > 0 && 0 <= e < local * epSize
    ensures 0 <= e / local < epSize && 0 <= e % local < local && e == e / local * local + e % local
  {
    if e / local >= epSize {
      MulMonotone(epSize, e / local, local);
    }
  }

  /** An expert is its rank's block and its place in the block. */
  lemma PlaceInBlock(r: int, j: int, local: int, epSize: int)
    requires local > 0 && 0 <= r < epSize && 0 <= j < local
    ensures 0 <= r * local + j < local * epSize && (r * local + j) / local == r && (r * local + j) % local == j
  {
    MulMonotone(0, r, local);
    MulMonotone(r + 1, epSize, local);
    assert (r + 1) * local == r * local + local && epSize * local == local * epSize;
    DivModIs(r * local + j, local, r, j);
  }

  lemma BlockExpert(c: Config, i: nat)
    requires Buildable(c) && c.topnPerRank > 0 && i < c.epSize * c.topnPerRank
    ensures |Gather(RankBlocks(c))| == c.epSize * c.topnPerRank
    ensures var e, local := Gather(RankBlocks(c))[i], LocalExperts(c);
            0 <= e < c.experts && e / local == i / c.topnPerRank && e % local == i % c.topnPerRank
  {
    BlockEntry(c, i);
    PlaceInBlock(i / c.topnPerRank, i % c.topnPerRank, LocalExperts(c), c.epSize);
  }

  lemma SameIndex(i: int, j: int, n: int)
    requires n > 0 && i / n == j / n && i % n == j % n
    ensures i == j
  {
    assert i == n * (i / n) + i % n && j == n * (j / n) + j % n;
  }

  lemma BaseCycleIsProper(c: Config, shuffle: Shuffle)
    requires Buildable(c) && Shuffles(shuffle)
    ensures var base := BaseCycle(c, shuffle);
            && |base| == (if c.topnPerRank > 0 then c.epSize * c.topnPerRank else c.experts) && |base| > 0
            && Distinct(base) && Within(base, c.experts)
  {
    hide RankBlocks, Gather, LocalExperts;
    if c.topnPerRank > 0 {
      var base := BaseCycle(c, shuffle);
      MulMonotone(1, c.epSize, c.topnPerRank);
      BlockExpert(c, 0);
      forall i | 0 <= i < |base|
        ensures 0 <= base[i] < c.experts
      {
        BlockExpert(c, i);
      }
      forall i, j | 0 <= i < j < |base|
        ensures base[i] != base[j]
      {
        BlockExpert(c, i);
        BlockExpert(c, j);
        if base[i] == base[j] {
          SameIndex(i, j, c.topnPerRank);
        }
      }
    }
  }

  /** The shift moves rank block `r` onto rank block `r + epRank`, place by place. */
  lemma ShiftMovesBlocks(c: Config, r: int, j: int)
    requires Divides(c) && 0 <= r < c.epSize && 0 <= j < LocalExperts(c)
    ensures Shifted(c, r * LocalExperts(c) + j) == (r + c.epRank) % c.epSize * LocalExperts(c) + j
    ensures Shifted(c, r * LocalExperts(c) + j) / LocalExperts(c) == (r + c.epRank) % c.epSize
  {
    var local, target := LocalExperts(c), (r + c.epRank) % c.epSize;
    var turns := (r + c.epRank) / c.epSize;
    assert r + c.epRank == c.epSize * turns + target;
    assert r * local + j + c.epRank * local == (r + c.epRank) * local + j;
    assert (c.epSize * turns + target) * local == (local * c.epSize) * turns + target * local;
    PlaceInBlock(target, j, local, c.epSize);
    DivModIs(r * local + j + c.epRank * local, c.experts, turns, target * local + j);
  }

  lemma ShiftIsInjective(c: Config, d: int, e: int)
    requires Divides(c) && 0 <= d < c.experts && 0 <= e < c.experts && Shifted(c, d) == Shifted(c, e)
    ensures d == e
  {
    var offset := c.epRank * LocalExperts(c);
    SameRemainder(d + offset, e + offset, c.experts);
  }

  /** Numbers with the same remainder that are less than the divisor apart are equal. */
  lemma SameRemainder(x: int, y: int, n: int)
    requires n > 0 && x % n == y % n && -n < x - y < n
    ensures x == y
  {
    var p, q := x / n, y / n;
    assert x == n * p + x % n && y == n * q + y % n;
    assert x - y == n * (p - q);
    if p > q {
      MulMonotone(1, p - q, n);
    } else if p < q {
      MulMonotone(1, q - p, n);
    }
  }


  /** The cycle names distinct experts, all of them in range. */
  lemma CycleIsProper(c: Config, shuffle: Shuffle)
    requires Buildable(c) && Shuffles(shuffle)
    ensures var s := Cycle(c, shuffle);
            && |s| == (if c.topnPerRank > 0 then c.epSize * c.topnPerRank else c.experts) && |s| > 0
            && Distinct(s) && Within(s, c.experts)
  {
    BaseCycleIsProper(c, shuffle);
    var base, s := BaseCycle(c, shuffle), Cycle(c, shuffle);
    hide BaseCycle, Shifted, Cycle;
    forall i, j | 0 <= i < j < |s|
      ensures s[i] != s[j]
    {
      if s[i] == s[j] {
        ShiftIsInjective(c, base[i], base[j]);
      }
    }
    ShiftInRange(c, base, s);
  }

  lemma ShiftInRange(c: Config, base: seq<int>, s: seq<int>)
    requires Divides(c) && |s| == |base| && forall i :: 0 <= i < |s| ==> s[i] == Shifted(c, base[i])
    ensures Within(s, c.experts)
  {
  }

  /** Entry `i` of a limited cycle: the `i % topn`-th expert of the rank `i / topn` places after the source rank. */
  lemma CyclePlaces(c: Config, shuffle: Shuffle, i: nat)
    requires Buildable(c) && c.topnPerRank > 0 && i < c.epSize * c.topnPerRank
    ensures |Cycle(c, shuffle)| == c.epSize * c.topnPerRank && 0 <= i / c.topnPerRank < c.epSize
    ensures var local := c.experts / c.epSize;
            && local > 0 && 0 <= Cycle(c, shuffle)[i]
            && Cycle(c, shuffle)[i] / local == (i / c.topnPerRank + c.epRank) % c.epSize
            && Cycle(c, shuffle)[i] % local == i % c.topnPerRank
  {
    hide RankBlocks, Gather;
    BlockEntry(c, i);
    var local, r, j := LocalExperts(c), i / c.topnPerRank, i % c.topnPerRank;
    ShiftMovesBlocks(c, r, j);
    PlaceInBlock((r + c.epRank) % c.epSize, j, local, c.epSize);
    hide Shifted;
    assert Cycle(c, shuffle)[i] == Shifted(c, r * local + j);
  }

  /** The index at which a limited cycle has the `j`-th expert of rank `r`. */
  function IndexOfExpert(c: Config, r: nat, j: nat): (i: nat)
    requires Buildable(c) && c.topnPerRank > 0 && r < c.epSize && j < c.topnPerRank
    ensures i < c.epSize * c.topnPerRank && i % c.topnPerRank == j && (i / c.topnPerRank + c.epRank) % c.epSize == r
  {
    var from := (r - c.epRank) % c.epSize;
    BackAndForth(r, c.epRank, c.epSize);
    PlaceInBlock(from, j, c.topnPerRank, c.epSize);
    assert c.topnPerRank * c.epSize == c.epSize * c.topnPerRank;
    from * c.topnPerRank + j
  }

  lemma BackAndForth(r: int, d: int, n: int)
    requires 0 <= r < n && 0 <= d < n
    ensures 0 <= (r - d) % n < n && ((r - d) % n + d) % n == r
  {
    if r >= d {
      DivModIs(r - d, n, 0, r - d);
      DivModIs(r, n, 0, r);
    } else {
      DivModIs(r - d, n, -1, r - d + n);
      DivModIs(r + n, n, 1, r);
    }
  }

  /** A limited cycle has exactly the experts whose place in their rank is below the limit. */
  lemma LimitedCycleHolds(c: Config, shuffle: Shuffle, e: nat)
    requires Buildable(c) && c.topnPerRank > 0 && e < c.experts
    ensures c.experts / c.epSize > 0
    ensures e in Cycle(c, shuffle) <==> e % (c.experts / c.epSize) < c.topnPerRank
  {
    var cycle, local := Cycle(c, shuffle), LocalExperts(c);
    hide Cycle, BaseCycle;
    ExpertPlace(e, local, c.epSize);
    if e in cycle {
      CyclePlaces(c, shuffle, 0);
      var i :| 0 <= i < |cycle| && cycle[i] == e;
      CyclePlaces(c, shuffle, i);
    }
    if e % local < c.topnPerRank {
      var i := IndexOfExpert(c, e / local, e % local);
      CyclePlaces(c, shuffle, i);
      SameIndex(cycle[i], e, local);
      assert cycle[i] == e;
    }
  }

  /** lo, lo + 1, ..., lo + n - 1. */
  function Interval(lo: int, n: nat): (s: set<int>)
    ensures |s| == n && forall x :: x in s <==> lo <= x < lo + n
  {
    if n == 0 then {} else Interval(lo, n - 1) + {lo + n - 1}
  }

  /** The places of the cycle whose experts belong to rank `r`. */
  function PlacesOfRank(cycle: seq<int>, local: int, r: int): set<int>
    requires local > 0
  {
    set i | 0 <= i < |cycle| && cycle[i] / local == r
  }

  /** Every rank has exactly `topnPerRank` places of a limited cycle. */
  lemma RanksShareTheCycle(c: Config, shuffle: Shuffle, r: nat)
    requires Buildable(c) && c.topnPerRank > 0 && r < c.epSize
    ensures c.experts / c.epSize > 0 && |PlacesOfRank(Cycle(c, shuffle), c.experts / c.epSize, r)| == c.topnPerRank
  {
    var cycle, local, n := Cycle(c, shuffle), LocalExperts(c), c.topnPerRank;
    hide Cycle, BaseCycle, Buildable, Divides;
    var first := IndexOfExpert(c, r, 0);
    CyclePlaces(c, shuffle, first);
    forall i | 0 <= i < |cycle|
      ensures cycle[i] / local == r <==> first <= i < first + n
    {
      CyclePlaces(c, shuffle, i);
      SameBlock(first, i, n);
      if cycle[i] / local == r {
        SameRemainder(i / n + c.epRank, first / n + c.epRank, c.epSize);
      }
    }
    LastBlockFits(first, n, c.epSize);
    assert PlacesOfRank(cycle, local, r) == Interval(first, n);
  }

  lemma SameBlock(first: nat, i: nat, n: nat)
    requires n > 0 && first % n == 0
    ensures i / n == first / n <==> first <= i < first + n
  {
    var q := first / n;
    assert first == n * q;
    QuotientIs(i, n, q);
    assert (q + 1) * n == q * n + n && q * n == n * q;
  }

  lemma LastBlockFits(first: nat, n: nat, ranks: nat)
    requires n > 0 && first % n == 0 && first / n < ranks
    ensures first + n <= ranks * n
  {
    var q := first / n;
    assert first == n * q;
    MulMonotone(q + 1, ranks, n);
    assert (q + 1) * n == q * n + n && q * n == n * q;
  }

  /** Without a limit every expert occurs in the cycle, and with `CycleIsProper` exactly once. */
  lemma UnlimitedCycleHolds(c: Config, shuffle: Shuffle, e: nat)
    requires Buildable(c) && c.topnPerRank == 0 && Shuffles(shuffle) && e < c.experts
    ensures e in Cycle(c, shuffle)
  {
    CycleIsProper(c, shuffle);
    hide Cycle, BaseCycle;
    DistinctCoversAll(Cycle(c, shuffle), e);
  }

  /** An unlimited cycle is the shuffle, each expert moved by whole ranks to its place on another rank. */
  lemma UnlimitedCycleShifts(c: Config, shuffle: Shuffle, i: nat)
    requires Buildable(c) && c.topnPerRank == 0 && Shuffles(shuffle) && i < c.experts
    ensures |Cycle(c, shuffle)| == |shuffle(c.experts)| == c.experts && c.experts / c.epSize > 0
    ensures var local, e, from := c.experts / c.epSize, Cycle(c, shuffle)[i], shuffle(c.experts)[i];
            e / local == (from / local + c.epRank) % c.epSize && e % local == from % local
  {
    var local, from := LocalExperts(c), shuffle(c.experts)[i];
    assert |shuffle(c.experts)| == c.experts && Within(shuffle(c.experts), c.experts);
    ExpertPlace(from, local, c.epSize);
    ShiftMovesBlocks(c, from / local, from % local);
    PlaceInBlock((from / local + c.epRank) % c.epSize, from % local, local, c.epSize);
  }

  /** `n` distinct numbers below `n` are all of them. */
  lemma DistinctCoversAll(s: seq<int>, e: nat)
    requires Distinct(s) && Within(s, |s|) && e < |s|
    ensures e in s
  {
    var members := set x | x in s;
    MembersOfDistinct(s);
    if e !in s {
      assert members <= Interval(0, |s|) - {e};
      SubsetSize(members, Interval(0, |s|) - {e});
    }
  }

  lemma {:induction false} MembersOfDistinct(s: seq<int>)
    requires Distinct(s)
    ensures |set x | x in s| == |s|
  {
    if s == [] {
      assert (set x | x in s) == {};
    } else {
      var rest := s[..|s| - 1];
      MembersOfDistinct(rest);
      assert s == rest + [s[|s| - 1]];
      assert (set x | x in s) == (set x | x in rest) + {s[|s| - 1]};
    }
  }

  lemma SubsetSize(a: set<int>, b: set<int>)
    requires a <= b
    ensures |a| <= |b|
  {
    assert b == a + (b - a);
  }

  // ----------------------------------------------------------------- the table

  /** The cycle written `times` times in a row. */
  function Repeat(cycle: seq<int>, times: nat): (r: seq<int>)
    ensures |r| == times * |cycle|
  {
    if times == 0 then []
    else
      assert times * |cycle| == (times - 1) * |cycle| + |cycle|;
      Repeat(cycle, times - 1) + cycle
  }

  lemma {:induction false} RepeatAt(cycle: seq<int>, times: nat, i: nat)
    requires |cycle| > 0 && i < times * |cycle|
    ensures Repeat(cycle, times)[i] == cycle[i % |cycle|]
  {
    var n := |cycle|;
    assert times * n == (times - 1) * n + n;
    if i < (times - 1) * n {
      RepeatAt(cycle, times - 1, i);
    } else {
      assert (times - 1) * n == n * (times - 1);
      DivModIs(i, n, times - 1, i - (times - 1) * n);
    }
  }

  /** Enough repeats of the cycle for `total` ids, cut to `total`. */
  function FlatIds(cycle: seq<int>, total: nat): (flat: seq<int>)
    requires |cycle| > 0
    ensures |flat| == total
  {
    var repeats := (total + |cycle| - 1) / |cycle|;
    EnoughRepeats(total, |cycle|);
    Repeat(cycle, repeats)[..total]
  }

  lemma EnoughRepeats(total: nat, n: nat)
    requires n > 0
    ensures (total + n - 1) / n >= 0 && total <= (total + n - 1) / n * n
  {
    var q := (total + n - 1) / n;
    assert total + n - 1 == n * q + (total + n - 1) % n;
  }

  lemma FlatIdAt(cycle: seq<int>, total: nat, i: nat)
    requires |cycle| > 0 && i < total
    ensures FlatIds(cycle, total)[i] == cycle[i % |cycle|]
  {
    EnoughRepeats(total, |cycle|);
    RepeatAt(cycle, (total + |cycle| - 1) / |cycle|, i);
  }

  /** Rows of `width` ids. */
  function Reshape(flat: seq<int>, rows: nat, width: nat): (t: seq<seq<int>>)
    requires |flat| == rows * width
    ensures |t| == rows && forall r :: 0 <= r < rows ==> |t[r]| == width
  {
    RowsFit(rows, width);
    seq(rows, r requires 0 <= r < rows => flat[r * width..r * width + width])
  }

  lemma RowsFit(rows: nat, width: nat)
    ensures forall r :: 0 <= r < rows ==> 0 <= r * width && r * width + width <= rows * width
  {
    forall r | 0 <= r < rows
      ensures 0 <= r * width && r * width + width <= rows * width
    {
      MulMonotone(0, r, width);
      MulMonotone(r + 1, rows, width);
      assert (r + 1) * width == r * width + width;
    }
  }

  /** The expert ids of a freshly built buffer for `tokens` tokens. */
  function Table(c: Config, shuffle: Shuffle, tokens: nat): (t: seq<seq<int>>)
    requires Buildable(c) && |BaseCycle(c, shuffle)| > 0
    ensures |t| == tokens && forall r :: 0 <= r < tokens ==> |t[r]| == c.topK
  {
    MulMonotone(0, tokens, c.topK);
    Reshape(FlatIds(Cycle(c, shuffle), tokens * c.topK), tokens, c.topK)
  }

  /** Token `t` takes the next top-k entries of the endless cycle. */
  lemma TableAt(c: Config, shuffle: Shuffle, tokens: nat, t: nat, j: nat)
    requires Buildable(c) && |BaseCycle(c, shuffle)| > 0 && t < tokens && j < c.topK
    ensures 0 <= t * c.topK
    ensures Table(c, shuffle, tokens)[t][j] == Cycle(c, shuffle)[(t * c.topK + j) % |Cycle(c, shuffle)|]
  {
    hide BaseCycle, Cycle, FlatIds;
    RowsFit(tokens, c.topK);
    FlatIdAt(Cycle(c, shuffle), tokens * c.topK, t * c.topK + j);
  }

  /** A token's ids are distinct exactly when the cycle has at least top-k experts. */
  lemma RowDistinct(c: Config, shuffle: Shuffle, tokens: nat, t: nat)
    requires Buildable(c) && Shuffles(shuffle) && |BaseCycle(c, shuffle)| > 0 && t < tokens
    ensures Distinct(Table(c, shuffle, tokens)[t]) <==> c.topK <= |Cycle(c, shuffle)|
    ensures Within(Table(c, shuffle, tokens)[t], c.experts)
  {
    CycleIsProper(c, shuffle);
    MulMonotone(0, t, c.topK);
    hide BaseCycle, Cycle, Table, Distinct;
    var cycle, row := Cycle(c, shuffle), Table(c, shuffle, tokens)[t];
    forall j | 0 <= j < c.topK
      ensures row[j] == cycle[(t * c.topK + j) % |cycle|]
    {
      TableAt(c, shuffle, tokens, t, j);
    }
    WindowDistinct(cycle, t * c.topK, row);
  }

  /** A stretch of the endless cycle repeats an expert exactly when it is longer than the cycle. */
  lemma WindowDistinct(cycle: seq<int>, start: nat, row: seq<int>)
    requires |cycle| > 0 && Distinct(cycle)
    requires forall j :: 0 <= j < |row| ==> row[j] == cycle[(start + j) % |cycle|]
    ensures Distinct(row) <==> |row| <= |cycle|
  {
    var n := |cycle|;
    if |row| <= n {
      forall i, j | 0 <= i < j < |row|
        ensures row[i] != row[j]
      {
        if (start + i) % n == (start + j) % n {
          SameRemainder(start + i, start + j, n);
        }
      }
    } else {
      assert start == n * (start / n) + start % n;
      DivModIs(start + n, n, start / n + 1, start % n);
      assert row[0] == row[n];
    }
  }

  /** Every simulated configuration gives each token distinct experts. */
  lemma ValidRowsAreDistinct(c: Config, shuffle: Shuffle, tokens: nat, t: nat)
    requires Valid(c) && Shuffles(shuffle) && t < tokens
    ensures Buildable(c) && |BaseCycle(c, shuffle)| > 0
    ensures Distinct(Table(c, shuffle, tokens)[t]) && Within(Table(c, shuffle, tokens)[t], c.experts)
  {
    BaseCycleIsProper(c, shuffle);
    RowDistinct(c, shuffle, tokens, t);
    assert c.topnPerRank > 0 ==> c.topnPerRank * c.epSize == c.epSize * c.topnPerRank;
  }

  /**
   The forced configuration checks top-k only for a limited expert pool; otherwise a token may repeat an
   expert, exactly when top-k exceeds the number of experts.
   */
  lemma ForcedRowsAreDistinct(c: Config, shuffle: Shuffle, tokens: nat, t: nat)
    requires ValidForced(c) && Shuffles(shuffle) && t < tokens
    ensures Buildable(c) && |BaseCycle(c, shuffle)| > 0
    ensures Distinct(Table(c, shuffle, tokens)[t]) <==> c.topnPerRank > 0 || c.topK <= c.experts
  {
    BaseCycleIsProper(c, shuffle);
    RowDistinct(c, shuffle, tokens, t);
    assert c.topnPerRank > 0 ==> c.topnPerRank * c.epSize == c.epSize * c.topnPerRank;
  }

  // ------------------------------------------------------------------- balance

  function Count(s: seq<int>, e: int): nat {
    if s == [] then 0 else Count(s[..|s| - 1], e) + if s[|s| - 1] == e then 1 else 0
  }

  /** How often the `i`-th expert of the cycle occurs among the first `n` ids. */
  function Share(n: nat, length: nat, i: nat): nat
    requires i < length
  {
    n / length + if i < n % length then 1 else 0
  }

  lemma ShareGrows(n: nat, length: nat, i: nat)
    requires i < length
    ensures Share(n + 1, length, i) == Share(n, length, i) + if n % length == i then 1 else 0
  {
    var q, m := n / length, n % length;
    assert n == length * q + m;
    if m + 1 < length {
      DivModIs(n + 1, length, q, m + 1);
    } else {
      DivModIs(n + 1, length, q + 1, 0);
    }
  }

  lemma {:induction false} PrefixCounts(cycle: seq<int>, total: nat, n: nat, i: nat)
    requires |cycle| > 0 && Distinct(cycle) && n <= total && i < |cycle|
    ensures Count(FlatIds(cycle, total)[..n], cycle[i]) == Share(n, |cycle|, i)
  {
    hide FlatIds;
    if n > 0 {
      PrefixCounts(cycle, total, n - 1, i);
      var flat := FlatIds(cycle, total);
      assert flat[..n][..n - 1] == flat[..n - 1];
      FlatIdAt(cycle, total, n - 1);
      ShareGrows(n - 1, |cycle|, i);
    }
  }

  /** In every prefix of the table any two experts of the cycle occur equally often, up to one. */
  lemma PrefixesAreBalanced(c: Config, shuffle: Shuffle, total: nat, n: nat, i: nat, j: nat)
    requires Buildable(c) && Shuffles(shuffle) && n <= total
    requires i < |Cycle(c, shuffle)| && j < |Cycle(c, shuffle)|
    ensures var cycle := Cycle(c, shuffle);
            var prefix := FlatIds(cycle, total)[..n];
            && n / |cycle| <= Count(prefix, cycle[i]) <= n / |cycle| + 1
            && Count(prefix, cycle[i]) - Count(prefix, cycle[j]) <= 1
  {
    CycleIsProper(c, shuffle);
    PrefixCounts(Cycle(c, shuffle), total, n, i);
    PrefixCounts(Cycle(c, shuffle), total, n, j);
  }

  /** Experts outside the cycle are never chosen. */
  lemma {:induction false} OthersAreUnused(cycle: seq<int>, total: nat, n: nat, e: int)
    requires |cycle| > 0 && e !in cycle && n <= total
    ensures Count(FlatIds(cycle, total)[..n], e) == 0
  {
    hide FlatIds;
    if n > 0 {
      OthersAreUnused(cycle, total, n - 1, e);
      var flat := FlatIds(cycle, total);
      assert flat[..n][..n - 1] == flat[..n - 1];
      FlatIdAt(cycle, total, n - 1);
    }
  }

  /** With a limit, an expert beyond the limit of its rank is never chosen. */
  lemma ExpertsBeyondTheLimitAreUnused(c: Config, shuffle: Shuffle, total: nat, n: nat, e: nat)
    requires Buildable(c) && c.topnPerRank > 0 && e < c.experts && n <= total
    ensures c.experts / c.epSize > 0 && |Cycle(c, shuffle)| > 0
    ensures e % (c.experts / c.epSize) >= c.topnPerRank ==> Count(FlatIds(Cycle(c, shuffle), total)[..n], e) == 0
  {
    MulMonotone(1, c.epSize, c.topnPerRank);
    CyclePlaces(c, shuffle, 0);
    LimitedCycleHolds(c, shuffle, e);
    hide Cycle, BaseCycle;
    if e !in Cycle(c, shuffle) {
      OthersAreUnused(Cycle(c, shuffle), total, n, e);
    }
  }

  // ------------------------------------------------------------------- buffers

  /** A larger buffer starts with the rows of a smaller one. */
  lemma TablesArePrefixes(c: Config, shuffle: Shuffle, fewer: nat, more: nat)
    requires Buildable(c) && |BaseCycle(c, shuffle)| > 0 && fewer <= more
    ensures Table(c, shuffle, more)[..fewer] == Table(c, shuffle, fewer)
  {
    hide Table, BaseCycle, Cycle;
    var small, large := Table(c, shuffle, fewer), Table(c, shuffle, more);
    forall t | 0 <= t < fewer
      ensures large[t] == small[t]
    {
      forall j | 0 <= j < c.topK
        ensures large[t][j] == small[t][j]
      {
        TableAt(c, shuffle, fewer, t, j);
        TableAt(c, shuffle, more, t, j);
      }
    }
  }

  datatype Routed = Rows(ids: seq<seq<int>>) | Invalid

  /** `device` and `dtype` are opaque parts of the cache key. */
  datatype Key = Key(config: Config, device: int, dtype: int)

  class Simulator {
    const shuffle: Shuffle
    const topnPerRank: int
    var buffers: map<Key, seq<seq<int>>>

    constructor (shuffle: Shuffle, topnPerRank: int)
      requires Shuffles(shuffle)
      ensures this.shuffle == shuffle && this.topnPerRank == topnPerRank && Holds()
    {
      this.shuffle, this.topnPerRank, buffers := shuffle, topnPerRank, map[];
    }

    /** Every buffer is a fresh build of its own size. */
    ghost predicate Holds()
      reads this
    {
      && Shuffles(shuffle)
      && forall key :: key in buffers ==>
           && Valid(key.config) && |BaseCycle(key.config, shuffle)| > 0
           && buffers[key] == Table(key.config, shuffle, |buffers[key]|)
    }

    /** route_tokens: rows of a cached buffer, rebuilt when it is too small. */
    method RouteTokens(experts: int, epSize: int, epRank: int, topK: int, device: int, dtype: int, tokens: nat)
      returns (r: Routed)
      requires Holds()
      modifies this
      ensures Holds()
      ensures var c := Config(experts, epSize, epRank, topK, topnPerRank);
              && (r.Invalid? <==>
                    !(&& experts > 0 && epSize > 0 && 0 <= epRank < epSize && topK > 0 && experts % epSize == 0
                      && var selected := if topnPerRank != 0 then topnPerRank else experts / epSize;
                         0 < selected <= experts / epSize && topK <= selected * epSize))
              && (r.Rows? ==> |BaseCycle(c, shuffle)| > 0 && r.ids == Table(c, shuffle, tokens))
      ensures r.Invalid? ==> unchanged(this)
      ensures r.Rows? ==>
                var key := Key(Config(experts, epSize, epRank, topK, topnPerRank), device, dtype);
                && key in buffers && |buffers[key]| >= tokens
                && buffers == old(buffers)[key := buffers[key]]
    {
      hide Table, BaseCycle, Valid;
      var c := Config(experts, epSize, epRank, topK, topnPerRank);
      ValidMeans(c);
      var key := Key(c, device, dtype);
      if key !in buffers || |buffers[key]| < tokens {
        if !Valid(c) {
          assert key !in buffers;
          return Invalid;
        }
        ValidIsBuildable(c);
        BaseCycleIsProper(c, shuffle);
        buffers := buffers[key := Table(c, shuffle, tokens)];
      }
      ValidIsBuildable(c);
      TablesArePrefixes(c, shuffle, tokens, |buffers[key]|);
      return Rows(buffers[key][..tokens]);
    }
  }

  datatype Forced = Ids(rows: seq<seq<int>>) | NotInitialized | BadConfig

  /** The buffer an Ascend MoE method owns. */
  class ForcedMethod {
    const shuffle: Shuffle
    var buffer: seq<seq<int>>
    var initialized: bool
    var maxTokens: int
    /** The configuration the buffer was built for. */
    ghost var builtFor: Config

    constructor (shuffle: Shuffle, maxTokens: int)
      requires Shuffles(shuffle)
      ensures this.shuffle == shuffle && this.maxTokens == maxTokens && !initialized && Holds()
    {
      this.shuffle, this.maxTokens, initialized, buffer := shuffle, maxTokens, false, [];
      builtFor := Config(0, 0, 0, 0, 0);
    }

    ghost predicate Holds()
      reads this
    {
      && Shuffles(shuffle)
      && (initialized ==>
            && ValidForced(builtFor) && |BaseCycle(builtFor, shuffle)| > 0
            && buffer == Table(builtFor, shuffle, |buffer|))
    }

    /** _init_force_lb_buffer. */
    method InitBuffer(c: Config, tokens: nat) returns (ok: bool)
      requires Holds()
      modifies this
      ensures Holds()
      ensures ok <==>
                && c.experts > 0 && c.epSize > 0 && 0 <= c.epRank < c.epSize && c.experts % c.epSize == 0 && c.topK >= 0
                && (c.topnPerRank == 0
                    || (0 < c.topnPerRank <= c.experts / c.epSize && c.topK <= c.topnPerRank * c.epSize))
      ensures ok <==> ValidForced(c)
      ensures !ok ==> unchanged(this)
      ensures ok ==> initialized && builtFor == c && |buffer| == tokens && maxTokens == tokens
    {
      hide Table, BaseCycle;
      if !ValidForced(c) {
        return false;
      }
      BaseCycleIsProper(c, shuffle);
      buffer, initialized, maxTokens, builtFor := Table(c, shuffle, tokens), true, tokens, c;
      return true;
    }

    /** _get_force_lb_topk_ids: grow to at least twice the size when the batch does not fit. */
    method GetTopkIds(c: Config, batch: nat) returns (r: Forced)
      requires Holds() && c.topK >= 0
      modifies this
      ensures Holds()
      ensures r.NotInitialized? <==> !old(initialized)
      ensures r.BadConfig? <==> old(initialized) && batch > |old(buffer)| && !ValidForced(c)
      ensures r.Ids? ==>
                && builtFor == (if batch > |old(buffer)| then c else old(builtFor))
                && Buildable(builtFor) && |BaseCycle(builtFor, shuffle)| > 0
                && r.rows == Cut(Table(builtFor, shuffle, batch), c.topK)
      ensures old(initialized) && old(builtFor) == c ==>
                && r.Ids? && builtFor == c && r.rows == Table(c, shuffle, batch)
                && |buffer| == if batch <= |old(buffer)| then |old(buffer)|
                               else if batch >= 2 * |old(buffer)| then batch else 2 * |old(buffer)|
    {
      hide Table, BaseCycle, ValidForced;
      if !initialized {
        return NotInitialized;
      }
      if batch > |buffer| {
        var ok := InitBuffer(c, if batch >= 2 * |buffer| then batch else 2 * |buffer|);
        if !ok {
          return BadConfig;
        }
      }
      ValidIsBuildable(builtFor);
      TablesArePrefixes(builtFor, shuffle, batch, |buffer|);
      if builtFor == c {
        CutWhole(Table(c, shuffle, batch), c.topK);
      }
      return Ids(Cut(buffer[..batch], c.topK));
    }
  }

  /** The first `width` ids of every row. */
  function Cut(rows: seq<seq<int>>, width: nat): (r: seq<seq<int>>)
    ensures |r| == |rows|
    ensures forall i :: 0 <= i < |r| ==> r[i] == if width <= |rows[i]| then rows[i][..width] else rows[i]
  {
    seq(|rows|, i requires 0 <= i < |rows| => if width <= |rows[i]| then rows[i][..width] else rows[i])
  }

  lemma CutWhole(rows: seq<seq<int>>, width: nat)
    requires forall i :: 0 <= i < |rows| ==> |rows[i]| == width
    ensures Cut(rows, width) == rows
  {
    forall i | 0 <= i < |rows|
      ensures Cut(rows, width)[i] == rows[i]
    {
      assert rows[i][..width] == rows[i];
    }
  }
}
