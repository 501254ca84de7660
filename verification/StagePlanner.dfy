/**
 Planning two ordered Async CAM stages over the flattened token layout of a batch.
 */
module StagePlanner {
  import opened Arith
  import opened Rows

  datatype Stage = Stage(requestStart: int, requestStop: int, tokenStart: int, tokenStop: int, inputTokens: int) {
    function ActualTokens(): int {
      tokenStop - tokenStart
    }
  }

  datatype Split = ByRequest | ByToken | Unsupported(name: string)

  datatype PlanResult = NotPositive | BadTensorParallelSize | BadSplit | Unstaged | Staged(first: Stage, second: Stage)

  const STAGE_COUNT := 2

  /** Tokens of the first `i` requests. */
  function Sum(counts: seq<int>, i: nat): int
    requires i <= |counts|
  {
    if i == 0 then 0 else Sum(counts, i - 1) + counts[i - 1]
  }

  function Cumulative(counts: seq<int>): (c: seq<int>)
    ensures |c| == |counts| + 1 && forall i :: 0 <= i <= |counts| ==> c[i] == Sum(counts, i)
  {
    seq(|counts| + 1, i requires 0 <= i <= |counts| => Sum(counts, i))
  }

  ghost predicate Positive(counts: seq<int>) {
    forall i :: 0 <= i < |counts| ==> counts[i] > 0
  }

  ghost predicate Increasing(s: seq<int>) {
    forall i, j :: 0 <= i < j < |s| ==> s[i] < s[j]
  }

  lemma {:induction false} SumsIncrease(counts: seq<int>, i: nat, j: nat)
    requires Positive(counts) && i < j <= |counts|
    ensures Sum(counts, i) < Sum(counts, j)
    decreases j
  {
    if i < j - 1 {
      SumsIncrease(counts, i, j - 1);
    }
  }

  lemma CumulativeIncreases(counts: seq<int>)
    requires Positive(counts)
    ensures Increasing(Cumulative(counts))
  {
    forall i, j | 0 <= i < j <= |counts|
      ensures Cumulative(counts)[i] < Cumulative(counts)[j]
    {
      SumsIncrease(counts, i, j);
    }
  }

  /** In the flattened batch, request `j` has the tokens from the sum before it to the sum after it. */
  lemma RequestsAreFlattened<T>(batch: seq<seq<T>>, counts: seq<int>, j: nat)
    requires |batch| == |counts| && (forall i :: 0 <= i < |counts| ==> counts[i] == |batch[i]|) && j < |counts|
    ensures Sum(counts, |counts|) == |Gather(batch)|
    ensures 0 <= Sum(counts, j) <= Sum(counts, j + 1) <= |Gather(batch)|
    ensures Gather(batch)[Sum(counts, j)..Sum(counts, j + 1)] == batch[j]
  {
    SumIsGathered(batch, counts, j);
    SumIsGathered(batch, counts, j + 1);
    SumIsGathered(batch, counts, |counts|);
    assert batch[..|counts|] == batch && batch == batch[..j + 1] + batch[j + 1..];
    assert batch[..j + 1] == batch[..j] + [batch[j]];
    GatherAppend(batch[..j], batch[j]);
    GatherOfSum(batch[..j + 1], batch[j + 1..]);
  }

  lemma {:induction false} SumIsGathered<T>(batch: seq<seq<T>>, counts: seq<int>, n: nat)
    requires |batch| == |counts| && (forall i :: 0 <= i < |counts| ==> counts[i] == |batch[i]|) && n <= |counts|
    ensures Sum(counts, n) == |Gather(batch[..n])|
  {
    if n > 0 {
      SumIsGathered(batch, counts, n - 1);
      assert batch[..n] == batch[..n - 1] + [batch[n - 1]];
      GatherAppend(batch[..n - 1], batch[n - 1]);
    }
  }

  // -------------------------------------------------------------- bisection

  /** The first position whose element is not below `x`. */
  function BisectLeft(s: seq<int>, x: int): (r: nat)
    ensures r <= |s| && (forall i :: 0 <= i < r ==> s[i] < x) && (r < |s| ==> s[r] >= x)
  {
    if s == [] || s[0] >= x then 0 else 1 + BisectLeft(s[1..], x)
  }

  /** The first position whose element is above `x`. */
  function BisectRight(s: seq<int>, x: int): (r: nat)
    ensures r <= |s| && (forall i :: 0 <= i < r ==> s[i] <= x) && (r < |s| ==> s[r] > x)
  {
    if s == [] || s[0] > x then 0 else 1 + BisectRight(s[1..], x)
  }

  // ------------------------------------------------------------ the planner

  function Abs(x: int): int {
    if x < 0 then -x else x
  }

  /** Distance of a request boundary from the middle, in tokens and then in requests. */
  function SplitKey(counts: seq<int>, i: nat): (int, int)
    requires i <= |counts|
  {
    (Abs(Sum(counts, i) * STAGE_COUNT - Sum(counts, |counts|)), Abs(i * STAGE_COUNT - |counts|))
  }

  predicate KeyLess(a: (int, int), b: (int, int)) {
    a.0 < b.0 || (a.0 == b.0 && a.1 < b.1)
  }

  /** The first boundary of least key among 1..upTo. */
  function BestSplit(counts: seq<int>, upTo: nat): (b: nat)
    requires 1 <= upTo <= |counts|
    ensures 1 <= b <= upTo
    ensures forall i :: 1 <= i <= upTo ==> !KeyLess(SplitKey(counts, i), SplitKey(counts, b))
    ensures forall i :: 1 <= i < b ==> KeyLess(SplitKey(counts, b), SplitKey(counts, i))
  {
    if upTo == 1 then 1
    else
      var b := BestSplit(counts, upTo - 1);
      if KeyLess(SplitKey(counts, upTo), SplitKey(counts, b)) then upTo else b
  }

  function AlignTokens(n: int, alignment: int): int
    requires alignment > 0
  {
    (n + alignment - 1) / alignment * alignment
  }

  function MakeStage(requestStart: int, requestStop: int, tokenStart: int, tokenStop: int, alignment: int): Stage
    requires alignment > 0
  {
    Stage(requestStart, requestStop, tokenStart, tokenStop, AlignTokens(tokenStop - tokenStart, alignment))
  }

  function Plan(counts: seq<int>, split: Split, sequenceParallel: bool, tp: int): PlanResult {
    if counts == [] || exists i :: 0 <= i < |counts| && counts[i] <= 0 then NotPositive
    else if tp <= 0 then BadTensorParallelSize
    else
      var cum, n, alignment := Cumulative(counts), Sum(counts, |counts|), if sequenceParallel then tp else 1;
      match split
      case ByRequest =>
        if |counts| < STAGE_COUNT then Unstaged
        else
          var b := BestSplit(counts, |counts| - 1);
          Staged(MakeStage(0, b, 0, cum[b], alignment), MakeStage(b, |counts|, cum[b], n, alignment))
      case ByToken =>
        if tp <= 1 || n < STAGE_COUNT then Unstaged
        else
          var t := (n + 1) / STAGE_COUNT;
          Staged(MakeStage(BisectRight(cum, 0) - 1, BisectLeft(cum, t), 0, t, alignment),
                 MakeStage(BisectRight(cum, t) - 1, BisectLeft(cum, n), t, n, alignment))
      case Unsupported(_) => BadSplit
  }

  // ------------------------------------------------------- what it promises

  /** Request `j` has a token in the stage. */
  ghost predicate Intersects(counts: seq<int>, j: nat, st: Stage)
    requires j < |counts|
  {
    Sum(counts, j) < st.tokenStop && st.tokenStart < Sum(counts, j + 1)
  }

  ghost predicate LeastAligned(m: int, n: int, alignment: int)
    requires alignment > 0
  {
    && m >= n && m % alignment == 0
    && forall x :: x >= n && x % alignment == 0 ==> m <= x
  }

  ghost predicate StageOk(counts: seq<int>, st: Stage, alignment: int)
    requires alignment > 0
  {
    && 0 <= st.tokenStart < st.tokenStop
    && 0 <= st.requestStart < st.requestStop <= |counts|
    && (forall j :: 0 <= j < |counts| ==> (st.requestStart <= j < st.requestStop <==> Intersects(counts, j, st)))
    && LeastAligned(st.inputTokens, st.ActualTokens(), alignment)
  }

  lemma AlignIsLeast(n: int, alignment: int)
    requires alignment > 0
    ensures LeastAligned(AlignTokens(n, alignment), n, alignment)
  {
    var m := AlignTokens(n, alignment);
    Multiple(alignment, (n + alignment - 1) / alignment);
    assert n <= m < n + alignment;
    forall x | x >= n && x % alignment == 0
      ensures m <= x
    {
      if x < m {
        MultiplesApart(x, m, alignment);
      }
    }
  }

  /** When the planner raises, and when it declines to stage. */
  lemma PlannerRefuses(counts: seq<int>, split: Split, sp: bool, tp: int)
    ensures var p := Plan(counts, split, sp, tp);
            && (p.NotPositive? <==> counts == [] || !Positive(counts))
            && (p.BadTensorParallelSize? <==> counts != [] && Positive(counts) && tp <= 0)
            && (p.BadSplit? <==> counts != [] && Positive(counts) && tp > 0 && split.Unsupported?)
            && (p.Unstaged? <==> counts != [] && Positive(counts) && tp > 0
                                 && ((split.ByRequest? && |counts| == 1)
                                     || (split.ByToken? && (tp == 1 || (|counts| == 1 && counts[0] == 1)))))
  {
    if counts != [] && Positive(counts) {
      assert Sum(counts, 0) == 0 && Sum(counts, 1) == counts[0];
      if |counts| > 1 {
        SumsIncrease(counts, 1, |counts|);
      }
    }
  }

  /** Two non-empty stages that cover the batch in order, each naming exactly its requests. */
  ghost predicate Covers(counts: seq<int>, a: Stage, b: Stage, alignment: int)
    requires alignment > 0
  {
    && StageOk(counts, a, alignment) && StageOk(counts, b, alignment)
    && a.tokenStart == 0 && a.tokenStop == b.tokenStart && b.tokenStop == Sum(counts, |counts|)
  }

  lemma PlannerCovers(counts: seq<int>, split: Split, sp: bool, tp: int)
    requires Plan(counts, split, sp, tp).Staged?
    ensures tp > 0
    ensures var Staged(a, b) := Plan(counts, split, sp, tp);
            Covers(counts, a, b, if sp then tp else 1)
  {
    hide Covers;
    if split.ByRequest? {
      RequestPlanCovers(counts, sp, tp);
    } else {
      TokenPlanCovers(counts, sp, tp);
    }
  }

  lemma RequestPlanCovers(counts: seq<int>, sp: bool, tp: int)
    requires Plan(counts, ByRequest, sp, tp).Staged?
    ensures tp > 0
    ensures var Staged(a, b) := Plan(counts, ByRequest, sp, tp);
            Covers(counts, a, b, if sp then tp else 1)
  {
    hide LeastAligned, AlignTokens, Intersects;
    var Staged(a, b) := Plan(counts, ByRequest, sp, tp);
    AlignIsLeast(a.ActualTokens(), if sp then tp else 1);
    AlignIsLeast(b.ActualTokens(), if sp then tp else 1);
    BoundariesSelect(counts, a);
    BoundariesSelect(counts, b);
  }

  lemma TokenPlanCovers(counts: seq<int>, sp: bool, tp: int)
    requires Plan(counts, ByToken, sp, tp).Staged?
    ensures tp > 0
    ensures var Staged(a, b) := Plan(counts, ByToken, sp, tp);
            Covers(counts, a, b, if sp then tp else 1)
  {
    hide LeastAligned, AlignTokens, Intersects, BisectLeft, BisectRight, Sum;
    var Staged(a, b) := Plan(counts, ByToken, sp, tp);
    AlignIsLeast(a.ActualTokens(), if sp then tp else 1);
    AlignIsLeast(b.ActualTokens(), if sp then tp else 1);
    BisectionSelects(counts, a);
    BisectionSelects(counts, b);
  }

  /** A stage cut at request boundaries contains exactly the requests between them. */
  lemma BoundariesSelect(counts: seq<int>, st: Stage)
    requires Positive(counts) && 0 <= st.requestStart < st.requestStop <= |counts|
    requires st.tokenStart == Sum(counts, st.requestStart) && st.tokenStop == Sum(counts, st.requestStop)
    ensures forall j :: 0 <= j < |counts| ==> (st.requestStart <= j < st.requestStop <==> Intersects(counts, j, st))
    ensures 0 <= st.tokenStart < st.tokenStop
  {
    CumulativeIncreases(counts);
    var cum := Cumulative(counts);
    assert cum[0] == 0 && cum[st.requestStart] < cum[st.requestStop];
    forall j | 0 <= j < |counts|
      ensures st.requestStart <= j < st.requestStop <==> Intersects(counts, j, st)
    {
      assert cum[j] == Sum(counts, j) && cum[j + 1] == Sum(counts, j + 1);
    }
  }

  /** A stage cut between tokens, with its requests found by bisection. */
  lemma BisectionSelects(counts: seq<int>, st: Stage)
    requires Positive(counts) && 0 <= st.tokenStart < st.tokenStop <= Sum(counts, |counts|)
    requires st.requestStart == BisectRight(Cumulative(counts), st.tokenStart) - 1
    requires st.requestStop == BisectLeft(Cumulative(counts), st.tokenStop)
    ensures 0 <= st.requestStart < st.requestStop <= |counts|
    ensures forall j :: 0 <= j < |counts| ==> (st.requestStart <= j < st.requestStop <==> Intersects(counts, j, st))
  {
    CumulativeIncreases(counts);
    var cum := Cumulative(counts);
    assert cum[0] == 0 && cum[|counts|] == Sum(counts, |counts|);
    forall j | 0 <= j < |counts|
      ensures st.requestStart <= j < st.requestStop <==> Intersects(counts, j, st)
    {
      assert cum[j] == Sum(counts, j) && cum[j + 1] == Sum(counts, j + 1);
      BisectionSelectsAt(cum, st.tokenStart, st.tokenStop, j);
    }
  }

  /** Positions between the bisected ends are those whose interval meets the slice. */
  lemma BisectionSelectsAt(cum: seq<int>, start: int, stop: int, j: nat)
    requires Increasing(cum) && j + 1 < |cum| && cum[0] <= start
    ensures BisectRight(cum, start) - 1 <= j < BisectLeft(cum, stop) <==> cum[j] < stop && start < cum[j + 1]
  {
    var lo, hi := BisectRight(cum, start), BisectLeft(cum, stop);
    hide BisectLeft, BisectRight;
    if lo < |cum| && lo < j + 1 {
      assert cum[lo] < cum[j + 1];
    }
    if hi < |cum| && hi < j {
      assert cum[hi] < cum[j];
    }
  }

  /** A token split is balanced within one token, the larger half first. */
  lemma TokenSplitIsBalanced(counts: seq<int>, sp: bool, tp: int)
    requires Plan(counts, ByToken, sp, tp).Staged?
    ensures var Staged(a, b) := Plan(counts, ByToken, sp, tp);
            0 <= a.ActualTokens() - b.ActualTokens() <= 1
  {
  }

  /** A request split is the boundary nearest the token middle, then nearest the request middle, then first. */
  lemma RequestSplitIsNearest(counts: seq<int>, sp: bool, tp: int, i: nat)
    requires Plan(counts, ByRequest, sp, tp).Staged? && 1 <= i < |counts|
    ensures var b := Plan(counts, ByRequest, sp, tp).first.requestStop;
            && 1 <= b < |counts|
            && var size := (x: int) => if x < 0 then -x else x;
               var total := Sum(counts, |counts|);
               var tokensB, tokensI := size(2 * Sum(counts, b) - total), size(2 * Sum(counts, i) - total);
               var requestsB, requestsI := size(2 * b - |counts|), size(2 * i - |counts|);
               b != i ==> tokensB < tokensI
                          || (tokensB == tokensI && (requestsB < requestsI || (requestsB == requestsI && b < i)))
  {
    var b := BestSplit(counts, |counts| - 1);
    assert !KeyLess(SplitKey(counts, i), SplitKey(counts, b));
  }
}
