/** The statistics of a history of delays: mean, maximum and three percentiles. */
module Statistics {
  import opened Bits

  datatype Stat = Stat(mean: nat, max: nat, p50: nat, p95: nat, p99: nat)

  function Sum(q: seq<nat>): nat {
    if q == [] then 0 else Sum(q[..|q| - 1]) + q[|q| - 1]
  }

  function Insert(s: seq<nat>, x: nat): seq<nat> {
    if s == [] then [x] else if x <= s[0] then [x] + s else [s[0]] + Insert(s[1..], x)
  }

  /** The sorted copy. */
  function Sort(q: seq<nat>): seq<nat> {
    if q == [] then [] else Insert(Sort(q[..|q| - 1]), q[|q| - 1])
  }

  ghost predicate Sorted(s: seq<nat>) {
    forall i, j :: 0 <= i < j < |s| ==> s[i] <= s[j]
  }

  lemma {:induction false} InsertMembers(s: seq<nat>, x: nat)
    ensures |Insert(s, x)| == |s| + 1
    ensures forall y :: y in Insert(s, x) ==> y == x || y in s
  {
    if s != [] && x > s[0] {
      InsertMembers(s[1..], x);
    }
  }

  lemma {:induction false} InsertKeepsSorted(s: seq<nat>, x: nat)
    requires Sorted(s)
    ensures Sorted(Insert(s, x))
  {
    if s != [] && x > s[0] {
      InsertKeepsSorted(s[1..], x);
      InsertMembers(s[1..], x);
      var t := Insert(s[1..], x);
      forall k | 0 <= k < |t|
        ensures s[0] <= t[k]
      {
        assert t[k] in t;
      }
    }
  }

  lemma Front(x: nat, q: seq<nat>)
    ensures multiset([x] + q) == multiset{x} + multiset(q)
  {
  }

  lemma {:induction false} InsertPermutes(s: seq<nat>, x: nat)
    ensures multiset(Insert(s, x)) == multiset(s) + multiset{x}
  {
    if s != [] && x > s[0] {
      InsertPermutes(s[1..], x);
      assert s == [s[0]] + s[1..];
      Front(s[0], s[1..]);
      Front(s[0], Insert(s[1..], x));
    } else {
      Front(x, s);
    }
  }

  lemma {:induction false} SortSorts(q: seq<nat>)
    ensures Sorted(Sort(q)) && |Sort(q)| == |q|
  {
    if q != [] {
      SortSorts(q[..|q| - 1]);
      InsertMembers(Sort(q[..|q| - 1]), q[|q| - 1]);
      InsertKeepsSorted(Sort(q[..|q| - 1]), q[|q| - 1]);
    }
  }

  lemma {:induction false} SortPermutes(q: seq<nat>)
    ensures multiset(Sort(q)) == multiset(q)
  {
    if q != [] {
      SortPermutes(q[..|q| - 1]);
      InsertPermutes(Sort(q[..|q| - 1]), q[|q| - 1]);
      assert q == q[..|q| - 1] + [q[|q| - 1]];
    }
  }

  lemma SortMembers(q: seq<nat>)
    ensures forall x :: x in Sort(q) <==> x in q
  {
    SortPermutes(q);
    forall x
      ensures x in Sort(q) <==> x in q
    {
      assert x in multiset(Sort(q)) <==> x in multiset(q);
    }
  }

  lemma SmallestFirst(s: seq<nat>, t: seq<nat>)
    requires Sorted(s) && Sorted(t) && s != [] && t != [] && multiset(s) == multiset(t)
    ensures s[0] == t[0]
  {
    assert s[0] in multiset(t) && t[0] in multiset(s);
  }

  lemma SameRest(s: seq<nat>, t: seq<nat>)
    requires s != [] && t != [] && s[0] == t[0] && multiset(s) == multiset(t)
    ensures multiset(s[1..]) == multiset(t[1..])
  {
    assert s == [s[0]] + s[1..] && t == [t[0]] + t[1..];
    Front(s[0], s[1..]);
    Front(t[0], t[1..]);
    assert multiset(s[1..]) == multiset(s) - multiset{s[0]};
    assert multiset(t[1..]) == multiset(t) - multiset{t[0]};
  }

  /** There is only one sorted order, whatever the sorting algorithm. */
  lemma {:induction false} SortedIsUnique(s: seq<nat>, t: seq<nat>)
    requires Sorted(s) && Sorted(t) && multiset(s) == multiset(t)
    ensures s == t
  {
    assert |multiset(s)| == |multiset(t)|;
    if s != [] {
      SmallestFirst(s, t);
      SameRest(s, t);
      SortedIsUnique(s[1..], t[1..]);
      assert s == [s[0]] + s[1..] && t == [t[0]] + t[1..];
    }
  }

  // ------------------------------------------------------------- what a rank means

  /** How many are below `v`. */
  function Below(q: seq<nat>, v: nat): nat {
    if q == [] then 0 else Below(q[..|q| - 1], v) + if q[|q| - 1] < v then 1 else 0
  }

  lemma {:induction false} BelowFront(q: seq<nat>, x: nat, v: nat)
    ensures Below([x] + q, v) == Below(q, v) + if x < v then 1 else 0
  {
    if q == [] {
      assert [x] + q == [x];
    } else {
      BelowFront(q[..|q| - 1], x, v);
      assert ([x] + q)[..|[x] + q| - 1] == [x] + q[..|q| - 1];
    }
  }

  lemma {:induction false} BelowInsert(s: seq<nat>, x: nat, v: nat)
    ensures Below(Insert(s, x), v) == Below(s, v) + if x < v then 1 else 0
  {
    BelowFront(s, x, v);
    if s != [] && x > s[0] {
      BelowInsert(s[1..], x, v);
      BelowFront(Insert(s[1..], x), s[0], v);
      BelowFront(s[1..], s[0], v);
      assert s == [s[0]] + s[1..];
    } else if s == [] {
      assert [x] + s == [x];
    }
  }

  lemma {:induction false} BelowSort(q: seq<nat>, v: nat)
    ensures Below(Sort(q), v) == Below(q, v)
  {
    if q != [] {
      BelowSort(q[..|q| - 1], v);
      BelowInsert(Sort(q[..|q| - 1]), q[|q| - 1], v);
    }
  }

  lemma {:induction false} BelowInSorted(s: seq<nat>, v: nat, i: nat)
    requires Sorted(s) && i <= |s|
    requires forall k :: i <= k < |s| ==> s[k] >= v
    ensures Below(s, v) <= i
  {
    if |s| > 0 {
      if i == |s| {
        BelowInSorted(s[..|s| - 1], v, i - 1);
      } else {
        BelowInSorted(s[..|s| - 1], v, i);
      }
    }
  }

  lemma {:induction false} BelowAtLeast(s: seq<nat>, v: nat, i: nat)
    requires i <= |s| && forall k :: 0 <= k < i ==> s[k] < v
    ensures Below(s, v) >= i
  {
    if i > 0 {
      if i == |s| {
        BelowAtLeast(s[..|s| - 1], v, i - 1);
      } else {
        BelowAtLeast(s[..|s| - 1], v, i);
      }
    }
  }

  /** The element at rank `i`: at most `i` samples are below it, and more than `i`
      are not above it. */
  lemma RankMeans(q: seq<nat>, i: nat)
    requires i < |q|
    ensures i < |Sort(q)| && Sort(q)[i] in q
    ensures Below(q, Sort(q)[i]) <= i < Below(q, Sort(q)[i] + 1)
  {
    var s := Sort(q);
    SortSorts(q);
    SortMembers(q);
    assert s[i] in s;
    BelowInSorted(s, s[i], i);
    BelowAtLeast(s, s[i] + 1, i + 1);
    BelowSort(q, s[i]);
    BelowSort(q, s[i] + 1);
  }

  // -------------------------------------------------------------- calc_result_stats

  /** The index of a percentile, computed in 64 bits. */
  function RankOf(n: nat, percent: nat): nat {
    n * percent % WORD / 100
  }

  lemma RankInRange(n: nat, percent: nat)
    requires n > 0 && percent < 100
    ensures RankOf(n, percent) < n
    ensures n * percent < WORD ==> RankOf(n, percent) == n * percent / 100
  {
    var p := n * percent;
    assert p <= n * 99 by { MulMono(percent, 99, n); Swap(n, percent); Swap(n, 99); }
    ModAtMost(p);
  }

  lemma Swap(a: int, b: int)
    ensures a * b == b * a
  {
  }

  lemma ModAtMost(x: nat)
    ensures x % WORD <= x && (x < WORD ==> x % WORD == x)
  {
    if x < WORD {
      SmallMod(x, WORD);
    }
  }

  lemma {:induction false} SumAtMost(q: seq<nat>, max: nat)
    requires forall i :: 0 <= i < |q| ==> q[i] <= max
    ensures Sum(q) <= |q| * max
  {
    if q != [] {
      SumAtMost(q[..|q| - 1], max);
      Distribute(|q| - 1, 1, 0, max);
    }
  }

  lemma QuotientAtMost(sum: nat, n: nat, max: nat)
    requires n > 0 && sum <= n * max
    ensures sum / n <= max
  {
    if sum / n > max {
      MulMono(max + 1, sum / n, n);
      Distribute(max, 1, 0, n);
      Swap(n, max);
    }
  }

  lemma WrapOnce(a: nat, b: nat)
    ensures (a % WORD + b) % WORD == (a + b) % WORD
  {
    var w := WORD;
    var q, r := (a % w + b) / w, (a % w + b) % w;
    assert a == a / w * w + a % w;
    assert a + b == (a / w + q) * w + r by { Distribute(a / w, q, 0, w); }
    DivModUnique(a + b, w, a / w + q, r);
  }

  /** The sum as 64-bit addition computes it. */
  function WrappedSum(q: seq<nat>): nat {
    if q == [] then 0 else Plus64(WrappedSum(q[..|q| - 1]), q[|q| - 1])
  }

  function Plus64(a: nat, b: nat): nat {
    (a + b) % WORD
  }

  lemma {:induction false} WrappedSumIs(q: seq<nat>)
    ensures WrappedSum(q) == Sum(q) % WORD
  {
    if q == [] {
      SmallMod(0, WORD);
    } else {
      WrappedSumIs(q[..|q| - 1]);
      WrapOnce(Sum(q[..|q| - 1]), q[|q| - 1]);
    }
  }

  method Accumulate(delays: seq<nat>) returns (sum: nat)
    ensures sum == WrappedSum(delays)
  {
    sum := 0;
    for i := 0 to |delays|
      invariant sum == WrappedSum(delays[..i])
    {
      assert delays[..i + 1][..i] == delays[..i];
      sum := Plus64(sum, delays[i]);
    }
    assert delays[..|delays|] == delays;
  }

  method MaxElement(delays: seq<nat>) returns (max: nat)
    requires delays != []
    ensures max in delays && forall d :: d in delays ==> d <= max
  {
    max := delays[0];
    for i := 0 to |delays|
      invariant max in delays && forall k :: 0 <= k < i ==> delays[k] <= max
    {
      if delays[i] > max {
        max := delays[i];
      }
    }
  }

  lemma MeanAtMostMax(delays: seq<nat>, max: nat)
    requires delays != [] && forall d :: d in delays ==> d <= max
    ensures WrappedSum(delays) / |delays| <= max
    ensures Sum(delays) < WORD ==> WrappedSum(delays) == Sum(delays)
  {
    WrappedSumIs(delays);
    forall i | 0 <= i < |delays|
      ensures delays[i] <= max
    {
      assert delays[i] in delays;
    }
    SumAtMost(delays, max);
    ModAtMost(Sum(delays));
    QuotientAtMost(WrappedSum(delays), |delays|, max);
  }

  /** `v` is the element at the rank of the percentile, in sorted order. */
  ghost predicate IsRank(q: seq<nat>, percent: nat, v: nat) {
    RankOf(|q|, percent) < |Sort(q)| && v == Sort(q)[RankOf(|q|, percent)]
  }

  lemma RankIsThere(delays: seq<nat>, percent: nat, max: nat)
    requires delays != [] && percent < 100 && forall d :: d in delays ==> d <= max
    ensures var i := RankOf(|delays|, percent); i < |Sort(delays)| == |delays| && Sort(delays)[i] <= max
  {
    RankInRange(|delays|, percent);
    SortSorts(delays);
    SortMembers(delays);
    assert Sort(delays)[RankOf(|delays|, percent)] in Sort(delays);
  }

  /** What a percentile means: at most that share of the samples is below it, and
      more than that share is not above it. */
  lemma PercentileMeans(q: seq<nat>, percent: nat, v: nat)
    requires q != [] && percent <= 99 && RanksFit(q) && IsRank(q, percent, v)
    ensures v in q && Below(q, v) <= |q| * percent / 100 < Below(q, v + 1)
  {
    Product(|q|, percent, 99);
    RankInRange(|q|, percent);
    RankMeans(q, RankOf(|q|, percent));
  }

  /** The rank of the highest percentile is computed without wrapping. */
  predicate RanksFit(q: seq<nat>) {
    |q| * 99 < WORD
  }

  lemma RanksInOrder(delays: seq<nat>, low: nat, high: nat, a: nat, b: nat)
    requires delays != [] && low <= high < 100 && high <= 99 && RanksFit(delays)
    requires IsRank(delays, low, a) && IsRank(delays, high, b)
    ensures a <= b
  {
    var n := |delays|;
    SortSorts(delays);
    Product(n, low, high);
    Product(n, high, 99);
    RankInRange(n, low);
    RankInRange(n, high);
  }

  method Percentile(sorted: seq<nat>, percent: nat, ghost delays: seq<nat>, ghost max: nat) returns (v: nat)
    requires delays != [] && sorted == Sort(delays) && percent < 100 && forall d :: d in delays ==> d <= max
    ensures IsRank(delays, percent, v) && v <= max
  {
    RankIsThere(delays, percent, max);
    v := sorted[RankOf(|sorted|, percent)];
  }

  lemma Product(n: nat, a: nat, b: nat)
    requires a <= b
    ensures n * a <= n * b
  {
    MulMono(a, b, n);
    Swap(n, a);
    Swap(n, b);
  }

  method Percentiles(delays: seq<nat>, ghost max: nat) returns (p50: nat, p95: nat, p99: nat)
    requires delays != [] && forall d :: d in delays ==> d <= max
    ensures IsRank(delays, 50, p50) && IsRank(delays, 95, p95) && IsRank(delays, 99, p99)
    ensures p50 <= max && p95 <= max && p99 <= max
    ensures RanksFit(delays) ==> p50 <= p95 <= p99
  {
    var sorted := Sort(delays);
    p50 := Percentile(sorted, 50, delays, max);
    p95 := Percentile(sorted, 95, delays, max);
    p99 := Percentile(sorted, 99, delays, max);
    if RanksFit(delays) {
      RanksInOrder(delays, 50, 95, p50, p95);
      RanksInOrder(delays, 95, 99, p95, p99);
    }
  }

  method MeanAndMax(delays: seq<nat>) returns (mean: nat, max: nat)
    requires delays != []
    ensures max in delays && forall d :: d in delays ==> d <= max
    ensures mean <= max && (Sum(delays) < WORD ==> mean == Sum(delays) / |delays|)
  {
    var sum := Accumulate(delays);
    max := MaxElement(delays);
    MeanAtMostMax(delays, max);
    mean := sum / |delays|;
  }

  /** No history gives zeros. The sum wraps at 64 bits, so the mean is the true one
      only below that, but it never exceeds the maximum; the percentiles are the
      elements at their ranks in sorted order, and in order unless the history is
      so long that 99 times its length wraps. */
  method CalcResultStats(delays: seq<nat>) returns (r: Stat)
    ensures delays == [] ==> r == Stat(0, 0, 0, 0, 0)
    ensures delays != [] ==> r.max in delays && forall d :: d in delays ==> d <= r.max
    ensures delays != [] ==> r.mean <= r.max && (Sum(delays) < WORD ==> r.mean == Sum(delays) / |delays|)
    ensures delays != [] ==> IsRank(delays, 50, r.p50) && IsRank(delays, 95, r.p95) && IsRank(delays, 99, r.p99)
    ensures delays != [] ==> r.p50 <= r.max && r.p95 <= r.max && r.p99 <= r.max
    ensures delays != [] && RanksFit(delays) ==> r.p50 <= r.p95 <= r.p99
  {
    if delays == [] {
      return Stat(0, 0, 0, 0, 0);
    }
    var mean, max := MeanAndMax(delays);
    var p50, p95, p99 := Percentiles(delays, max);
    r := Stat(mean, max, p50, p95, p99);
  }
}
