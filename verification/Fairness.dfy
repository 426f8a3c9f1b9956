/** Which targets are ever pinged, over any number of reloads that find the same
    list: a question of when the calls come, and of the configuration. */
module Fairness {
  import opened Common
  import opened Scheduler

  // -------------------------------------------------- moments at least a gap apart

  /** The number and the last of those taken, after one more moment `x`. */
  function OneMore(n: nat, q: nat, x: nat, g: nat): (nat, nat) {
    if x >= q + g then (n + 1, x) else (n, q)
  }

  /** Going through the first `k` of the moments `t`, takes each that is at least `g`
      after the one taken before, or after `p`: how many, and the last. */
  function Picked(p: nat, t: seq<nat>, g: nat, k: nat): (nat, nat)
    requires k <= |t|
  {
    if k == 0 then (0, p)
    else
      var (n, q) := Picked(p, t, g, k - 1);
      OneMore(n, q, t[k - 1], g)
  }

  /** The first `m` picks are among the first `k` moments, in order, each at least
      `g` after `p` and any before. */
  ghost predicate Spaced(p: nat, t: seq<nat>, g: nat, picks: seq<nat>, m: nat, k: nat)
    requires m <= |picks| && k <= |t|
  {
    && (forall i :: 0 <= i < m ==> picks[i] < k && t[picks[i]] >= p + g)
    && (forall i, j :: 0 <= i < j < m ==> picks[i] < picks[j] && t[picks[j]] >= t[picks[i]] + g)
  }

  ghost predicate Ascending(p: nat, t: seq<nat>) {
    && (forall k :: 0 <= k < |t| ==> p <= t[k])
    && forall j, k :: 0 <= j < k < |t| ==> t[j] <= t[k]
  }

  lemma PickedStep(p: nat, t: seq<nat>, g: nat, k: nat)
    requires 0 < k <= |t|
    ensures var (n, q) := Picked(p, t, g, k - 1); Picked(p, t, g, k) == OneMore(n, q, t[k - 1], g)
    ensures Picked(p, t, g, 0) == (0, p)
  {
  }

  lemma {:induction false} LastPickedIs(p: nat, t: seq<nat>, g: nat, k: nat)
    requires k <= |t|
    ensures var (n, q) := Picked(p, t, g, k);
            && (if n == 0 then q == p else q in t[..k])
            && (k > 0 ==> t[k - 1] < q + g || t[k - 1] == q)
  {
    if k > 0 {
      LastPickedIs(p, t, g, k - 1);
      assert t[..k] == t[..k - 1] + [t[k - 1]];
    }
  }

  lemma LastPickedBefore(p: nat, t: seq<nat>, g: nat, k: nat)
    requires Ascending(p, t) && k < |t|
    ensures Picked(p, t, g, k).1 <= t[k]
  {
    LastPickedIs(p, t, g, k);
  }

  /** No choice takes more than going through does, nor ends sooner with as many. */
  lemma {:induction false} PickedIsMost(p: nat, t: seq<nat>, g: nat, picks: seq<nat>, m: nat, k: nat)
    requires 0 < m <= |picks| && k <= |t| && Ascending(p, t) && Spaced(p, t, g, picks, m, k)
    ensures var (n, q) := Picked(p, t, g, k); n >= m && (n == m ==> q <= t[picks[m - 1]])
    decreases k
  {
    var (n, q) := Picked(p, t, g, k - 1);
    LastPickedBefore(p, t, g, k - 1);
    if picks[m - 1] < k - 1 {
      PickedIsMost(p, t, g, picks, m, k - 1);
      SkipLast(n, q, t[k - 1], g, m, t[picks[m - 1]]);
    } else if m == 1 {
      LastPickedIs(p, t, g, k - 1);
      TakeLast(n, q, t[k - 1], g, m, p);
    } else {
      PickedIsMost(p, t, g, picks, m - 1, k - 1);
      TakeLast(n, q, t[k - 1], g, m, t[picks[m - 2]]);
    }
  }

  lemma SkipLast(n: nat, q: nat, x: nat, g: nat, m: nat, end: nat)
    requires n >= m && (n == m ==> q <= end)
    ensures var r := OneMore(n, q, x, g); r.0 >= m && (r.0 == m ==> r.1 <= end)
  {
  }

  lemma TakeLast(n: nat, q: nat, x: nat, g: nat, m: nat, before: nat)
    requires n + 1 >= m && (n + 1 == m ==> q <= before) && x >= before + g && q <= x
    ensures var r := OneMore(n, q, x, g); r.0 >= m && (r.0 == m ==> r.1 <= x)
  {
  }

  lemma {:induction false} PickedIsSpaced(p: nat, t: seq<nat>, g: nat, k: nat) returns (picks: seq<nat>)
    requires k <= |t|
    ensures |picks| == Picked(p, t, g, k).0 && Spaced(p, t, g, picks, |picks|, k)
    ensures forall i :: 0 <= i < |picks| ==> t[picks[i]] <= Picked(p, t, g, k).1
    ensures p <= Picked(p, t, g, k).1
  {
    if k == 0 {
      picks := [];
    } else {
      picks := PickedIsSpaced(p, t, g, k - 1);
      if t[k - 1] >= Picked(p, t, g, k - 1).1 + g {
        picks := picks + [k - 1];
      }
    }
  }

  /** There are `m` moments spaced like that among the first `k`. */
  ghost predicate RoomFor(p: nat, t: seq<nat>, g: nat, m: nat, k: nat)
    requires k <= |t|
  {
    exists picks: seq<nat> :: |picks| == m && Spaced(p, t, g, picks, m, k)
  }

  lemma RoomForIff(p: nat, t: seq<nat>, g: nat, m: nat, k: nat)
    requires Ascending(p, t) && k <= |t|
    ensures RoomFor(p, t, g, m, k) <==> Picked(p, t, g, k).0 >= m
  {
    if RoomFor(p, t, g, m, k) {
      var picks: seq<nat> :| |picks| == m && Spaced(p, t, g, picks, m, k);
      if m > 0 {
        PickedIsMost(p, t, g, picks, m, k);
      }
    }
    if Picked(p, t, g, k).0 >= m {
      var picks := PickedIsSpaced(p, t, g, k);
      assert Spaced(p, t, g, picks[..m], m, k);
    }
  }

  // ------------------------------------------------- what the times of the calls give

  predicate Due(c: Config, last: nat, loadNow: nat) {
    loadNow >= last && (loadNow - last) / 1000000000 > c.loadSeconds
  }

  /** When the last reload before call `k` was. */
  function LoadTime<T>(c: Config, now: nat, calls: seq<Call<T>>, k: nat): nat
    requires k <= |calls|
  {
    if k == 0 then now
    else
      var last := LoadTime(c, now, calls, k - 1);
      if Due(c, last, calls[k - 1].loadNow) then calls[k - 1].loadNow else last
  }

  predicate Reloads<T>(c: Config, now: nat, calls: seq<Call<T>>, k: nat)
    requires k < |calls|
  {
    Due(c, LoadTime(c, now, calls, k), calls[k].loadNow)
  }

  predicate Loaded<T>(c: Config, now: nat, calls: seq<Call<T>>, k: nat)
    requires k <= |calls|
  {
    k > 0 && (Loaded(c, now, calls, k - 1) || Reloads(c, now, calls, k - 1))
  }

  /** In nanoseconds, for a list of `n` targets. */
  function GapOf(c: Config, n: nat, loaded: bool): nat
    requires n > 0
  {
    1000 * if loaded then c.interval / n else DEFAULT_GAP
  }

  /** When the last ping before call `k` was. */
  function LastPing<T>(c: Config, n: nat, now: nat, calls: seq<Call<T>>, k: nat): nat
    requires n > 0 && k <= |calls|
  {
    if k == 0 then now
    else
      var last := LastPing(c, n, now, calls, k - 1);
      OneMore(0, last, calls[k - 1].pingNow, GapOf(c, n, Loaded(c, now, calls, k))).1
  }

  /** The clock never goes back. */
  ghost predicate Forward<T>(now: nat, calls: seq<Call<T>>) {
    && (forall k :: 0 <= k < |calls| ==> now <= calls[k].pingNow)
    && forall j, k :: 0 <= j < k < |calls| ==> calls[j].pingNow <= calls[k].pingNow
  }

  /** Call `a` reloads, and no other does before call `j`. */
  ghost predicate Stretch<T>(c: Config, now: nat, calls: seq<Call<T>>, a: nat, j: nat) {
    a < j <= |calls| && Reloads(c, now, calls, a) && forall i :: a < i < j ==> !Reloads(c, now, calls, i)
  }

  function Pings<T>(calls: seq<Call<T>>): (t: seq<nat>)
    ensures |t| == |calls| && forall k :: 0 <= k < |t| ==> t[k] == calls[k].pingNow
  {
    seq(|calls|, k requires 0 <= k < |calls| => calls[k].pingNow)
  }

  /** Between two reloads there are `m` calls, each at least a gap after the one
      before and the last ping before the first reload. */
  ghost predicate Enough<T>(c: Config, n: nat, now: nat, calls: seq<Call<T>>, m: nat)
    requires n > 0
  {
    exists a: nat, j: nat :: Stretch(c, now, calls, a, j) && Fits(c, n, now, calls, a, j, m)
  }

  ghost predicate Fits<T>(c: Config, n: nat, now: nat, calls: seq<Call<T>>, a: nat, j: nat, m: nat)
    requires n > 0 && a < j <= |calls|
  {
    RoomFor(LastPing(c, n, now, calls, a), Pings(calls[a..]), GapOf(c, n, true), m, j - a)
  }

  // --------------------------------------------------- the machine keeps those times

  /** What the times say of the state before call `k`. */
  ghost predicate Timed<T>(c: Config, now: nat, calls: seq<Call<T>>, list: seq<T>, k: nat, s: State<T>)
    requires list != [] && k <= |calls|
  {
    && s.addresses == (if Loaded(c, now, calls, k) then list else []) && s.retries == 0
    && s.lastLoad == LoadTime(c, now, calls, k) && s.lastPing == LastPing(c, |list|, now, calls, k)
    && 1000 * s.gap == GapOf(c, |list|, Loaded(c, now, calls, k))
  }

  lemma ServeWhen<T>(c: Config, m: State<T>, now: nat)
    requires now >= m.lastPing
    ensures var (r, a) := Serve(c, m, now);
            && (a.Target? <==> m.addresses != [] && now >= m.lastPing + 1000 * m.gap)
            && r == m.(lastPing := OneMore(0, m.lastPing, now, 1000 * m.gap).1, idx := r.idx)
  {
  }

  lemma RefreshedWhen<T>(c: Config, now: nat, calls: seq<Call<T>>, list: seq<T>, k: nat, s: State<T>)
    requires SameList(calls, list) && list != [] && k < |calls| && Timed(c, now, calls, list, k, s)
    ensures ReloadDue(c, s, calls[k].loadNow) <==> Reloads(c, now, calls, k)
    ensures var m := Refreshed(c, s, calls[k]);
            && m.addresses == (if Loaded(c, now, calls, k + 1) then list else []) && m.retries == 0
            && m.lastLoad == LoadTime(c, now, calls, k + 1) && m.lastPing == s.lastPing
            && 1000 * m.gap == GapOf(c, |list|, Loaded(c, now, calls, k + 1))
  {
    assert calls[k].file == Parsed(list, true);
  }

  lemma {:induction false} LastPingBefore<T>(c: Config, n: nat, now: nat, calls: seq<Call<T>>, k: nat, x: nat)
    requires n > 0 && k <= |calls| && now <= x && forall j :: 0 <= j < k ==> calls[j].pingNow <= x
    ensures LastPing(c, n, now, calls, k) <= x
  {
    if k > 0 {
      LastPingBefore(c, n, now, calls, k - 1, x);
    }
  }

  lemma StepTimed<T>(c: Config, now: nat, calls: seq<Call<T>>, list: seq<T>, k: nat, s: State<T>)
    requires SameList(calls, list) && list != [] && Forward(now, calls)
    requires k < |calls| && Timed(c, now, calls, list, k, s)
    ensures Timed(c, now, calls, list, k + 1, Step(c, s, calls[k]).0)
    ensures Step(c, s, calls[k]).1.Target? <==>
            Loaded(c, now, calls, k + 1) && calls[k].pingNow >= s.lastPing + GapOf(c, |list|, true)
  {
    RefreshedWhen(c, now, calls, list, k, s);
    LastPingBefore(c, |list|, now, calls, k, calls[k].pingNow);
    ServeWhen(c, Refreshed(c, s, calls[k]), calls[k].pingNow);
  }

  lemma FrontOf<T>(calls: seq<T>, k: nat)
    requires k < |calls|
    ensures calls[..k + 1] != [] && calls[..k + 1][..k] == calls[..k] && calls[..k + 1][k] == calls[k]
    ensures calls[..k + 1][..|calls[..k + 1]| - 1] == calls[..k]
  {
  }

  lemma {:induction false} RunTimed<T>(c: Config, now: nat, calls: seq<Call<T>>, list: seq<T>, k: nat)
    requires SameList(calls, list) && list != [] && Forward(now, calls) && k <= |calls|
    ensures Timed(c, now, calls, list, k, Run(c, Start(now), calls[..k]))
  {
    if k > 0 {
      RunTimed(c, now, calls, list, k - 1);
      FrontOf(calls, k - 1);
      StepTimed(c, now, calls, list, k - 1, Run(c, Start(now), calls[..k - 1]));
    }
  }

  /** How call `k` moves the count of targets handed out since a reload. */
  lemma CountStep<T>(c: Config, now: nat, calls: seq<Call<T>>, list: seq<T>, k: nat)
    requires SameList(calls, list) && list != [] && Forward(now, calls) && k < |calls|
    ensures SinceReload(c, Start(now), calls[..k + 1]) ==
            (if Reloads(c, now, calls, k) then 0 else SinceReload(c, Start(now), calls[..k])) +
            (if Loaded(c, now, calls, k + 1) &&
                calls[k].pingNow >= LastPing(c, |list|, now, calls, k) + GapOf(c, |list|, true) then 1 else 0)
  {
    var s := Run(c, Start<T>(now), calls[..k]);
    RunTimed(c, now, calls, list, k);
    FrontOf(calls, k);
    RefreshedWhen(c, now, calls, list, k, s);
    StepTimed(c, now, calls, list, k, s);
  }

  lemma {:induction false} LoadedStays<T>(c: Config, now: nat, calls: seq<Call<T>>, a: nat, j: nat)
    requires a < j <= |calls| && Reloads(c, now, calls, a)
    ensures Loaded(c, now, calls, j)
  {
    if a + 1 < j {
      LoadedStays(c, now, calls, a, j - 1);
    }
  }

  /** What `count` says of the calls so far is how many targets were handed out since
      the last reload. */
  ghost predicate Counts<T>(c: Config, n: nat, now: nat, calls: seq<Call<T>>, count: nat -> nat)
    requires n > 0
  {
    count(0) == 0 && forall k :: 0 <= k < |calls| ==> CountsOn(c, n, now, calls, count, k)
  }

  ghost predicate CountsOn<T>(c: Config, n: nat, now: nat, calls: seq<Call<T>>, count: nat -> nat, k: nat)
    requires n > 0 && k < |calls|
  {
    count(k + 1) == (if Reloads(c, now, calls, k) then 0 else count(k)) +
                    (if Loaded(c, now, calls, k + 1) &&
                        calls[k].pingNow >= LastPing(c, n, now, calls, k) + GapOf(c, n, true) then 1 else 0)
  }

  lemma SinceReloadCounts<T>(c: Config, now: nat, calls: seq<Call<T>>, list: seq<T>) returns (count: nat -> nat)
    requires SameList(calls, list) && list != [] && Forward(now, calls)
    ensures Counts(c, |list|, now, calls, count)
    ensures forall k: nat :: k <= |calls| ==> count(k) == SinceReload(c, Start(now), calls[..k])
  {
    count := (k: nat) => if k <= |calls| then SinceReload(c, Start<T>(now), calls[..k]) else 0;
    forall k | 0 <= k < |calls|
      ensures CountsOn(c, |list|, now, calls, count, k)
    {
      CountStep(c, now, calls, list, k);
    }
  }

  lemma StretchStep<T>(c: Config, n: nat, now: nat, calls: seq<Call<T>>, a: nat, j: nat, count: nat -> nat)
    requires n > 0 && Counts(c, n, now, calls, count) && Stretch(c, now, calls, a, j)
    ensures (count(j), LastPing(c, n, now, calls, j)) ==
            OneMore(if j == a + 1 then 0 else count(j - 1),
                    LastPing(c, n, now, calls, j - 1), calls[j - 1].pingNow, GapOf(c, n, true))
  {
    StretchFlags(c, now, calls, a, j);
    assert CountsOn(c, n, now, calls, count, j - 1);
    PingStep(c, n, now, calls, j - 1);
  }

  lemma StretchFlags<T>(c: Config, now: nat, calls: seq<Call<T>>, a: nat, j: nat)
    requires Stretch(c, now, calls, a, j)
    ensures Loaded(c, now, calls, j) && (Reloads(c, now, calls, j - 1) <==> j == a + 1)
    ensures a + 1 < j ==> Stretch(c, now, calls, a, j - 1)
  {
    LoadedStays(c, now, calls, a, j);
  }

  lemma PingStep<T>(c: Config, n: nat, now: nat, calls: seq<Call<T>>, k: nat)
    requires n > 0 && k < |calls| && Loaded(c, now, calls, k + 1)
    ensures LastPing(c, n, now, calls, k + 1) ==
            OneMore(0, LastPing(c, n, now, calls, k), calls[k].pingNow, GapOf(c, n, true)).1
  {
  }

  /** Within a stretch the targets handed out are the calls taken a gap apart. */
  lemma {:induction false} CountInStretch<T>(c: Config, n: nat, now: nat, calls: seq<Call<T>>, a: nat, j: nat,
                                             count: nat -> nat, t: seq<nat>)
    requires n > 0 && Counts(c, n, now, calls, count) && Stretch(c, now, calls, a, j) && t == Pings(calls[a..])
    ensures Picked(LastPing(c, n, now, calls, a), t, GapOf(c, n, true), j - a) ==
            (count(j), LastPing(c, n, now, calls, j))
  {
    StretchStep(c, n, now, calls, a, j, count);
    StretchFlags(c, now, calls, a, j);
    PickedStep(LastPing(c, n, now, calls, a), t, GapOf(c, n, true), j - a);
    assert t[j - a - 1] == calls[j - 1].pingNow;
    if a + 1 < j {
      CountInStretch(c, n, now, calls, a, j - 1, count, t);
    }
  }

  lemma {:induction false} NothingBeforeLoad<T>(c: Config, n: nat, now: nat, calls: seq<Call<T>>,
                                                count: nat -> nat, k: nat)
    requires n > 0 && Counts(c, n, now, calls, count) && k <= |calls| && !Loaded(c, now, calls, k)
    ensures count(k) == 0
  {
    if k > 0 {
      NothingBeforeLoad(c, n, now, calls, count, k - 1);
      assert CountsOn(c, n, now, calls, count, k - 1);
    }
  }

  lemma {:induction false} LastReload<T>(c: Config, now: nat, calls: seq<Call<T>>, j: nat) returns (a: nat)
    requires j <= |calls| && Loaded(c, now, calls, j)
    ensures Stretch(c, now, calls, a, j)
  {
    if Reloads(c, now, calls, j - 1) {
      a := j - 1;
    } else {
      a := LastReload(c, now, calls, j - 1);
    }
  }

  lemma {:induction false} BeyondAt<T>(c: Config, now: nat, calls: seq<Call<T>>, k: nat, j: nat)
    requires j <= |calls|
    ensures EverBeyond(c, now, calls[..j], k) <==>
            exists i: nat :: i <= j && SinceReload(c, Start(now), calls[..i]) > k
  {
    if j > 0 {
      BeyondAt(c, now, calls, k, j - 1);
      FrontOf(calls, j - 1);
    }
  }

  lemma StretchAscends<T>(c: Config, n: nat, now: nat, calls: seq<Call<T>>, a: nat)
    requires n > 0 && a < |calls| && Forward(now, calls)
    ensures Ascending(LastPing(c, n, now, calls, a), Pings(calls[a..]))
  {
    forall k | 0 <= k < |calls| - a
      ensures LastPing(c, n, now, calls, a) <= Pings(calls[a..])[k]
    {
      LastPingBefore(c, n, now, calls, a, calls[a + k].pingNow);
    }
  }

  /** A stretch has room for `m` calls a gap apart exactly if `m` targets are handed
      out in it. */
  lemma FitsIff<T>(c: Config, now: nat, calls: seq<Call<T>>, list: seq<T>, a: nat, j: nat, m: nat)
    requires SameList(calls, list) && list != [] && Forward(now, calls) && Stretch(c, now, calls, a, j)
    ensures Fits(c, |list|, now, calls, a, j, m) <==> SinceReload(c, Start(now), calls[..j]) >= m
  {
    var count := SinceReloadCounts(c, now, calls, list);
    FitsCount(c, |list|, now, calls, a, j, count, m);
  }

  lemma FitsCount<T>(c: Config, n: nat, now: nat, calls: seq<Call<T>>, a: nat, j: nat, count: nat -> nat, m: nat)
    requires n > 0 && Counts(c, n, now, calls, count) && Forward(now, calls) && Stretch(c, now, calls, a, j)
    ensures Fits(c, n, now, calls, a, j, m) <==> count(j) >= m
  {
    StretchAscends(c, n, now, calls, a);
    CountInStretch(c, n, now, calls, a, j, count, Pings(calls[a..]));
    RoomForIff(LastPing(c, n, now, calls, a), Pings(calls[a..]), GapOf(c, n, true), m, j - a);
  }

  /** While the reloads find the same list, its target number `k` is ever pinged
      exactly if some stretch between two reloads has room for `k + 1` calls a gap
      apart. The times of the calls and the configuration decide. */
  lemma ServedExactly<T>(c: Config, now: nat, calls: seq<Call<T>>, list: seq<T>, k: nat)
    requires SameList(calls, list) && Distinct(list) && k < |list| && Forward(now, calls)
    ensures EverServed(c, now, calls, list[k]) <==> Enough(c, |list|, now, calls, k + 1)
  {
    ServedIff(c, now, calls, list, k);
    BeyondAt(c, now, calls, k, |calls|);
    assert calls[..|calls|] == calls;
    if EverBeyond(c, now, calls, k) {
      var j: nat :| j <= |calls| && SinceReload(c, Start<T>(now), calls[..j]) > k;
      BeyondIsEnough(c, now, calls, list, k, j);
    }
    if Enough(c, |list|, now, calls, k + 1) {
      var a: nat, j: nat :| Stretch(c, now, calls, a, j) && Fits(c, |list|, now, calls, a, j, k + 1);
      FitsIff(c, now, calls, list, a, j, k + 1);
    }
  }

  lemma BeyondIsEnough<T>(c: Config, now: nat, calls: seq<Call<T>>, list: seq<T>, k: nat, j: nat)
    requires SameList(calls, list) && list != [] && Forward(now, calls) && j <= |calls|
    requires SinceReload(c, Start(now), calls[..j]) > k
    ensures Enough(c, |list|, now, calls, k + 1)
  {
    var count := SinceReloadCounts(c, now, calls, list);
    if !Loaded(c, now, calls, j) {
      NothingBeforeLoad(c, |list|, now, calls, count, j);
      assert false;
    }
    var a := LastReload(c, now, calls, j);
    FitsIff(c, now, calls, list, a, j, k + 1);
  }

  // ------------------------------------------------- what the configuration allows

  /** `m` times `r`. */
  function Rounds(m: nat, r: nat): nat {
    if m == 0 then 0 else Rounds(m - 1, r) + r
  }

  lemma {:induction false} RoundsIsProduct(m: nat, r: nat)
    ensures Rounds(m, r) == m * r
  {
    if m > 0 {
      RoundsIsProduct(m - 1, r);
      assert m * r == (m - 1) * r + r;
    }
  }

  lemma {:induction false} FewerRounds(m: nat, k: nat, r: nat)
    requires m <= k
    ensures Rounds(m, r) <= Rounds(k, r)
  {
    if m < k {
      FewerRounds(m, k - 1, r);
    }
  }

  /** A call looks at the clock for the second time at most `d` after the first. */
  ghost predicate Brisk<T>(calls: seq<Call<T>>, d: nat) {
    forall k :: 0 <= k < |calls| ==> calls[k].loadNow <= calls[k].pingNow <= calls[k].loadNow + d
  }

  lemma {:induction false} SpacedAddUp(p: nat, t: seq<nat>, g: nat, picks: seq<nat>, m: nat, k: nat, i: nat)
    requires m <= |picks| && k <= |t| && Spaced(p, t, g, picks, m, k) && i < m
    ensures t[picks[i]] >= t[picks[0]] + Rounds(i, g)
  {
    if i > 0 {
      SpacedAddUp(p, t, g, picks, m, k, i - 1);
    }
  }

  lemma {:induction false} StretchLoadTime<T>(c: Config, now: nat, calls: seq<Call<T>>, a: nat, j: nat, i: nat)
    requires Stretch(c, now, calls, a, j) && a < i <= j
    ensures LoadTime(c, now, calls, i) == calls[a].loadNow
  {
    if a + 1 < i {
      StretchLoadTime(c, now, calls, a, j, i - 1);
      assert !Reloads(c, now, calls, i - 1);
    }
  }

  /** A stretch is over one second after the load period, but for the time a call takes. */
  lemma StretchIsShort<T>(c: Config, now: nat, calls: seq<Call<T>>, a: nat, j: nat, i: nat, d: nat)
    requires Stretch(c, now, calls, a, j) && a <= i < j && Brisk(calls, d)
    ensures calls[i].pingNow < calls[a].loadNow + (c.loadSeconds + 1) * 1000000000 + d
  {
    if a < i {
      StretchLoadTime(c, now, calls, a, j, i);
      assert !Reloads(c, now, calls, i);
    }
  }

  /** A target further down than the gaps that fit between two reloads is never
      pinged, however the calls come. */
  lemma TooFarDown<T>(c: Config, now: nat, calls: seq<Call<T>>, list: seq<T>, k: nat, d: nat)
    requires SameList(calls, list) && Distinct(list) && k < |list| && Forward(now, calls) && Brisk(calls, d)
    requires k * GapOf(c, |list|, true) >= (c.loadSeconds + 1) * 1000000000 + d
    ensures !EverServed(c, now, calls, list[k])
  {
    ServedExactly(c, now, calls, list, k);
    if Enough(c, |list|, now, calls, k + 1) {
      var a: nat, j: nat :| Stretch(c, now, calls, a, j) && Fits(c, |list|, now, calls, a, j, k + 1);
      RoundsIsProduct(k, GapOf(c, |list|, true));
      FitsInShort(c, |list|, now, calls, a, j, k, d);
    }
  }

  lemma FitsInShort<T>(c: Config, n: nat, now: nat, calls: seq<Call<T>>, a: nat, j: nat, k: nat, d: nat)
    requires n > 0 && Stretch(c, now, calls, a, j) && Fits(c, n, now, calls, a, j, k + 1)
    requires Forward(now, calls) && Brisk(calls, d)
    ensures Rounds(k, GapOf(c, n, true)) < (c.loadSeconds + 1) * 1000000000 + d
  {
    var p, t, g := LastPing(c, n, now, calls, a), Pings(calls[a..]), GapOf(c, n, true);
    var picks: seq<nat> :| |picks| == k + 1 && Spaced(p, t, g, picks, k + 1, j - a);
    SpacedAddUp(p, t, g, picks, k + 1, j - a, k);
    StretchIsShort(c, now, calls, a, j, a + picks[k], d);
    assert calls[a].loadNow <= calls[a].pingNow <= t[picks[0]];
  }

  /** Each call comes at most `d` after the one before, or after the gap is over if it
      was not: so does a caller who waits as told, with `d` his delay and a microsecond. */
  ghost predicate Prompt<T>(c: Config, n: nat, now: nat, calls: seq<Call<T>>, d: nat)
    requires n > 0
  {
    forall i :: 0 < i < |calls| ==>
      calls[i].pingNow <= calls[i - 1].pingNow + d ||
      calls[i].pingNow <= LastPing(c, n, now, calls, i) + GapOf(c, n, true) + d
  }

  /** Among prompt calls no two that are taken are more than a gap and `d` apart. */
  lemma {:induction false} PromptIsSteady<T>(c: Config, n: nat, now: nat, calls: seq<Call<T>>, a: nat, j: nat,
                                             count: nat -> nat, d: nat)
    requires n > 0 && Counts(c, n, now, calls, count) && Forward(now, calls) && Stretch(c, now, calls, a, j)
    requires Prompt(c, n, now, calls, d)
    ensures Steady((count(j), LastPing(c, n, now, calls, j)),
                   calls[a].pingNow, calls[j - 1].pingNow, GapOf(c, n, true), d)
  {
    StretchStep(c, n, now, calls, a, j, count);
    StretchFlags(c, now, calls, a, j);
    var g, q, x := GapOf(c, n, true), LastPing(c, n, now, calls, j - 1), calls[j - 1].pingNow;
    if a + 1 < j {
      PromptIsSteady(c, n, now, calls, a, j - 1, count, d);
      SteadyStep(count(j - 1), q, calls[a].pingNow, calls[j - 2].pingNow, x, g, d);
    } else {
      LastPingBefore(c, n, now, calls, a, x);
      SteadyStart(q, x, g, d);
    }
  }

  /** After `n` pings since `s`, the last at `q`, and a call at `x`. */
  ghost predicate Steady(nq: (nat, nat), s: nat, x: nat, g: nat, d: nat) {
    var (n, q) := nq; q <= s + Rounds(n, g + d) && (x < q + g || x == q)
  }

  lemma SteadyStep(n: nat, q: nat, s: nat, y: nat, x: nat, g: nat, d: nat)
    requires Steady((n, q), s, y, g, d) && (x <= y + d || x <= q + g + d)
    ensures Steady(OneMore(n, q, x, g), s, x, g, d)
  {
  }

  lemma SteadyStart(q: nat, x: nat, g: nat, d: nat)
    requires q <= x
    ensures Steady(OneMore(0, q, x, g), x, x, g, d)
  {
  }

  /** With prompt calls a stretch serves one target for each gap and `d` it lasts. */
  lemma LongStretchServes<T>(c: Config, now: nat, calls: seq<Call<T>>, list: seq<T>, a: nat, j: nat, k: nat, d: nat)
    requires SameList(calls, list) && Distinct(list) && k < |list| && Forward(now, calls)
    requires Stretch(c, now, calls, a, j) && Prompt(c, |list|, now, calls, d) && d > 0
    requires calls[j - 1].pingNow >= calls[a].pingNow + (k + 1) * (GapOf(c, |list|, true) + d)
    ensures EverServed(c, now, calls, list[k])
  {
    RoundsIsProduct(k + 1, GapOf(c, |list|, true) + d);
    PromptCount(c, now, calls, list, a, j, k, d);
    FitsIff(c, now, calls, list, a, j, k + 1);
    ServedExactly(c, now, calls, list, k);
  }

  lemma PromptCount<T>(c: Config, now: nat, calls: seq<Call<T>>, list: seq<T>, a: nat, j: nat, k: nat, d: nat)
    requires SameList(calls, list) && list != [] && Forward(now, calls)
    requires Stretch(c, now, calls, a, j) && Prompt(c, |list|, now, calls, d) && d > 0
    requires calls[j - 1].pingNow >= calls[a].pingNow + Rounds(k + 1, GapOf(c, |list|, true) + d)
    ensures SinceReload(c, Start(now), calls[..j]) > k
  {
    var count := SinceReloadCounts(c, now, calls, list);
    PromptCountOf(c, |list|, now, calls, a, j, count, k, d, Rounds(k + 1, GapOf(c, |list|, true) + d));
  }

  lemma PromptCountOf<T>(c: Config, n: nat, now: nat, calls: seq<Call<T>>, a: nat, j: nat,
                         count: nat -> nat, k: nat, d: nat, span: nat)
    requires n > 0 && Counts(c, n, now, calls, count) && Forward(now, calls) && Stretch(c, now, calls, a, j)
    requires Prompt(c, n, now, calls, d) && d > 0
    requires span == Rounds(k + 1, GapOf(c, n, true) + d) && calls[j - 1].pingNow >= calls[a].pingNow + span
    ensures count(j) > k
  {
    PromptIsSteady(c, n, now, calls, a, j, count, d);
    SteadyEnough((count(j), LastPing(c, n, now, calls, j)),
                 calls[a].pingNow, calls[j - 1].pingNow, GapOf(c, n, true), d, k, span);
  }

  lemma SteadyEnough(nq: (nat, nat), s: nat, x: nat, g: nat, d: nat, k: nat, span: nat)
    requires Steady(nq, s, x, g, d) && d > 0 && span == Rounds(k + 1, g + d) && x >= s + span
    ensures nq.0 > k
  {
    if nq.0 <= k {
      FewerRounds(nq.0, k, g + d);
      assert false;
    }
  }

  /** A target near enough to the front for the load period is pinged between any two
      reloads, if the calls are prompt. */
  lemma NearEnough<T>(c: Config, now: nat, calls: seq<Call<T>>, list: seq<T>, a: nat, b: nat, k: nat, d: nat)
    requires SameList(calls, list) && Distinct(list) && k < |list| && Forward(now, calls) && Brisk(calls, d)
    requires Stretch(c, now, calls, a, b) && b < |calls| && Reloads(c, now, calls, b)
    requires Prompt(c, |list|, now, calls, d) && d > 0
    requires (k + 2) * (GapOf(c, |list|, true) + d) + d <= (c.loadSeconds + 1) * 1000000000
    ensures EverServed(c, now, calls, list[k])
  {
    var r := GapOf(c, |list|, true) + d;
    RoundsIsProduct(k + 2, r);
    RoundsIsProduct(k + 1, r);
    StretchLoadTime(c, now, calls, a, b, b);
    LastPingBefore(c, |list|, now, calls, b, calls[b - 1].pingNow);
    LongStretchServes(c, now, calls, list, a, b, k, d);
  }
}
