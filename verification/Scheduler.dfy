/** The send scheduler: whom to ping next, how long to wait, and what becomes of
    the target list when a reload fails. Times are nanoseconds of one clock that
    never goes back. */
module Scheduler {
  import opened Bits
  import opened Common

  /** What a reload found: a file that cannot be read, or a list, complete or cut
      short by an entry that is not what it should be. */
  datatype Load<T> = FileFailed | Parsed(list: seq<T>, complete: bool)

  /** `interval` is the configured time between two pings of one target;
      `idleSleep` what to wait when there is no target. */
  datatype Config = Config(interval: nat, loadSeconds: nat, idleSleep: nat)

  datatype State<T> = State(addresses: seq<T>, idx: nat, gap: nat, retries: nat, lastPing: nat, lastLoad: nat)

  datatype Answer<T> = Target(address: T) | NoTarget(sleep: nat) | TooSoon(sleep: nat)

  /** One call of `next`: when it looks at the clock, and what a reload would find. */
  datatype Call<T> = Call(loadNow: nat, pingNow: nat, file: Load<T>)

  const MAX_RETRY_LOAD_YAML: nat := 3
  const DEFAULT_GAP: nat := 1000
  const IDLE_GAP: nat := 1000000

  function Start<T>(now: nat): State<T> {
    State([], 0, DEFAULT_GAP, 0, now, now)
  }

  /** A list cut short is used all the same, and counts as one failure. */
  function Reload<T>(c: Config, s: State<T>, file: Load<T>): State<T> {
    match file
    case FileFailed => Failed(s.(idx := 0))
    case Parsed(list, complete) =>
      var r := s.(addresses := list, idx := 0, retries := 0,
                  gap := if list != [] then c.interval / |list| else IDLE_GAP);
      if complete then r else Failed(r)
  }

  function Failed<T>(s: State<T>): State<T> {
    if s.retries + 1 >= MAX_RETRY_LOAD_YAML then s.(addresses := [], retries := 0) else s.(retries := s.retries + 1)
  }

  predicate ReloadDue<T>(c: Config, s: State<T>, loadNow: nat) {
    loadNow >= s.lastLoad && (loadNow - s.lastLoad) / 1000000000 > c.loadSeconds
  }

  function ElapsedUs<T>(s: State<T>, now: nat): nat {
    if now >= s.lastPing then (now - s.lastPing) / 1000 else 0
  }

  function Refreshed<T>(c: Config, s: State<T>, call: Call<T>): State<T> {
    if ReloadDue(c, s, call.loadNow) then Reload(c, s, call.file).(lastLoad := call.loadNow) else s
  }

  function Step<T>(c: Config, s: State<T>, call: Call<T>): (State<T>, Answer<T>) {
    Serve(c, Refreshed(c, s, call), call.pingNow)
  }

  function Serve<T>(c: Config, s: State<T>, now: nat): (State<T>, Answer<T>) {
    if ElapsedUs(s, now) < s.gap then (s, TooSoon(s.gap - ElapsedUs(s, now)))
    else if s.addresses == [] then (s.(lastPing := now), NoTarget(c.idleSleep))
    else
      (s.(lastPing := now, idx := (s.idx + 1) % |s.addresses|), Target(s.addresses[s.idx % |s.addresses|]))
  }

  // -------------------------------------------------------------------- invariant

  /** Whenever there are targets, the gap is their share of the interval. */
  ghost predicate Paced<T>(c: Config, s: State<T>) {
    && s.retries < MAX_RETRY_LOAD_YAML
    && (s.addresses == [] ==> s.idx == 0)
    && (s.addresses != [] ==> s.idx < |s.addresses| && s.gap == c.interval / |s.addresses|)
  }

  lemma StepKeepsPaced<T>(c: Config, s: State<T>, call: Call<T>)
    requires Paced(c, s)
    ensures Paced(c, Step(c, s, call).0)
  {
  }

  function Run<T>(c: Config, s: State<T>, calls: seq<Call<T>>): State<T> {
    if calls == [] then s else Step(c, Run(c, s, calls[..|calls| - 1]), calls[|calls| - 1]).0
  }

  lemma {:induction false} RunKeepsPaced<T>(c: Config, now: nat, calls: seq<Call<T>>)
    ensures Paced(c, Run(c, Start(now), calls))
  {
    if calls != [] {
      RunKeepsPaced(c, now, calls[..|calls| - 1]);
      StepKeepsPaced(c, Run(c, Start(now), calls[..|calls| - 1]), calls[|calls| - 1]);
    }
  }

  // ----------------------------------------------------- fairness between two loads

  /** None of the calls reloads, and the clock never goes back. */
  ghost predicate Quiet<T>(c: Config, s: State<T>, calls: seq<Call<T>>) {
    && (forall k :: 0 <= k < |calls| ==> !ReloadDue(c, s, calls[k].loadNow) && calls[k].pingNow >= s.lastPing)
    && (forall j, k :: 0 <= j < k < |calls| ==> calls[j].pingNow <= calls[k].pingNow)
  }

  /** The targets handed out, and when. */
  function Served<T>(c: Config, s: State<T>, calls: seq<Call<T>>): seq<(T, nat)> {
    if calls == [] then []
    else
      var a := Step(c, Run(c, s, calls[..|calls| - 1]), calls[|calls| - 1]).1;
      Served(c, s, calls[..|calls| - 1]) + if a.Target? then [(a.address, calls[|calls| - 1].pingNow)] else []
  }

  /** The index `j` turns after `i`. */
  function Turn(i: nat, j: nat, n: nat): (r: nat)
    requires i < n
    ensures r < n
  {
    if j == 0 then i else NextIndex(Turn(i, j - 1, n), n)
  }

  lemma {:induction false} TurnsAdd(i: nat, a: nat, b: nat, n: nat)
    requires i < n
    ensures Turn(i, a + b, n) == Turn(Turn(i, a, n), b, n)
  {
    if b > 0 {
      TurnsAdd(i, a, b - 1, n);
    }
  }

  lemma {:induction false} TurnAt(i: nat, j: nat, n: nat)
    requires i < n && j < n
    ensures Turn(i, j, n) == At(i, j, n)
  {
    if j > 0 {
      TurnAt(i, j - 1, n);
    }
  }

  /** A call without a reload: too soon, or the next target in turn. */
  lemma ServeInTurn<T>(c: Config, s: State<T>, now: nat)
    requires Paced(c, s) && s.addresses != [] && now >= s.lastPing
    ensures var (r, a) := Serve(c, s, now);
            if now - s.lastPing < 1000 * s.gap then a.TooSoon? && r == s
            else a == Target(s.addresses[s.idx]) && r == s.(lastPing := now, idx := NextIndex(s.idx, |s.addresses|))
  {
    SmallMod(s.idx, |s.addresses|);
    SmallMod(s.idx + 1, |s.addresses|);
  }

  /** From `s` to `r` the targets `q` were handed out in turn, a gap apart. */
  ghost predicate InTurn<T>(s: State<T>, r: State<T>, q: seq<(T, nat)>)
    requires s.idx < |s.addresses|
  {
    && r == s.(idx := Turn(s.idx, |q|, |s.addresses|), lastPing := if q == [] then s.lastPing else q[|q| - 1].1)
    && (forall j :: 0 <= j < |q| ==> q[j].0 == s.addresses[Turn(s.idx, j, |s.addresses|)])
    && (forall j :: 0 <= j < |q| - 1 ==> q[j + 1].1 - q[j].1 >= 1000 * s.gap)
  }

  lemma InTurnOneMore<T>(c: Config, s: State<T>, m: State<T>, q: seq<(T, nat)>, now: nat)
    requires Paced(c, s) && s.addresses != [] && InTurn(s, m, q) && now >= m.lastPing
    ensures var (r, a) := Serve(c, m, now); InTurn(s, r, q + if a.Target? then [(a.address, now)] else [])
    ensures Serve(c, m, now).0.lastPing <= now
  {
    ServeInTurn(c, m, now);
    var a := Serve(c, m, now).1;
    if a.Target? {
      var t := q + [(a.address, now)];
      assert forall j :: 0 <= j < |q| ==> t[j] == q[j];
    } else {
      assert q + [] == q;
    }
  }

  /** While no reload happens, the targets are handed out in turn, each at least a
      gap after the one before. */
  lemma {:induction false} RoundRobin<T>(c: Config, s: State<T>, calls: seq<Call<T>>)
    requires Paced(c, s) && s.addresses != [] && Quiet(c, s, calls)
    ensures InTurn(s, Run(c, s, calls), Served(c, s, calls))
    ensures calls != [] ==> Run(c, s, calls).lastPing <= calls[|calls| - 1].pingNow
  {
    if calls != [] {
      var front, call := calls[..|calls| - 1], calls[|calls| - 1];
      RoundRobin(c, s, front);
      var m, q := Run(c, s, front), Served(c, s, front);
      assert front != [] ==> front[|front| - 1].pingNow <= call.pingNow;
      InTurnOneMore(c, s, m, q, call.pingNow);
      var a := Serve(c, m, call.pingNow).1;
      assert Step(c, m, call) == Serve(c, m, call.pingNow);
      assert Served(c, s, calls) == q + if a.Target? then [(a.address, call.pingNow)] else [];
    }
  }

  function Targets<T>(q: seq<(T, nat)>, a: nat, n: nat): (w: seq<T>)
    requires a + n <= |q|
    ensures |w| == n && forall j :: 0 <= j < n ==> w[j] == q[a + j].0
  {
    seq(n, j requires 0 <= j < n => q[a + j].0)
  }

  /** Any window of n consecutive targets, n the length of the list, is the list
      up to order: each target exactly once. */
  lemma EachOnceInAnyWindow<T>(c: Config, s: State<T>, calls: seq<Call<T>>, a: nat)
    requires Paced(c, s) && s.addresses != [] && Quiet(c, s, calls)
    requires a + |s.addresses| <= |Served(c, s, calls)|
    ensures multiset(Targets(Served(c, s, calls), a, |s.addresses|)) == multiset(s.addresses)
  {
    RoundRobin(c, s, calls);
    WindowIsRotation(s, Run(c, s, calls), Served(c, s, calls), a);
  }

  lemma WindowIsRotation<T>(s: State<T>, r: State<T>, q: seq<(T, nat)>, a: nat)
    requires s.idx < |s.addresses| && InTurn(s, r, q) && a + |s.addresses| <= |q|
    ensures multiset(Targets(q, a, |s.addresses|)) == multiset(s.addresses)
  {
    var n := |s.addresses|;
    var w, i := Targets(q, a, n), Turn(s.idx, a, n);
    forall j | 0 <= j < n
      ensures w[j] == s.addresses[At(i, j, n)]
    {
      TurnsAdd(s.idx, a, j, n);
      TurnAt(i, j, n);
    }
    assert w == s.addresses[i..] + s.addresses[..i];
    assert s.addresses == s.addresses[..i] + s.addresses[i..];
  }

  lemma {:induction false} GapsAddUp<T>(q: seq<(T, nat)>, g: nat, i: nat, k: nat)
    requires forall j :: 0 <= j < |q| - 1 ==> q[j + 1].1 - q[j].1 >= g
    requires i + k < |q|
    ensures q[i + k].1 - q[i].1 >= k * g
  {
    if k > 0 {
      GapsAddUp(q, g, i, k - 1);
      Distribute(k - 1, 1, 0, g);
    }
  }

  /** The same target again: at least one whole round later. */
  lemma SameTargetAfterRound<T>(s: State<T>, r: State<T>, q: seq<(T, nat)>, i: nat, j: nat)
    requires s.idx < |s.addresses| && InTurn(s, r, q) && Distinct(s.addresses)
    requires i < j < |q| && q[i].0 == q[j].0
    ensures j - i >= |s.addresses|
  {
    var n := |s.addresses|;
    if j - i < n {
      TurnsAdd(s.idx, i, j - i, n);
      TurnAt(Turn(s.idx, i, n), j - i, n);
    }
  }

  /** Two returns of one target are at least n gaps apart, which is more than the
      interval less n microseconds. */
  lemma SameTargetIsPaced<T>(c: Config, s: State<T>, calls: seq<Call<T>>, i: nat, j: nat)
    requires Paced(c, s) && s.addresses != [] && Quiet(c, s, calls) && Distinct(s.addresses)
    requires i < j < |Served(c, s, calls)| && Served(c, s, calls)[i].0 == Served(c, s, calls)[j].0
    ensures var n, q := |s.addresses|, Served(c, s, calls);
            && q[j].1 - q[i].1 >= 1000 * (n * (c.interval / n))
            && n * (c.interval / n) > c.interval - n
  {
    var n, q, g := |s.addresses|, Served(c, s, calls), 1000 * s.gap;
    RoundRobin(c, s, calls);
    SameTargetAfterRound(s, Run(c, s, calls), q, i, j);
    GapsAddUp(q, g, i, j - i);
    MulMono(n, j - i, g);
    RoundOfGaps(c.interval, n);
  }

  lemma RoundOfGaps(interval: nat, n: nat)
    requires n > 0
    ensures n * (1000 * (interval / n)) == 1000 * (n * (interval / n))
    ensures n * (interval / n) > interval - n
  {
  }

  // ------------------------------------------------------- fairness across reloads

  /** The targets handed out since the last reload. */
  function SinceReload<T>(c: Config, s: State<T>, calls: seq<Call<T>>): nat
    decreases |calls|, 0
  {
    if calls == [] then 0
    else
      var front, call := calls[..|calls| - 1], calls[|calls| - 1];
      BeforeServing(c, s, front, call) + if Step(c, Run(c, s, front), call).1.Target? then 1 else 0
  }

  /** That number when `call` comes to choose a target: a reload starts over. */
  function BeforeServing<T>(c: Config, s: State<T>, calls: seq<Call<T>>, call: Call<T>): nat
    decreases |calls|, 1
  {
    if ReloadDue(c, Run(c, s, calls), call.loadNow) then 0 else SinceReload(c, s, calls)
  }

  lemma ServeMoves<T>(c: Config, s: State<T>, now: nat)
    requires s.addresses != [] && s.idx < |s.addresses|
    ensures var (r, a) := Serve(c, s, now);
            && r.addresses == s.addresses
            && if a.Target? then a.address == s.addresses[s.idx] && r.idx == NextIndex(s.idx, |s.addresses|)
               else r.idx == s.idx
  {
    SmallMod(s.idx, |s.addresses|);
    SmallMod(s.idx + 1, |s.addresses|);
  }

  /** The index is where that many turns from 0 lead. */
  ghost predicate Turned<T>(s: State<T>, count: nat) {
    s.addresses != [] ==> s.idx < |s.addresses| && s.idx == Turn(0, count, |s.addresses|)
  }

  lemma ServeTurns<T>(c: Config, m: State<T>, now: nat, count: nat)
    requires Turned(m, count)
    ensures var (r, a) := Serve(c, m, now); Turned(r, count + if a.Target? then 1 else 0)
    ensures Serve(c, m, now).1.Target? ==>
              m.addresses != [] && Serve(c, m, now).1.address == m.addresses[Turn(0, count, |m.addresses|)]
  {
    if m.addresses != [] {
      ServeMoves(c, m, now);
    }
  }

  lemma {:induction false} RunTurns<T>(c: Config, now: nat, calls: seq<Call<T>>)
    ensures Turned(Run(c, Start(now), calls), SinceReload(c, Start(now), calls))
  {
    if calls != [] {
      var front, call := calls[..|calls| - 1], calls[|calls| - 1];
      RunTurns(c, now, front);
      ServeTurns(c, Refreshed(c, Run(c, Start<T>(now), front), call), call.pingNow,
                 BeforeServing(c, Start<T>(now), front, call));
    }
  }

  /** In any run, whatever the files held: a call hands out the target that is as
      far round the list as targets were handed out since the last reload. */
  lemma ServedByCount<T>(c: Config, now: nat, calls: seq<Call<T>>, call: Call<T>)
    requires Step(c, Run(c, Start(now), calls), call).1.Target?
    ensures var q := Refreshed(c, Run(c, Start(now), calls), call).addresses;
            var n := BeforeServing(c, Start(now), calls, call);
            q != [] && Step(c, Run(c, Start(now), calls), call).1.address == q[Turn(0, n, |q|)]
  {
    RunTurns(c, now, calls);
    ServeTurns(c, Refreshed(c, Run(c, Start<T>(now), calls), call), call.pingNow,
               BeforeServing(c, Start<T>(now), calls, call));
  }

  /** More than `k` targets were handed out between two reloads, at some time. */
  ghost predicate EverBeyond<T>(c: Config, now: nat, calls: seq<Call<T>>, k: nat) {
    calls != [] && (SinceReload(c, Start(now), calls) > k || EverBeyond(c, now, calls[..|calls| - 1], k))
  }

  ghost predicate EverServed<T>(c: Config, now: nat, calls: seq<Call<T>>, x: T) {
    calls != [] &&
    (Step(c, Run(c, Start(now), calls[..|calls| - 1]), calls[|calls| - 1]).1 == Target(x) ||
     EverServed(c, now, calls[..|calls| - 1], x))
  }

  /** Every file of the run holds the same list. */
  ghost predicate SameList<T>(calls: seq<Call<T>>, list: seq<T>) {
    forall k :: 0 <= k < |calls| ==> calls[k].file == Parsed(list, true)
  }

  lemma {:induction false} SameListStays<T>(c: Config, now: nat, calls: seq<Call<T>>, list: seq<T>)
    requires SameList(calls, list)
    ensures Run(c, Start(now), calls).addresses == list || Run(c, Start(now), calls).addresses == []
  {
    if calls != [] {
      SameListStays(c, now, calls[..|calls| - 1], list);
    }
  }

  lemma SmallTurn(k: nat, n: nat)
    requires k < n
    ensures Turn(0, k, n) == k
  {
    TurnAt(0, k, n);
  }

  /** `Turn(0, count, n)` reaches `k` only once the count does. */
  lemma {:induction false} TurnAtMostCount(count: nat, n: nat)
    requires n > 0
    ensures Turn(0, count, n) <= count
  {
    if count > 0 {
      TurnAtMostCount(count - 1, n);
    }
  }

  /** Reloads start the round over: while the list stays the same, its target number
      `k` is ever pinged exactly if more than `k` targets are at some time handed out
      between two reloads. Those further down the list are never pinged. */
  lemma {:induction false} ServedIff<T>(c: Config, now: nat, calls: seq<Call<T>>, list: seq<T>, k: nat)
    requires SameList(calls, list) && Distinct(list) && k < |list|
    ensures EverServed(c, now, calls, list[k]) <==> EverBeyond(c, now, calls, k)
  {
    if calls != [] {
      var front, call := calls[..|calls| - 1], calls[|calls| - 1];
      assert calls == front + [call];
      ServedIff(c, now, front, list, k);
      LastServed(c, now, front, call, list, k);
      LastCounted(c, now, front, call, k);
    }
  }

  /** How the last call moves the count of targets handed out since a reload. */
  lemma LastCounted<T>(c: Config, now: nat, front: seq<Call<T>>, call: Call<T>, k: nat)
    ensures var n := BeforeServing(c, Start(now), front, call);
            var served := Step(c, Run(c, Start(now), front), call).1.Target?;
            && (n > k ==> EverBeyond(c, now, front, k))
            && (EverBeyond(c, now, front + [call], k) <==> (served && n == k) || n > k || EverBeyond(c, now, front, k))
  {
    assert (front + [call])[..|front|] == front;
    if BeforeServing(c, Start<T>(now), front, call) > k {
      assert SinceReload(c, Start<T>(now), front) > k;
    }
  }

  /** The last call hands out target `k` when the count passes `k`, or else does so
      after the count passed it before. */
  lemma LastServed<T>(c: Config, now: nat, front: seq<Call<T>>, call: Call<T>, list: seq<T>, k: nat)
    requires SameList(front + [call], list) && Distinct(list) && k < |list|
    ensures var n := BeforeServing(c, Start(now), front, call);
            var a := Step(c, Run(c, Start(now), front), call).1;
            && (a == Target(list[k]) ==> n >= k)
            && (a.Target? && n == k ==> a == Target(list[k]))
  {
    var m := Refreshed(c, Run(c, Start<T>(now), front), call);
    var n := BeforeServing(c, Start<T>(now), front, call);
    assert SameList(front, list) && call.file == Parsed(list, true) by {
      assert (front + [call])[|front|] == call;
      assert forall j :: 0 <= j < |front| ==> (front + [call])[j] == front[j];
    }
    SameListStays(c, now, front, list);
    assert m.addresses == list || m.addresses == [];
    if Step(c, Run(c, Start<T>(now), front), call).1.Target? {
      ServedByCount(c, now, front, call);
      TurnAtMostCount(n, |list|);
      SmallTurn(k, |list|);
    }
  }

  lemma {:induction false} LastPingPast<T>(c: Config, now: nat, calls: seq<Call<T>>, x: nat)
    requires now <= x && forall k :: 0 <= k < |calls| ==> calls[k].pingNow <= x
    ensures Run(c, Start(now), calls).lastPing <= x
  {
    if calls != [] {
      LastPingPast(c, now, calls[..|calls| - 1], x);
    }
  }

  /** In any run, after a refusal for being early: a call that comes the wait named
      later, without a reload in between, gets the next target in turn, or learns that
      there is none; one that comes a microsecond sooner than that is refused again. */
  lemma RefusedThenServed<T>(c: Config, now: nat, calls: seq<Call<T>>, call: Call<T>, later: Call<T>)
    requires now <= call.pingNow && forall k :: 0 <= k < |calls| ==> calls[k].pingNow <= call.pingNow
    requires Step(c, Run(c, Start(now), calls), call).1.TooSoon?
    requires !ReloadDue(c, Step(c, Run(c, Start(now), calls), call).0, later.loadNow)
    ensures var (r, a) := Step(c, Run(c, Start(now), calls), call);
            var b := Step(c, r, later).1;
            && (later.pingNow >= call.pingNow + 1000 * a.sleep ==>
                  if r.addresses == [] then b.NoTarget?
                  else r.idx < |r.addresses| && b == Target(r.addresses[r.idx]))
            && (later.pingNow + 1000 <= call.pingNow + 1000 * a.sleep ==> b.TooSoon?)
  {
    LastPingPast(c, now, calls, call.pingNow);
    RunKeepsPaced(c, now, calls);
    StepKeepsPaced(c, Run(c, Start<T>(now), calls), call);
    WaitNamed(c, Refreshed(c, Run(c, Start<T>(now), calls), call), call.pingNow, later.pingNow);
  }

  lemma WaitNamed<T>(c: Config, m: State<T>, now: nat, later: nat)
    requires Paced(c, m) && now >= m.lastPing && Serve(c, m, now).1.TooSoon?
    ensures Serve(c, m, now).0 == m
    ensures later >= now + 1000 * Serve(c, m, now).1.sleep ==>
              if m.addresses == [] then Serve(c, m, later).1.NoTarget?
              else Serve(c, m, later).1 == Target(m.addresses[m.idx])
    ensures later + 1000 <= now + 1000 * Serve(c, m, now).1.sleep ==> Serve(c, m, later).1.TooSoon?
  {
    if m.addresses != [] {
      SmallMod(m.idx, |m.addresses|);
    }
  }

  // ------------------------------------------------------------ what reloads keep

  function Loads<T>(c: Config, s: State<T>, q: seq<Load<T>>): State<T> {
    if q == [] then s else Reload(c, Loads(c, s, q[..|q| - 1]), q[|q| - 1])
  }

  /** How many of the last loads failed in a row. */
  function Streak<T>(q: seq<Load<T>>): nat {
    if q == [] || q[|q| - 1].Parsed? then 0 else Streak(q[..|q| - 1]) + 1
  }

  /** The last load that gave a list. */
  function LastParsed<T>(q: seq<Load<T>>): Load<T> {
    if q == [] then Parsed([], true)
    else if q[|q| - 1].Parsed? then q[|q| - 1]
    else LastParsed(q[..|q| - 1])
  }

  /** The failures counted since the last list: a list cut short is one itself. */
  function Strikes<T>(q: seq<Load<T>>): nat {
    Streak(q) + if LastParsed(q).FileFailed? || LastParsed(q).complete then 0 else 1
  }

  /** Over any sequence of loads: the last list is kept until the third strike,
      and from then on there is none until a load gives one. */
  lemma {:induction false} ThreeStrikes<T>(c: Config, now: nat, q: seq<Load<T>>)
    ensures LastParsed(q).Parsed?
    ensures var s := Loads(c, Start(now), q);
            && s.addresses == (if Strikes(q) < MAX_RETRY_LOAD_YAML then LastParsed(q).list else [])
            && s.retries == Strikes(q) % MAX_RETRY_LOAD_YAML
  {
    if q != [] {
      ThreeStrikes(c, now, q[..|q| - 1]);
      CountToThree(Strikes(q[..|q| - 1]));
    }
  }

  lemma CountToThree(x: nat)
    ensures (x + 1) % 3 == if x % 3 == 2 then 0 else x % 3 + 1
  {
  }

  /** The files that the calls of a run have read. */
  function FilesRead<T>(c: Config, s: State<T>, calls: seq<Call<T>>): seq<Load<T>> {
    if calls == [] then []
    else
      var front, call := calls[..|calls| - 1], calls[|calls| - 1];
      FilesRead(c, s, front) + if ReloadDue(c, Run(c, s, front), call.loadNow) then [call.file] else []
  }

  lemma ReloadOnlyDependsOn<T>(c: Config, s: State<T>, r: State<T>, file: Load<T>)
    requires s.addresses == r.addresses && s.retries == r.retries
    ensures Reload(c, s, file).addresses == Reload(c, r, file).addresses &&
            Reload(c, s, file).retries == Reload(c, r, file).retries
  {
  }

  /** Between reloads a run leaves the list and the count of failures alone. */
  lemma {:induction false} RunIsLoads<T>(c: Config, s: State<T>, calls: seq<Call<T>>)
    ensures var r, l := Run(c, s, calls), Loads(c, s, FilesRead(c, s, calls));
            r.addresses == l.addresses && r.retries == l.retries
  {
    if calls != [] {
      var front, call := calls[..|calls| - 1], calls[|calls| - 1];
      var m, q := Run(c, s, front), FilesRead(c, s, front);
      RunIsLoads(c, s, front);
      if ReloadDue(c, m, call.loadNow) {
        assert (q + [call.file])[..|q|] == q;
        ReloadOnlyDependsOn(c, m, Loads(c, s, q), call.file);
      } else {
        assert q + [] == q;
      }
    }
  }

  /** Over any run of calls, the list is the last one read until the third strike. */
  lemma RunKeepsList<T>(c: Config, now: nat, calls: seq<Call<T>>)
    ensures var q := FilesRead(c, Start(now), calls);
            && LastParsed(q).Parsed?
            && Run(c, Start(now), calls).addresses ==
                 if Strikes(q) < MAX_RETRY_LOAD_YAML then LastParsed(q).list else []
  {
    RunIsLoads(c, Start<T>(now), calls);
    ThreeStrikes(c, now, FilesRead(c, Start<T>(now), calls));
  }

  // ------------------------------------------------------------- when it is time

  /** When the last reload was: a reload comes with the first call that finds a second
      more gone by than the configured ones. */
  function LastReload<T>(c: Config, now: nat, calls: seq<Call<T>>): nat {
    if calls == [] then now
    else
      var last, call := LastReload(c, now, calls[..|calls| - 1]), calls[|calls| - 1];
      if call.loadNow >= last + (c.loadSeconds + 1) * 1000000000 then call.loadNow else last
  }

  /** When the last call was that was not refused for being early. */
  function LastAnswered<T>(c: Config, now: nat, calls: seq<Call<T>>): nat {
    if calls == [] then now
    else
      var front, call := calls[..|calls| - 1], calls[|calls| - 1];
      if Step(c, Run(c, Start(now), front), call).1.TooSoon? then LastAnswered(c, now, front) else call.pingNow
  }

  lemma DueInSeconds<T>(c: Config, s: State<T>, loadNow: nat)
    ensures ReloadDue(c, s, loadNow) <==> loadNow >= s.lastLoad + (c.loadSeconds + 1) * 1000000000
  {
  }

  lemma EarlyInMicroseconds<T>(s: State<T>, now: nat)
    ensures ElapsedUs(s, now) < s.gap <==> s.gap > 0 && now < s.lastPing + 1000 * s.gap
  {
  }

  lemma {:induction false} RunReloads<T>(c: Config, now: nat, calls: seq<Call<T>>)
    ensures Run(c, Start(now), calls).lastLoad == LastReload(c, now, calls)
  {
    if calls != [] {
      var front, call := calls[..|calls| - 1], calls[|calls| - 1];
      RunReloads(c, now, front);
      DueInSeconds(c, Run(c, Start(now), front), call.loadNow);
    }
  }

  lemma {:induction false} RunAnswers<T>(c: Config, now: nat, calls: seq<Call<T>>)
    ensures Run(c, Start(now), calls).lastPing == LastAnswered(c, now, calls)
  {
    if calls != [] {
      RunAnswers(c, now, calls[..|calls| - 1]);
    }
  }

  /** In any run: a call reads the files exactly if a second more than the load period
      has passed since the last reload; it is refused exactly if the gap has not passed
      since the last call that was not, and then told the rest of it; and it learns that
      there is no target, and how long to sleep, exactly if the list is empty. */
  lemma AnsweredWhenDue<T>(c: Config, now: nat, calls: seq<Call<T>>, call: Call<T>)
    ensures FilesRead(c, Start(now), calls + [call]) ==
            FilesRead(c, Start(now), calls) +
            if call.loadNow >= LastReload(c, now, calls) + (c.loadSeconds + 1) * 1000000000 then [call.file] else []
    ensures var s, a := Refreshed(c, Run(c, Start(now), calls), call), Step(c, Run(c, Start(now), calls), call).1;
            var due := LastAnswered(c, now, calls) + 1000 * s.gap;
            && (a.TooSoon? <==> s.gap > 0 && call.pingNow < due)
            && (a.TooSoon? && call.pingNow >= LastAnswered(c, now, calls) ==>
                  due <= call.pingNow + 1000 * a.sleep < due + 1000)
            && (!a.TooSoon? ==> (a.NoTarget? <==> s.addresses == []) && (a.NoTarget? ==> a.sleep == c.idleSleep))
  {
    assert (calls + [call])[..|calls|] == calls;
    RunReloads(c, now, calls);
    RunAnswers(c, now, calls);
    DueInSeconds(c, Run(c, Start(now), calls), call.loadNow);
    EarlyInMicroseconds(Refreshed(c, Run(c, Start(now), calls), call), call.pingNow);
  }

  function Failures<T>(m: nat): (q: seq<Load<T>>)
    ensures |q| == m && forall j :: 0 <= j < m ==> q[j] == FileFailed
  {
    seq(m, _ => FileFailed)
  }

  lemma {:induction false} StrikesAfter<T>(q: seq<Load<T>>, l: Load<T>, m: nat)
    requires l.Parsed?
    ensures Streak(q + [l] + Failures(m)) == m && LastParsed(q + [l] + Failures(m)) == l
  {
    var t := q + [l] + Failures(m);
    if m == 0 {
      assert t == q + [l];
    } else {
      StrikesAfter(q, l, m - 1);
      assert t[..|t| - 1] == q + [l] + Failures(m - 1);
    }
  }

  /** That a list outlives two file failures, and not three, is true of it exactly
      when it was complete. */
  lemma SurvivesTwoIff<T>(c: Config, now: nat, q: seq<Load<T>>, l: Load<T>)
    requires l.Parsed? && l.list != []
    ensures (forall m: nat :: Loads(c, Start(now), q + [l] + Failures(m)).addresses == if m < 3 then l.list else [])
            <==> l.complete
  {
    forall m: nat
      ensures Loads(c, Start(now), q + [l] + Failures(m)).addresses ==
              if m + (if l.complete then 0 else 1) < 3 then l.list else []
    {
      StrikesAfter(q, l, m);
      ThreeStrikes(c, now, q + [l] + Failures(m));
    }
    assert Loads(c, Start(now), q + [l] + Failures(2)).addresses == if l.complete then l.list else [];
  }

  // -------------------------------------------------------------------- the object

  class MsgScheduler<T(==)> {
    var addressInfo: seq<T>
    var addrIdx: nat
    var interPingIntervalUs: nat
    var loadYamlRetryCnt: nat
    var lastPingTime: nat
    var lastLoadTime: nat
    const config: Config

    /** When it was made, and the calls made of it. */
    ghost const born: nat
    ghost var calls: seq<Call<T>>

    ghost function Machine(): State<T>
      reads this
    {
      State(addressInfo, addrIdx, interPingIntervalUs, loadYamlRetryCnt, lastPingTime, lastLoadTime)
    }

    ghost predicate Valid()
      reads this
    {
      Machine() == Run(config, Start(born), calls)
    }

    constructor (c: Config, now: nat)
      ensures Machine() == Start(now) && Valid() && config == c
    {
      addressInfo, addrIdx, interPingIntervalUs, loadYamlRetryCnt := [], 0, DEFAULT_GAP, 0;
      lastPingTime, lastLoadTime, config := now, now, c;
      born, calls := now, [];
    }

    /** At every moment of the object's life: whenever there are targets, the gap is
        their share of the interval; and the targets are the last list read, until
        the third strike. */
    lemma KeepsList()
      requires Valid()
      ensures Paced(config, Machine())
      ensures var q := FilesRead(config, Start(born), calls);
              LastParsed(q).Parsed? &&
              addressInfo == if Strikes(q) < MAX_RETRY_LOAD_YAML then LastParsed(q).list else []
    {
      RunKeepsPaced(config, born, calls);
      RunKeepsList(config, born, calls);
    }

    method LoadAddressInfo(file: Load<T>)
      modifies `addressInfo, `addrIdx, `interPingIntervalUs, `loadYamlRetryCnt
      ensures Machine() == Reload(config, old(Machine()), file)
    {
      addrIdx := 0;
      if file.Parsed? {
        addressInfo := file.list;
        loadYamlRetryCnt := 0;
        interPingIntervalUs := if addressInfo != [] then config.interval / |addressInfo| else IDLE_GAP;
        if file.complete {
          return;
        }
      }
      loadYamlRetryCnt := loadYamlRetryCnt + 1;
      if loadYamlRetryCnt >= MAX_RETRY_LOAD_YAML {
        addressInfo := [];
        loadYamlRetryCnt := 0;
      }
    }

    method Next(loadNow: nat, pingNow: nat, file: Load<T>) returns (answer: Answer<T>)
      requires Valid() && lastLoadTime <= loadNow && lastPingTime <= pingNow
      modifies this
      ensures (Machine(), answer) == Step(config, old(Machine()), Call(loadNow, pingNow, file))
      ensures Valid() && calls == old(calls) + [Call(loadNow, pingNow, file)]
    {
      KeepsList();
      assert (calls + [Call(loadNow, pingNow, file)])[..|calls|] == calls;
      calls := calls + [Call(loadNow, pingNow, file)];
      if (loadNow - lastLoadTime) / 1000000000 > config.loadSeconds {
        LoadAddressInfo(file);
        lastLoadTime := loadNow;
      }
      var elapsed := (pingNow - lastPingTime) / 1000;
      if elapsed >= interPingIntervalUs {
        lastPingTime := pingNow;
        if addressInfo != [] {
          answer := Target(addressInfo[addrIdx % |addressInfo|]);
          addrIdx := (addrIdx + 1) % |addressInfo|;
        } else {
          answer := NoTarget(config.idleSleep);
        }
      } else {
        answer := TooSoon(interPingIntervalUs - elapsed);
      }
    }
  }
}
