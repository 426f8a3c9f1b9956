/** BlockingReaderWriterQueue: the lock-free queue with the semaphore on top,
    both still one memory access at a time. */
module BlockingQueue {
  import opened Common
  import opened Spsc
  import SpscProof
  import SpscTheorems
  import S = Semaphore

  /** Where `try_enqueue` is: in the inner queue, in `signal`, or returned. */
  datatype EnqueuePhase = EIdle | EInner | ESignal | EDone(ok: bool)

  /** Where `try_dequeue` or `wait_dequeue_timed` is: in the semaphore, in the
      inner queue, or returned. `success` is what the inner call said, the value
      the source asserts. */
  datatype DequeuePhase<T> = DIdle | DWait | DInner | DDone(ok: bool, success: bool, result: Cell<T>)

  datatype State<T> = State(
    q: Spsc.State<T>,
    m: S.Sema,
    w: S.WaiterPc,
    g: S.SignallerPc,
    e: EnqueuePhase,
    d: DequeuePhase<T>)

  datatype Event<T> =
    | CallEnqueue(x: T)
    | StepEnqueue
    | CallTryDequeue
    | CallWaitDequeue(timeout: int)
    | StepDequeue(expire: bool)

  function Next<T>(s: State<T>, ev: Event<T>): (r: State<T>)
    requires Shape(s.q)
    ensures Shape(r.q)
  {
    match ev
    case CallEnqueue(x) =>
      if s.e.EIdle? || s.e.EDone? then s.(q := Spsc.Next(s.q, ProducerCall(x)), e := EInner) else s
    case CallTryDequeue =>
      if s.d.DIdle? || s.d.DDone? then s.(w := S.TryWaitCall(), d := DWait) else s
    case CallWaitDequeue(t) =>
      if s.d.DIdle? || s.d.DDone? then s.(w := S.WaitCall(t), d := DWait) else s
    case StepEnqueue =>
      (match s.e
       case EInner => InnerEnqueue(s)
       case ESignal => Signal(s)
       case _ => s)
    case StepDequeue(expire) =>
      (match s.d
       case DWait => Wait(s, expire)
       case DInner => InnerDequeue(s)
       case _ => s)
  }

  function InnerEnqueue<T>(s: State<T>): (r: State<T>)
    requires Shape(s.q)
    ensures Shape(r.q)
  {
    var q := Spsc.Next(s.q, ProducerStep);
    if !q.p.PDone? then s.(q := q)
    else if q.p.ok then s.(q := q, g := S.SAdd, e := ESignal)
    else s.(q := q, e := EDone(false))
  }

  function Signal<T>(s: State<T>): State<T> {
    var (m, g) := S.SignallerStep(s.m, s.g);
    s.(m := m, g := g, e := if g.SIdle? then EDone(true) else s.e)
  }

  function Wait<T>(s: State<T>, expire: bool): (r: State<T>)
    requires Shape(s.q)
    ensures Shape(r.q)
  {
    var (m, w) := S.WaiterStep(s.m, s.w, expire);
    if !w.WDone? then s.(m := m, w := w)
    else if w.ok then s.(m := m, w := w, q := Spsc.Next(s.q, ConsumerCall), d := DInner)
    else s.(m := m, w := w, d := DDone(false, false, Raw))
  }

  function InnerDequeue<T>(s: State<T>): (r: State<T>)
    requires Shape(s.q)
    ensures Shape(r.q)
  {
    var q := Spsc.Next(s.q, ConsumerStep);
    if q.c.CDone? then s.(q := q, d := DDone(true, q.c.ok, q.c.result)) else s.(q := q)
  }

  // --------------------------------------------------------------- invariant

  /** The element of the current inner call is still in the queue. */
  predicate Holding<T>(s: State<T>) { s.d.DInner? && !s.q.c.CStoreFront? }

  /** Each thread is where its phase says. */
  ghost predicate Phases<T>(s: State<T>) {
    && (s.e.EInner? <==> ProducerActive(s.q.p))
    && (s.d.DInner? <==> ConsumerActive(s.q.c))
    && (s.e.ESignal? <==> !s.g.SIdle?)
    && (s.d.DWait? <==> S.WaiterActive(s.w))
  }

  /** Signals follow publication one for one, and each taken token is an element
      dequeued or about to be. */
  ghost predicate Ledger<T>(s: State<T>) {
    && s.m.initial == 0
    && |s.q.enqueued| == s.m.signalled + (if s.g.SAdd? then 1 else 0)
    && s.m.taken == |s.q.dequeued| + (if Holding(s) then 1 else 0)
  }

  ghost predicate Inv<T>(s: State<T>) {
    && SpscProof.Inv(s.q)
    && S.Inv(s.m, s.w, s.g)
    && Phases(s)
    && Ledger(s)
    && (s.d.DInner? ==> s.q.lowWater >= 1)
    && (s.d.DDone? ==> s.d.ok == s.d.success)
    && (s.d.DDone? && s.d.ok ==> s.q.c == CDone(true, s.d.result))
  }

  /** Held elements are the difference between those published and dequeued. */
  lemma HeldCount<T>(q: Spsc.State<T>)
    requires SpscProof.Inv(q)
    ensures |Contents(q)| == |q.enqueued| - |q.dequeued| + (if q.c.CStoreFront? then 1 else 0)
  {
  }

  lemma QueueStep<T>(q: Spsc.State<T>, ev: Spsc.Event<T>)
    requires SpscProof.Inv(q)
    ensures SpscProof.Inv(Spsc.Next(q, ev))
    ensures |Contents(Spsc.Next(q, ev))| ==
            |Spsc.Next(q, ev).enqueued| - |Spsc.Next(q, ev).dequeued| +
              (if Spsc.Next(q, ev).c.CStoreFront? then 1 else 0)
    ensures var r := Spsc.Next(q, ev);
            r.lowWater == if !ConsumerActive(r.c) then q.lowWater
                          else if !ConsumerActive(q.c) || |Contents(r)| < q.lowWater then |Contents(r)| else q.lowWater
  {
    SpscProof.NextKeepsInv(q, ev);
    HeldCount(Spsc.Next(q, ev));
    SpscTheorems.MarksMove(q, ev);
  }

  /** What a producer event does to the histories. */
  lemma ProducerEffect<T>(q: Spsc.State<T>, ev: Spsc.Event<T>)
    requires SpscProof.Inv(q) && (ev.ProducerCall? || ev.ProducerStep?)
    ensures var r := Spsc.Next(q, ev);
            && r.c == q.c && r.dequeued == q.dequeued
            && |r.enqueued| == |q.enqueued| +
                 (if ev.ProducerStep? && ProducerActive(q.p) && r.p == PDone(true) then 1 else 0)
            && (ev.ProducerCall? ==> ProducerActive(r.p))
            && (ProducerActive(q.p) ==> (ProducerActive(r.p) || r.p.PDone?))
  {
    var m := Move(q, ev);
    assert Spsc.Next(q, ev).p == m.p && Spsc.Next(q, ev).c == m.c;
    assert Spsc.Next(q, ev).enqueued == m.enqueued && Spsc.Next(q, ev).dequeued == m.dequeued;
  }

  lemma ConsumerEffect<T>(q: Spsc.State<T>, ev: Spsc.Event<T>)
    requires SpscProof.Inv(q) && (ev.ConsumerCall? || ev.ConsumerStep?)
    ensures var r := Spsc.Next(q, ev);
            && r.p == q.p && r.enqueued == q.enqueued
            && |r.dequeued| == |q.dequeued| + (if ev.ConsumerStep? && r.c.CStoreFront? then 1 else 0)
            && (ev.ConsumerCall? && !ConsumerActive(q.c) ==> r.c.CBegin?)
            && (ConsumerActive(q.c) ==> (ConsumerActive(r.c) || r.c.CDone?))
            && (ev.ConsumerStep? && r.c.CDone? && ConsumerActive(q.c) ==> q.c.CStoreFront? == r.c.ok)
            && (ev.ConsumerStep? && q.c.CStoreFront? ==> r.c.CDone?)
  {
    if q.c.CTake? && ev.ConsumerStep? {
      SpscProof.TakeFirst(q);
    }
    var m := Move(q, ev);
    assert Spsc.Next(q, ev).p == m.p && Spsc.Next(q, ev).c == m.c;
    assert Spsc.Next(q, ev).enqueued == m.enqueued && Spsc.Next(q, ev).dequeued == m.dequeued;
  }

  lemma CallEnqueueKeepsInv<T>(s: State<T>, x: T)
    requires Inv(s)
    ensures Inv(Next(s, CallEnqueue(x)))
  {
    QueueStep(s.q, ProducerCall(x));
    ProducerEffect(s.q, ProducerCall(x));
  }

  lemma InnerEnqueueKeepsInv<T>(s: State<T>)
    requires Inv(s) && s.e.EInner?
    ensures Inv(InnerEnqueue(s))
  {
    QueueStep(s.q, ProducerStep);
    ProducerEffect(s.q, ProducerStep);
  }

  lemma SignalKeepsInv<T>(s: State<T>)
    requires Inv(s) && s.e.ESignal?
    ensures Inv(Signal(s))
  {
    S.SignallerKeepsInv(s.m, s.w, s.g);
  }

  /** A successful wait starts the inner call on a queue that is not empty: the
      token taken was signalled, so its element was published before. */
  lemma GrantKeepsInv<T>(s: State<T>, m: S.Sema, w: S.WaiterPc)
    requires Inv(s) && s.d.DWait? && w == S.WDone(true) && S.Inv(m, w, s.g)
    requires m.taken == s.m.taken + 1 && m.signalled == s.m.signalled && m.initial == s.m.initial
    ensures Inv(s.(m := m, w := w, q := Spsc.Next(s.q, ConsumerCall), d := DInner))
  {
    QueueStep(s.q, ConsumerCall);
    ConsumerEffect(s.q, ConsumerCall);
  }

  lemma WaitOnKeepsInv<T>(s: State<T>, m: S.Sema, w: S.WaiterPc)
    requires Inv(s) && s.d.DWait? && w != S.WDone(true) && w != S.WIdle && S.Inv(m, w, s.g)
    requires m.taken == s.m.taken && m.signalled == s.m.signalled && m.initial == s.m.initial
    ensures Inv(s.(m := m, w := w, d := if w.WDone? then DDone(false, false, Raw) else DWait))
  {
  }

  lemma WaitKeepsInv<T>(s: State<T>, expire: bool)
    requires Inv(s) && s.d.DWait?
    ensures Inv(Wait(s, expire))
  {
    S.WaiterKeepsInv(s.m, s.w, s.g, expire);
    S.TokenPerSuccess(s.m, s.w, expire);
    var (m, w) := S.WaiterStep(s.m, s.w, expire);
    if w == S.WDone(true) {
      GrantKeepsInv(s, m, w);
    } else {
      WaitOnKeepsInv(s, m, w);
    }
  }

  lemma InnerDequeueKeepsInv<T>(s: State<T>)
    requires Inv(s) && s.d.DInner?
    ensures Inv(InnerDequeue(s))
  {
    QueueStep(s.q, ConsumerStep);
    ConsumerEffect(s.q, ConsumerStep);
  }

  lemma StepEnqueueKeepsInv<T>(s: State<T>)
    requires Inv(s)
    ensures Inv(Next(s, StepEnqueue))
  {
    if s.e.EInner? {
      InnerEnqueueKeepsInv(s);
    } else if s.e.ESignal? {
      SignalKeepsInv(s);
    }
  }

  lemma StepDequeueKeepsInv<T>(s: State<T>, expire: bool)
    requires Inv(s)
    ensures Inv(Next(s, StepDequeue(expire)))
  {
    if s.d.DWait? {
      WaitKeepsInv(s, expire);
    } else if s.d.DInner? {
      InnerDequeueKeepsInv(s);
    }
  }

  lemma NextKeepsInv<T>(s: State<T>, ev: Event<T>)
    requires Inv(s)
    ensures Inv(Next(s, ev))
  {
    match ev
    case CallEnqueue(x) => CallEnqueueKeepsInv(s, x);
    case CallTryDequeue =>
    case CallWaitDequeue(_) =>
    case StepEnqueue => StepEnqueueKeepsInv(s);
    case StepDequeue(expire) => StepDequeueKeepsInv(s, expire);
  }

  // ------------------------------------------------------------------ theorems

  /** As constructed: an empty ring of `n` blocks, no token, both threads idle. */
  predicate Initial<T(==)>(s: State<T>, n: nat, size: nat)
    requires RingShape(n, size)
  {
    && s.q == SpscTheorems.Start(n, size)
    && s.m.initial + s.m.signalled + s.m.taken + s.m.kernel == 0 && s.m.count == 0
    && s.w.WIdle? && s.g.SIdle? && s.e.EIdle? && s.d.DIdle?
  }

  lemma IdleParts<T>(s: State<T>)
    requires s.q.p.PIdle? && s.q.c.CIdle? && s.q.enqueued == [] && s.q.dequeued == []
    requires s.m.initial + s.m.signalled + s.m.taken == 0 && s.w.WIdle? && s.g.SIdle? && s.e.EIdle? && s.d.DIdle?
    ensures Phases(s) && Ledger(s)
  {
  }

  /** Before any call: nothing enqueued, no token. */
  lemma IdleKeepsInv<T>(s: State<T>)
    requires SpscProof.Inv(s.q) && S.Inv(s.m, s.w, s.g) && Phases(s) && Ledger(s) && s.d.DIdle?
    ensures Inv(s)
  {
  }

  ghost predicate IsRun<T>(run: seq<State<T>>, evs: seq<Event<T>>) {
    && |run| == |evs| + 1
    && (forall k :: 0 <= k < |run| ==> Shape(run[k].q))
    && (forall k :: 0 <= k < |evs| ==> run[k + 1] == Next(run[k], evs[k]))
  }

  /** What a start state satisfies and every event keeps holds throughout a run. */
  lemma {:induction false} RunInduction<T>(run: seq<State<T>>, evs: seq<Event<T>>, holds: State<T> -> bool, k: nat)
    requires IsRun(run, evs) && k < |run| && holds(run[0])
    requires forall s: State<T>, ev: Event<T> :: Shape(s.q) && holds(s) ==> holds(Next(s, ev))
    ensures holds(run[k])
  {
    if k != 0 {
      RunInduction(run, evs, holds, k - 1);
      assert holds(Next(run[k - 1], evs[k - 1]));
    }
  }

  lemma RunKeepsInv<T>(run: seq<State<T>>, evs: seq<Event<T>>, k: nat)
    requires IsRun(run, evs) && Inv(run[0]) && k < |run|
    ensures Inv(run[k])
  {
    forall s: State<T>, ev: Event<T> | Shape(s.q) && Inv(s)
      ensures Inv(Next(s, ev))
    {
      NextKeepsInv(s, ev);
    }
    RunInduction(run, evs, (s: State<T>) => Inv(s), k);
  }

  lemma InitialInv<T>(s: State<T>, n: nat, size: nat)
    requires RingShape(n, size) && Initial(s, n, size)
    ensures Inv(s)
  {
    SpscTheorems.StartInv<T>(n, size);
    S.IdleInv(s.m, s.w, s.g);
    IdleParts(s);
    IdleKeepsInv(s);
  }

  lemma RunInv<T>(n: nat, size: nat, run: seq<State<T>>, evs: seq<Event<T>>, k: nat)
    requires RingShape(n, size) && IsRun(run, evs) && Initial(run[0], n, size) && k < |run|
    ensures Inv(run[k])
  {
    InitialInv(run[0], n, size);
    RunKeepsInv(run, evs, k);
  }

  lemma Delivered<T>(s: State<T>)
    requires Inv(s)
    ensures s.q.dequeued <= s.q.enqueued
    ensures s.d.DDone? && s.d.ok ==>
              s.d.success && s.q.dequeued != [] && s.d.result == Live(s.q.dequeued[|s.q.dequeued| - 1])
    ensures 0 <= S.Tokens(s.m)
    ensures |Contents(s.q)| == S.Tokens(s.m) + (if s.d.DInner? then 1 else 0) + (if s.g.SAdd? then 1 else 0)
  {
    HeldCount(s.q);
  }

  /** Over every interleaving of try_enqueue with try_dequeue and timed waits:
      once the semaphore has let the consumer through, the inner dequeue
      succeeds, and hands out the next element in order of enqueueing. */
  lemma InnerDequeueAlwaysSucceeds<T>(n: nat, size: nat, run: seq<State<T>>, evs: seq<Event<T>>, k: nat)
    requires RingShape(n, size) && IsRun(run, evs) && Initial(run[0], n, size) && k < |run|
    ensures run[k].q.dequeued <= run[k].q.enqueued
    ensures run[k].d.DDone? && run[k].d.ok ==>
              run[k].d.success && run[k].q.dequeued != [] &&
              run[k].d.result == Live(run[k].q.dequeued[|run[k].q.dequeued| - 1])
  {
    RunInv(n, size, run, evs, k);
    Delivered(run[k]);
  }

  /** Tokens a waiter could take never exceed the elements in the queue, and
      equal them but for one published and not yet signalled and one claimed by
      the dequeue under way. */
  lemma TokensAreElements<T>(n: nat, size: nat, run: seq<State<T>>, evs: seq<Event<T>>, k: nat)
    requires RingShape(n, size) && IsRun(run, evs) && Initial(run[0], n, size) && k < |run|
    ensures 0 <= S.Tokens(run[k].m)
    ensures |Contents(run[k].q)| ==
              S.Tokens(run[k].m) + (if run[k].d.DInner? then 1 else 0) + (if run[k].g.SAdd? then 1 else 0)
  {
    RunInv(n, size, run, evs, k);
    Delivered(run[k]);
  }

  // ------------------------------------------------------------------- patience

  /** A dequeue began with event `i` and is still under way, or has just returned, at `j`. */
  ghost predicate DequeueCall<T>(run: seq<State<T>>, evs: seq<Event<T>>, i: nat, j: nat) {
    && |run| == |evs| + 1 && i < j < |run| && (run[i].d.DIdle? || run[i].d.DDone?)
    && (evs[i].CallTryDequeue? || evs[i].CallWaitDequeue?)
    && forall x :: i < x < j ==> run[x].d.DWait? || run[x].d.DInner?
  }

  /** With timeout `t` not run out: in the semaphore with that, or let through. */
  predicate Patient<T>(s: State<T>, t: int) {
    (s.d.DWait? && S.Unexpired(s.w, t)) || s.d.DInner? || (s.d.DDone? && s.d.ok)
  }

  lemma PatientStep<T>(s: State<T>, ev: Event<T>, r: State<T>, t: int)
    requires Shape(s.q) && r == Next(s, ev) && Patient(s, t) && !s.d.DDone? && t != 0
    requires ev == StepDequeue(true) ==> t < 0
    ensures Patient(r, t)
  {
    if ev.StepDequeue? && s.d.DWait? {
      S.UnexpiredAccess(s.m, s.w, ev.expire, t);
    }
  }

  lemma {:induction false} PatientRun<T>(run: seq<State<T>>, evs: seq<Event<T>>, i: nat, x: nat, j: nat, t: int)
    requires IsRun(run, evs) && DequeueCall(run, evs, i, j) && i < x <= j
    requires evs[i] == CallWaitDequeue(t) && t != 0
    requires t < 0 || forall y :: i < y < j ==> evs[y] != StepDequeue(true)
    ensures Patient(run[x], t)
  {
    if x > i + 1 {
      PatientRun(run, evs, i, x - 1, j, t);
      PatientStep(run[x - 1], evs[x - 1], run[x], t);
    }
  }

  /** In any run, a timed wait whose time does not run out, or that has no end, never
      returns false: it returns with an element or goes on waiting. */
  lemma WaitFailsOnlyExpired<T>(run: seq<State<T>>, evs: seq<Event<T>>, i: nat, j: nat, t: int)
    requires IsRun(run, evs) && DequeueCall(run, evs, i, j) && evs[i] == CallWaitDequeue(t) && t != 0
    requires t < 0 || forall y :: i < y < j ==> evs[y] != StepDequeue(true)
    ensures run[j].d.DDone? ==> run[j].d.ok
  {
    PatientRun(run, evs, i, j, j, t);
  }

  predicate Hasty<T>(s: State<T>) { s.d.DWait? ==> S.Impatient(s.w) }

  lemma HastyStep<T>(s: State<T>, ev: Event<T>, r: State<T>)
    requires Shape(s.q) && r == Next(s, ev) && (s.d.DWait? || s.d.DInner?) && Hasty(s)
    ensures Hasty(r)
  {
    if ev.StepDequeue? && s.d.DWait? {
      S.ImpatientAccess(s.m, s.w, ev.expire);
    }
  }

  /** And a `try_dequeue`, or a wait with no time, is never blocked in the kernel. */
  lemma {:induction false} TryNeverBlocks<T>(run: seq<State<T>>, evs: seq<Event<T>>, i: nat, x: nat, j: nat)
    requires IsRun(run, evs) && DequeueCall(run, evs, i, j) && i < x <= j
    requires evs[i] == CallTryDequeue || evs[i] == CallWaitDequeue(0)
    ensures Hasty(run[x]) && (run[x].d.DWait? ==> !run[x].w.WKernel?)
  {
    if x > i + 1 {
      TryNeverBlocks(run, evs, i, x - 1, j);
      HastyStep(run[x - 1], evs[x - 1], run[x]);
    }
  }

  // ------------------------------------------------------------------- refusals

  /** The enqueue began with event `i`, and was refused with the event before `j`. */
  ghost predicate RefusedEnqueue<T>(run: seq<State<T>>, i: nat, j: nat) {
    && i + 1 < j < |run| && !run[i].e.EInner? && run[j].e == EDone(false)
    && forall k :: i < k < j ==> run[k].e.EInner?
  }

  /** A dequeue or timed wait is still in the semaphore after state `j`, and returns
      false with event `j`. */
  ghost predicate RefusedDequeue<T>(run: seq<State<T>>, j: nat) {
    j < |run| - 1 && run[j].d.DWait? && run[j + 1].d.DDone? && !run[j + 1].d.ok
  }

  /** No token, and nothing in the queue but what is published and not yet signalled. */
  ghost predicate NothingSignalled<T>(s: State<T>)
    requires Shape(s.q)
  {
    S.Tokens(s.m) == 0 && |Contents(s.q)| == if s.g.SAdd? then 1 else 0
  }

  /** As a refused call ends, the semaphore has no token; so the queue is empty but for
      an element published and not yet signalled. */
  lemma RefusedWaitMetNoToken<T>(n: nat, size: nat, run: seq<State<T>>, evs: seq<Event<T>>, j: nat)
    requires RingShape(n, size) && IsRun(run, evs) && Initial(run[0], n, size) && RefusedDequeue(run, j)
    ensures NothingSignalled(run[j])
  {
    RunInv(n, size, run, evs, j);
    NoTokenLeft(run[j], evs[j], run[j + 1]);
  }

  lemma NoTokenLeft<T>(s: State<T>, ev: Event<T>, r: State<T>)
    requires Inv(s) && s.d.DWait? && r == Next(s, ev) && r.d.DDone? && !r.d.ok
    ensures NothingSignalled(s)
  {
    if ev.StepDequeue? {
      S.FalseMetNoToken(s.m, s.w, s.g, ev.expire);
    }
    Delivered(s);
  }

  /** The producer's water mark goes on following what the queue holds. */
  lemma MarkFollows<T>(s: State<T>, ev: Event<T>, r: State<T>)
    requires Inv(s) && r == Next(s, ev)
    ensures r.q.highWater == if !ProducerActive(r.q.p) then s.q.highWater
                             else if !ProducerActive(s.q.p) || s.q.highWater < |Contents(r.q)| then |Contents(r.q)|
                             else s.q.highWater
  {
    if r.q != s.q {
      var e := QueueEvent(s, ev, r);
      SpscTheorems.MarksMove(s.q, e);
    }
  }

  lemma QueueEvent<T>(s: State<T>, ev: Event<T>, r: State<T>) returns (e: Spsc.Event<T>)
    requires Shape(s.q) && r == Next(s, ev) && r.q != s.q
    ensures r.q == Spsc.Next(s.q, e)
  {
    match ev
    case CallEnqueue(x) => e := ProducerCall(x);
    case StepEnqueue => e := ProducerStep;
    case StepDequeue(_) => e := if s.d.DWait? then ConsumerCall else ConsumerStep;
    case _ => e := ProducerStep;
  }

  lemma HighWaterWasHeld<T>(run: seq<State<T>>, evs: seq<Event<T>>, i: nat, j: nat) returns (m: nat)
    requires IsRun(run, evs) && i < j < |run| && Throughout(run)
    requires !ProducerActive(run[i].q.p) && forall k :: i < k < j ==> ProducerActive(run[k].q.p)
    requires ProducerActive(run[i + 1].q.p)
    ensures i < m <= j && ProducerActive(run[m].q.p) && |Contents(run[m].q)| == run[j].q.highWater
  {
    var active, held := (s: State<T>) => ProducerActive(s.q.p), (s: State<T>) => -SpscTheorems.Size(s.q);
    var mark := (s: State<T>) => -(s.q.highWater as int);
    forall k | i <= k < j
      ensures SpscTheorems.Follows(run[k], run[k + 1], active, held, mark)
    {
      assert Inv(run[k]);
      MarkFollows(run[k], evs[k], run[k + 1]);
    }
    m := SpscTheorems.MarkAlong(run, active, held, mark, i, j);
    SpscTheorems.SizeIsLength(run[m].q);
  }

  ghost predicate Throughout<T>(run: seq<State<T>>) {
    forall k {:trigger Inv(run[k])} :: 0 <= k < |run| ==> Inv(run[k])
  }

  /** The last step of a refused call leaves the inner queue as refusing. */
  lemma RefusedInner<T>(s: State<T>, ev: Event<T>, r: State<T>)
    requires Inv(s) && s.e.EInner? && r == Next(s, ev) && r.e == EDone(false)
    ensures r.q.p == PDone(false)
  {
  }

  lemma RefusedHigh<T>(run: seq<State<T>>, evs: seq<Event<T>>, i: nat, j: nat) returns (m: nat)
    requires IsRun(run, evs) && RefusedEnqueue(run, i, j) && Throughout(run)
    ensures i < m < j && |Contents(run[m].q)| >= SpscProof.Capacity(run[j].q)
  {
    ActiveInCall(run, i, j);
    RefusedAtHighWater(run, evs, j);
    m := HighWaterWasHeld(run, evs, i, j);
  }

  lemma RefusedAtHighWater<T>(run: seq<State<T>>, evs: seq<Event<T>>, j: nat)
    requires IsRun(run, evs) && Throughout(run) && 0 < j < |run| && run[j - 1].e.EInner? && run[j].e == EDone(false)
    ensures !ProducerActive(run[j].q.p) && run[j].q.highWater >= SpscProof.Capacity(run[j].q)
  {
    assert run[j - 1 + 1] == Next(run[j - 1], evs[j - 1]);
    assert Inv(run[j - 1]) && Inv(run[j]);
    LastRefusal(run[j - 1], evs[j - 1], run[j]);
  }

  lemma ActiveInner<T>(s: State<T>)
    requires Inv(s)
    ensures s.e.EInner? <==> ProducerActive(s.q.p)
  {
  }

  lemma ActiveInCall<T>(run: seq<State<T>>, i: nat, j: nat)
    requires Throughout(run) && RefusedEnqueue(run, i, j)
    ensures !ProducerActive(run[i].q.p) && forall k :: i < k < j ==> ProducerActive(run[k].q.p)
  {
    assert Inv(run[i]);
    ActiveInner(run[i]);
    forall k | i < k < j
      ensures ProducerActive(run[k].q.p)
    {
      assert Inv(run[k]);
      ActiveInner(run[k]);
    }
  }

  lemma LastRefusal<T>(s: State<T>, ev: Event<T>, r: State<T>)
    requires Inv(s) && Inv(r) && s.e.EInner? && r == Next(s, ev) && r.e == EDone(false)
    ensures !ProducerActive(r.q.p) && r.q.highWater >= SpscProof.Capacity(r.q)
  {
    RefusedInner(s, ev, r);
    SpscTheorems.RefusedHigh(r.q);
  }

  /** A refused `try_enqueue` met, at some moment of the call, a queue holding its full
      capacity. */
  lemma RefusedEnqueueMetFull<T>(n: nat, size: nat, run: seq<State<T>>, evs: seq<Event<T>>, i: nat, j: nat)
    requires RingShape(n, size) && IsRun(run, evs) && Initial(run[0], n, size)
    requires RefusedEnqueue(run, i, j)
    ensures exists m :: i < m < j && |Contents(run[m].q)| >= if n == 1 then size - 1 else (n - 1) * (size - 1)
  {
    forall k | 0 <= k < |run|
      ensures Inv(run[k])
    {
      RunInv(n, size, run, evs, k);
    }
    var m := RefusedHigh(run, evs, i, j);
    CapacityOf(n, size, run, evs, j);
  }

  lemma QueueSize<T>(s: State<T>, ev: Event<T>, r: State<T>)
    requires Shape(s.q) && r == Next(s, ev)
    ensures r.q.size == s.q.size && |r.q.blocks| == |s.q.blocks|
  {
    if r.q != s.q {
      var e := QueueEvent(s, ev, r);
      SpscTheorems.MarksMove(s.q, e);
    }
  }

  lemma {:induction false} RunSize<T>(run: seq<State<T>>, evs: seq<Event<T>>, k: nat)
    requires IsRun(run, evs) && k < |run|
    ensures run[k].q.size == run[0].q.size && |run[k].q.blocks| == |run[0].q.blocks|
  {
    if k != 0 {
      RunSize(run, evs, k - 1);
      QueueSize(run[k - 1], evs[k - 1], run[k - 1 + 1]);
    }
  }

  lemma CapacityOf<T>(n: nat, size: nat, run: seq<State<T>>, evs: seq<Event<T>>, k: nat)
    requires RingShape(n, size) && IsRun(run, evs) && Initial(run[0], n, size) && k < |run|
    ensures SpscProof.Capacity(run[k].q) == if n == 1 then size - 1 else (n - 1) * (size - 1)
  {
    RunSize(run, evs, k);
    SpscProof.RoomIsProduct(n - 1, size - 1);
  }
}
