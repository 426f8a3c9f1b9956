/** BlockingReaderWriterCircularBuffer: a ring of `mask + 1` slots guarded by two
    semaphores, one producer and one consumer, one access at a time. */
module CircularBuffer {
  import opened Bits
  import opened Common
  import S = Semaphore
  import opened TimeDelta

  /** A side waits for a token, uses one slot, signals the other semaphore. */
  datatype ProducerPhase<T> = PIdle | PWait(e: T) | PStore(e: T) | PSignal | PDone(ok: bool)

  datatype ConsumerPhase<T> = CIdle | CWait | CTake | CSignal(result: Cell<T>) | CDone(ok: bool, result: Cell<T>)

  /** `slots` is waited on by the producer and signalled by the consumer, `items`
      the other way round. `enqueued` and `dequeued` are history. */
  datatype State<T> = State(
    size: nat,            // mask + 1
    data: seq<Cell<T>>,
    nextSlot: nat,        // 64-bit, wraps
    nextItem: nat,        // 64-bit, wraps
    slots: S.Sema, slotsWaiter: S.WaiterPc, slotsSignaller: S.SignallerPc,
    items: S.Sema, itemsWaiter: S.WaiterPc, itemsSignaller: S.SignallerPc,
    p: ProducerPhase<T>,
    c: ConsumerPhase<T>,
    enqueued: seq<T>,
    dequeued: seq<T>)

  /** A call with timeout `None` is the `try_` form. */
  datatype Patience = Try | Within(timeout: int)

  datatype Event<T> =
    | CallEnqueue(e: T, patience: Patience)
    | StepEnqueue(expire: bool)
    | CallDequeue(patience: Patience)
    | StepDequeue(expire: bool)

  predicate Shape<T>(s: State<T>) {
    && IsPow2(s.size) && s.size <= WORD && |s.data| == s.size
    && s.nextSlot < WORD && s.nextItem < WORD
  }

  /** `i & mask`. */
  function Slot(i: nat, size: nat): (r: nat)
    requires IsPow2(size)
    ensures r < size
  {
    AndIsMod(i, size);
    And(i, size - 1)
  }

  function WaitFor(patience: Patience): S.WaiterPc {
    match patience
    case Try => S.TryWaitCall()
    case Within(t) => S.WaitCall(t)
  }

  function Next<T>(s: State<T>, ev: Event<T>): (r: State<T>)
    requires Shape(s)
    ensures Shape(r)
  {
    match ev
    case CallEnqueue(e, patience) =>
      if s.p.PIdle? || s.p.PDone? then s.(p := PWait(e), slotsWaiter := WaitFor(patience)) else s
    case CallDequeue(patience) =>
      if s.c.CIdle? || s.c.CDone? then s.(c := CWait, itemsWaiter := WaitFor(patience)) else s
    case StepEnqueue(expire) => ProducerStep(s, expire)
    case StepDequeue(expire) => ConsumerStep(s, expire)
  }

  function ProducerStep<T>(s: State<T>, expire: bool): (r: State<T>)
    requires Shape(s)
    ensures Shape(r)
  {
    match s.p
    case PIdle => s
    case PDone(_) => s
    case PWait(e) =>
      var (m, w) := S.WaiterStep(s.slots, s.slotsWaiter, expire);
      s.(slots := m, slotsWaiter := w, p := if !w.WDone? then s.p else if w.ok then PStore(e) else PDone(false))
    case PStore(e) =>
      s.(nextSlot := NextIndex(s.nextSlot, WORD),
         data := s.data[Slot(s.nextSlot, s.size) := Live(e)],
         enqueued := s.enqueued + [e], itemsSignaller := S.SAdd, p := PSignal)
    case PSignal =>
      var (m, g) := S.SignallerStep(s.items, s.itemsSignaller);
      s.(items := m, itemsSignaller := g, p := if g.SIdle? then PDone(true) else s.p)
  }

  function ConsumerStep<T>(s: State<T>, expire: bool): (r: State<T>)
    requires Shape(s)
    ensures Shape(r)
  {
    match s.c
    case CIdle => s
    case CDone(_, _) => s
    case CWait =>
      var (m, w) := S.WaiterStep(s.items, s.itemsWaiter, expire);
      s.(items := m, itemsWaiter := w, c := if !w.WDone? then s.c else if w.ok then CTake else CDone(false, Raw))
    case CTake =>
      var cell := s.data[Slot(s.nextItem, s.size)];
      s.(nextItem := NextIndex(s.nextItem, WORD),
         data := s.data[Slot(s.nextItem, s.size) := Raw],
         dequeued := if cell.Live? then s.dequeued + [cell.value] else s.dequeued,
         slotsSignaller := S.SAdd, c := CSignal(cell))
    case CSignal(cell) =>
      var (m, g) := S.SignallerStep(s.slots, s.slotsSignaller);
      s.(slots := m, slotsSignaller := g, c := if g.SIdle? then CDone(true, cell) else s.c)
  }

  // -------------------------------------------------------------- wrapping indices

  lemma WordDivides(size: nat) returns (k: nat)
    requires IsPow2(size) && size <= WORD
    ensures WORD == k * size
  {
    var j := IsPow2Log(size);
    if j > 64 {
      Pow2Pos(64, j - 1);
    }
    Pow2Add(64 - j, j);
    k := Pow2(64 - j);
  }

  /** A 64-bit index that has wrapped still names the right slot. */
  lemma WrappedSlot(i: nat, size: nat)
    requires IsPow2(size) && size <= WORD
    ensures Slot(i % WORD, size) == Slot(i, size)
  {
    AndIsMod(i, size);
    AndIsMod(i % WORD, size);
    var k := WordDivides(size);
    WrapThenMod(i, size, k);
  }

  lemma WrappedStep(i: nat, n: nat)
    requires n > 0
    ensures (i + 1) % n == NextIndex(i % n, n)
  {
    var q, r := i / n, i % n;
    if r + 1 == n {
      assert i + 1 == (q + 1) * n;
      DivModUnique(i + 1, n, q + 1, 0);
    } else {
      DivModUnique(i + 1, n, q, r + 1);
    }
  }

  lemma ModsDiffer(i: nat, j: nat, m: nat)
    requires i < j < i + m
    ensures i % m != j % m
  {
    var a, r := i / m, i % m;
    assert i == a * m + r;
    if r + (j - i) < m {
      DivModUnique(j, m, a, r + (j - i));
    } else {
      assert (a + 1) * m == a * m + m;
      DivModUnique(j, m, a + 1, r + (j - i) - m);
    }
  }

  /** Positions less than a ring apart are in different slots. */
  lemma SlotsDiffer(i: nat, j: nat, size: nat)
    requires IsPow2(size) && i < j < i + size
    ensures Slot(i, size) != Slot(j, size)
  {
    AndIsMod(i, size);
    AndIsMod(j, size);
    ModsDiffer(i, j, size);
  }

  lemma ModAround(i: nat, m: nat)
    requires m > 0
    ensures (i + m) % m == i % m
  {
    assert (i / m + 1) * m == i / m * m + m;
    DivModUnique(i + m, m, i / m + 1, i % m);
  }

  // --------------------------------------------------------------------- invariant

  function One(b: bool): nat { if b then 1 else 0 }

  ghost predicate Phases<T>(s: State<T>) {
    && (s.p.PWait? <==> S.WaiterActive(s.slotsWaiter))
    && (s.p.PSignal? <==> !s.itemsSignaller.SIdle?)
    && (s.c.CWait? <==> S.WaiterActive(s.itemsWaiter))
    && (s.c.CSignal? <==> !s.slotsSignaller.SIdle?)
  }

  /** Tokens taken and signalled against elements stored and taken out. */
  ghost predicate Ledger<T>(s: State<T>) {
    && s.items.initial == 0
    && s.slots.taken == |s.enqueued| + One(s.p.PStore?)
    && |s.enqueued| == s.items.signalled + One(s.itemsSignaller.SAdd?)
    && s.items.taken == |s.dequeued| + One(s.c.CTake?)
    && |s.dequeued| == s.slots.signalled + One(s.slotsSignaller.SAdd?)
  }

  ghost predicate Indices<T>(s: State<T>)
  {
    s.nextSlot == |s.enqueued| % WORD && s.nextItem == |s.dequeued| % WORD
  }

  /** Slots from the next item to the next slot hold what was enqueued there;
      the rest of the ring is raw. */
  ghost predicate RingOf<T>(data: seq<Cell<T>>, size: nat, enqueued: seq<T>, dequeued: seq<T>)
    requires IsPow2(size) && |data| == size
  {
    && dequeued <= enqueued
    && (forall k :: |dequeued| <= k < |enqueued| ==> data[Slot(k, size)] == Live(enqueued[k]))
    && (forall k :: |enqueued| <= k < |dequeued| + size ==> data[Slot(k, size)] == Raw)
  }

  ghost predicate Ring<T>(s: State<T>)
    requires Shape(s)
  {
    && RingOf(s.data, s.size, s.enqueued, s.dequeued)
    && (s.c.CSignal? || (s.c.CDone? && s.c.ok) ==>
          s.dequeued != [] && s.c.result == Live(s.dequeued[|s.dequeued| - 1]))
  }

  ghost predicate Inv<T>(s: State<T>) {
    && Shape(s) && s.slots.initial <= s.size
    && S.Inv(s.slots, s.slotsWaiter, s.slotsSignaller)
    && S.Inv(s.items, s.itemsWaiter, s.itemsSignaller)
    && Phases(s) && Ledger(s) && Indices(s) && Ring(s)
  }

  lemma ProducerWaitKeepsInv<T>(s: State<T>, expire: bool)
    requires Inv(s) && s.p.PWait?
    ensures Inv(ProducerStep(s, expire))
  {
    S.WaiterKeepsInv(s.slots, s.slotsWaiter, s.slotsSignaller, expire);
    S.TokenPerSuccess(s.slots, s.slotsWaiter, expire);
    ProducerWaited(s, ProducerStep(s, expire), s.p.e);
  }

  lemma ProducerWaited<T>(s: State<T>, r: State<T>, e: T)
    requires Inv(s) && Shape(r) && s.p == PWait(e) && r == s.(slots := r.slots, slotsWaiter := r.slotsWaiter, p := r.p)
    requires S.Inv(r.slots, r.slotsWaiter, r.slotsSignaller) && !r.slotsWaiter.WIdle?
    requires r.slots.initial == s.slots.initial && r.slots.signalled == s.slots.signalled
    requires r.slots.taken == s.slots.taken + One(r.slotsWaiter == S.WDone(true))
    requires r.p == if !r.slotsWaiter.WDone? then s.p else if r.slotsWaiter.ok then PStore(e) else PDone(false)
    ensures Inv(r)
  {
  }

  lemma ProducerSignalKeepsInv<T>(s: State<T>, expire: bool)
    requires Inv(s) && s.p.PSignal?
    ensures Inv(ProducerStep(s, expire))
  {
    S.SignallerKeepsInv(s.items, s.itemsWaiter, s.itemsSignaller);
  }

  lemma RingStore<T>(data: seq<Cell<T>>, size: nat, enqueued: seq<T>, dequeued: seq<T>, e: T)
    requires IsPow2(size) && |data| == size && RingOf(data, size, enqueued, dequeued) && |enqueued| < |dequeued| + size
    ensures data[Slot(|enqueued|, size)] == Raw
    ensures RingOf(data[Slot(|enqueued|, size) := Live(e)], size, enqueued + [e], dequeued)
  {
    var n, d := |enqueued|, |dequeued|;
    forall k | d <= k < d + size && k != n
      ensures Slot(k, size) != Slot(n, size)
    {
      if k < n { SlotsDiffer(k, n, size); } else { SlotsDiffer(n, k, size); }
    }
  }

  /** Where the wrapped index of number `n` points, and where it moves. */
  lemma NumberedSlot(n: nat, size: nat)
    requires IsPow2(size) && size <= WORD
    ensures Slot(n % WORD, size) == Slot(n, size)
    ensures NextIndex(n % WORD, WORD) == (n + 1) % WORD
  {
    WrappedSlot(n, size);
    WrappedStep(n, WORD);
  }

  lemma StoreRoom<T>(s: State<T>)
    requires Inv(s) && s.p.PStore?
    ensures |s.enqueued| < |s.dequeued| + s.size
  {
    assert |s.enqueued| < |s.dequeued| + s.slots.initial;
  }

  lemma StoredRing<T>(s: State<T>, r: State<T>, e: T)
    requires Shape(s) && Shape(r) && Ring(s) && Indices(s) && |s.enqueued| < |s.dequeued| + s.size
    requires r.size == s.size && r.c == s.c && r.dequeued == s.dequeued && r.enqueued == s.enqueued + [e]
    requires r.data == s.data[Slot(s.nextSlot, s.size) := Live(e)]
    requires r.nextItem == s.nextItem && r.nextSlot == NextIndex(s.nextSlot, WORD)
    ensures s.data[Slot(s.nextSlot, s.size)] == Raw && Ring(r) && Indices(r)
  {
    NumberedSlot(|s.enqueued|, s.size);
    RingStore(s.data, s.size, s.enqueued, s.dequeued, e);
  }

  lemma StoreKeepsRing<T>(s: State<T>, expire: bool)
    requires Inv(s) && s.p.PStore?
    ensures s.data[Slot(s.nextSlot, s.size)] == Raw
    ensures Ring(ProducerStep(s, expire)) && Indices(ProducerStep(s, expire))
  {
    StoreRoom(s);
    StoredRing(s, ProducerStep(s, expire), s.p.e);
  }

  lemma StoreKeepsInv<T>(s: State<T>, expire: bool)
    requires Inv(s) && s.p.PStore?
    ensures Inv(ProducerStep(s, expire))
  {
    StoreKeepsRing(s, expire);
  }

  lemma ConsumerWaitKeepsInv<T>(s: State<T>, expire: bool)
    requires Inv(s) && s.c.CWait?
    ensures Inv(ConsumerStep(s, expire))
  {
    S.WaiterKeepsInv(s.items, s.itemsWaiter, s.itemsSignaller, expire);
    S.TokenPerSuccess(s.items, s.itemsWaiter, expire);
    ConsumerWaited(s, ConsumerStep(s, expire));
  }

  lemma ConsumerWaited<T>(s: State<T>, r: State<T>)
    requires Inv(s) && Shape(r) && s.c.CWait? && r == s.(items := r.items, itemsWaiter := r.itemsWaiter, c := r.c)
    requires S.Inv(r.items, r.itemsWaiter, r.itemsSignaller) && !r.itemsWaiter.WIdle?
    requires r.items.initial == s.items.initial && r.items.signalled == s.items.signalled
    requires r.items.taken == s.items.taken + One(r.itemsWaiter == S.WDone(true))
    requires r.c == if !r.itemsWaiter.WDone? then s.c else if r.itemsWaiter.ok then CTake else CDone(false, Raw)
    ensures Inv(r)
  {
  }

  lemma ConsumerSignalKeepsInv<T>(s: State<T>, expire: bool)
    requires Inv(s) && s.c.CSignal?
    ensures Inv(ConsumerStep(s, expire))
  {
    S.SignallerKeepsInv(s.slots, s.slotsWaiter, s.slotsSignaller);
  }

  lemma RingTake<T>(data: seq<Cell<T>>, size: nat, enqueued: seq<T>, dequeued: seq<T>)
    requires IsPow2(size) && |data| == size && RingOf(data, size, enqueued, dequeued)
    requires |dequeued| < |enqueued| <= |dequeued| + size
    ensures data[Slot(|dequeued|, size)] == Live(enqueued[|dequeued|])
    ensures RingOf(data[Slot(|dequeued|, size) := Raw], size, enqueued, dequeued + [enqueued[|dequeued|]])
  {
    var d := |dequeued|;
    forall k | d < k < d + size
      ensures Slot(k, size) != Slot(d, size)
    {
      SlotsDiffer(d, k, size);
    }
    SlotAround(d, size);
  }

  lemma TakeRoom<T>(s: State<T>)
    requires Inv(s) && s.c.CTake?
    ensures |s.dequeued| < |s.enqueued| <= |s.dequeued| + s.size
  {
  }

  lemma TakenRing<T>(s: State<T>, r: State<T>)
    requires Shape(s) && Shape(r) && RingOf(s.data, s.size, s.enqueued, s.dequeued) && Indices(s)
    requires |s.dequeued| < |s.enqueued| <= |s.dequeued| + s.size
    requires r.size == s.size && r.enqueued == s.enqueued && r.dequeued == s.dequeued + [s.enqueued[|s.dequeued|]]
    requires r.data == s.data[Slot(s.nextItem, s.size) := Raw]
    requires r.nextSlot == s.nextSlot && r.nextItem == NextIndex(s.nextItem, WORD)
    ensures s.data[Slot(s.nextItem, s.size)] == Live(s.enqueued[|s.dequeued|])
    ensures RingOf(r.data, r.size, r.enqueued, r.dequeued) && Indices(r)
  {
    NumberedSlot(|s.dequeued|, s.size);
    RingTake(s.data, s.size, s.enqueued, s.dequeued);
  }

  /** The element taken is the oldest. */
  lemma TakeFinds<T>(s: State<T>)
    requires Shape(s) && RingOf(s.data, s.size, s.enqueued, s.dequeued) && Indices(s)
    requires |s.dequeued| < |s.enqueued| <= |s.dequeued| + s.size
    ensures s.data[Slot(s.nextItem, s.size)] == Live(s.enqueued[|s.dequeued|])
  {
    NumberedSlot(|s.dequeued|, s.size);
  }

  lemma TakeKeepsRing<T>(s: State<T>, expire: bool)
    requires Inv(s) && s.c.CTake?
    ensures |s.dequeued| < |s.enqueued| && s.data[Slot(s.nextItem, s.size)] == Live(s.enqueued[|s.dequeued|])
    ensures Ring(ConsumerStep(s, expire)) && Indices(ConsumerStep(s, expire))
  {
    TakeRoom(s);
    TakeFinds(s);
    TakenRing(s, ConsumerStep(s, expire));
  }

  lemma SlotAround(i: nat, size: nat)
    requires IsPow2(size)
    ensures Slot(i + size, size) == Slot(i, size)
  {
    AndIsMod(i, size);
    AndIsMod(i + size, size);
    ModAround(i, size);
  }

  lemma TakeKeepsInv<T>(s: State<T>, expire: bool)
    requires Inv(s) && s.c.CTake?
    ensures Inv(ConsumerStep(s, expire))
  {
    TakeKeepsRing(s, expire);
  }

  lemma CallKeepsInv<T>(s: State<T>, ev: Event<T>)
    requires Inv(s) && (ev.CallEnqueue? || ev.CallDequeue?)
    ensures Inv(Next(s, ev))
  {
    if ev.CallEnqueue? {
      CallEnqueueKeepsInv(s, Next(s, ev));
    } else {
      CallDequeueKeepsInv(s, Next(s, ev));
    }
  }

  lemma CallEnqueueKeepsInv<T>(s: State<T>, r: State<T>)
    requires Inv(s) && Shape(r) && r == s.(p := r.p, slotsWaiter := r.slotsWaiter)
    requires r == s || ((s.p.PIdle? || s.p.PDone?) && r.p.PWait? && r.slotsWaiter.WTry?)
    ensures Inv(r)
  {
    if r != s {
      S.CallKeepsInv(s.slots, s.slotsWaiter, r.slotsWaiter, s.slotsSignaller);
    }
  }

  lemma CallDequeueKeepsInv<T>(s: State<T>, r: State<T>)
    requires Inv(s) && Shape(r) && r == s.(c := r.c, itemsWaiter := r.itemsWaiter)
    requires r == s || ((s.c.CIdle? || s.c.CDone?) && r.c.CWait? && r.itemsWaiter.WTry?)
    ensures Inv(r)
  {
    if r != s {
      S.CallKeepsInv(s.items, s.itemsWaiter, r.itemsWaiter, s.itemsSignaller);
    }
  }

  lemma ProducerKeepsInv<T>(s: State<T>, expire: bool)
    requires Inv(s)
    ensures Inv(ProducerStep(s, expire))
  {
    if s.p.PWait? {
      ProducerWaitKeepsInv(s, expire);
    } else if s.p.PStore? {
      StoreKeepsInv(s, expire);
    } else if s.p.PSignal? {
      ProducerSignalKeepsInv(s, expire);
    }
  }

  lemma ConsumerKeepsInv<T>(s: State<T>, expire: bool)
    requires Inv(s)
    ensures Inv(ConsumerStep(s, expire))
  {
    if s.c.CWait? {
      ConsumerWaitKeepsInv(s, expire);
    } else if s.c.CTake? {
      TakeKeepsInv(s, expire);
    } else if s.c.CSignal? {
      ConsumerSignalKeepsInv(s, expire);
    }
  }

  lemma NextKeepsInv<T>(s: State<T>, ev: Event<T>)
    requires Inv(s)
    ensures Inv(Next(s, ev))
  {
    match ev
    case CallEnqueue(_, _) => CallKeepsInv(s, ev);
    case CallDequeue(_) => CallKeepsInv(s, ev);
    case StepEnqueue(expire) => ProducerKeepsInv(s, expire);
    case StepDequeue(expire) => ConsumerKeepsInv(s, expire);
  }

  // ---------------------------------------------------------------------- theorems

  /** As constructed for `capacity` elements, with `size - 1` the mask. */
  function Start<T>(capacity: nat, size: nat): (s: State<T>)
    requires IsPow2(size) && size <= WORD
    ensures Shape(s)
  {
    State(size, seq(size, _ => Raw), 0, 0,
          S.Sema(capacity, capacity, 0, 0, 0), S.WIdle, S.SIdle, S.Sema(0, 0, 0, 0, 0), S.WIdle, S.SIdle,
          PIdle, CIdle, [], [])
  }

  /** The constructor's mask: one less than the least power of two at or above
      the capacity, over the whole range of a 64-bit size but 0, where the
      decrement wraps. At 0 and above 2^63 the mask is all ones. */
  method MaskFor(capacity: nat) returns (mask: nat)
    requires capacity < WORD
    ensures mask < WORD && IsPow2(mask + 1) && capacity <= mask + 1
    ensures capacity > 0 ==> LeastPow2(capacity, mask + 1)
    ensures mask + 1 == WORD <==> capacity == 0 || 2 * capacity > WORD
  {
    mask := SmearDown(if capacity == 0 then WORD - 1 else capacity - 1);
    Pow2IsEven(64);
    Wraps(capacity, mask + 1, WORD);
  }

  /** No power of two from `x` up is below `p`. */
  ghost predicate LeastPow2(x: nat, p: nat) {
    forall q: nat :: IsPow2(q) && x <= q ==> p <= q
  }

  /** Fills the bits below the top one: one less than the least power of two above. */
  method SmearDown(c: nat) returns (mask: nat)
    requires c < WORD
    ensures mask < WORD && IsPow2(mask + 1) && c <= mask && LeastPow2(c + 1, mask + 1)
    ensures mask + 1 == WORD <==> 2 * c >= WORD
  {
    ghost var k := BitLength(c);
    CeilingOf(c, k);
    mask := Smear(c, k);
    assert mask + 1 == Pow2(k);
  }

  ghost predicate IsRun<T>(run: seq<State<T>>, evs: seq<Event<T>>) {
    && |run| == |evs| + 1
    && (forall k :: 0 <= k < |run| ==> Shape(run[k]))
    && (forall k :: 0 <= k < |evs| ==> run[k + 1] == Next(run[k], evs[k]))
  }

  lemma InitialFixed<T>(s: State<T>, ev: Event<T>)
    requires Shape(s)
    ensures Next(s, ev).slots.initial == s.slots.initial && Next(s, ev).size == s.size
  {
  }

  lemma {:induction false} RunKeepsInv<T>(run: seq<State<T>>, evs: seq<Event<T>>, k: nat)
    requires IsRun(run, evs) && Inv(run[0]) && k < |run|
    ensures Inv(run[k]) && run[k].slots.initial == run[0].slots.initial && run[k].size == run[0].size
  {
    if k != 0 {
      RunKeepsInv(run, evs, k - 1);
      NextKeepsInv(run[k - 1], evs[k - 1]);
      InitialFixed(run[k - 1], evs[k - 1]);
    }
  }

  lemma StartInv<T>(capacity: nat, size: nat)
    requires IsPow2(size) && capacity <= size <= WORD
    ensures Inv(Start<T>(capacity, size))
  {
    StartRing<T>(capacity, size);
    DivModUnique(0, WORD, 0, 0);
  }

  lemma StartRing<T>(capacity: nat, size: nat)
    requires IsPow2(size) && size <= WORD
    ensures Ring(Start<T>(capacity, size))
  {
    var s := Start<T>(capacity, size);
    forall k: nat
      ensures s.data[Slot(k, size)] == Raw
    {
    }
  }

  lemma RunInv<T>(capacity: nat, size: nat, run: seq<State<T>>, evs: seq<Event<T>>, k: nat)
    requires IsPow2(size) && capacity <= size <= WORD
    requires IsRun(run, evs) && run[0] == Start(capacity, size) && k < |run|
    ensures Inv(run[k]) && run[k].slots.initial == capacity && run[k].size == size
  {
    StartInv<T>(capacity, size);
    RunKeepsInv(run, evs, k);
  }

  /** The operations between their wait and the end of their signal's
      fetch-add. */
  function InFlight<T>(s: State<T>): nat {
    One(s.p.PStore?) + One(s.itemsSignaller.SAdd?) + One(s.c.CTake?) + One(s.slotsSignaller.SAdd?)
  }

  /** At every moment of every interleaving: free-slot tokens, item tokens and
      operations in flight add up to the capacity, and no more than the capacity
      is held. */
  lemma TokensConserved<T>(capacity: nat, size: nat, run: seq<State<T>>, evs: seq<Event<T>>, k: nat)
    requires IsPow2(size) && capacity <= size <= WORD
    requires IsRun(run, evs) && run[0] == Start(capacity, size) && k < |run|
    ensures S.Tokens(run[k].slots) + S.Tokens(run[k].items) + InFlight(run[k]) == capacity
    ensures S.Tokens(run[k].slots) >= 0 && S.Tokens(run[k].items) >= 0
    ensures 0 <= |run[k].enqueued| - |run[k].dequeued| <= capacity
  {
    RunInv(capacity, size, run, evs, k);
  }

  /** The 64-bit distance from nextItem to nextSlot is the number of elements held,
      at most the capacity, however often the two have wrapped. */
  lemma IndexDistance<T>(capacity: nat, size: nat, run: seq<State<T>>, evs: seq<Event<T>>, k: nat)
    requires IsPow2(size) && capacity <= size <= WORD && capacity < WORD
    requires IsRun(run, evs) && run[0] == Start(capacity, size) && k < |run|
    ensures Sub64(run[k].nextSlot, run[k].nextItem) == |run[k].enqueued| - |run[k].dequeued| <= capacity
  {
    RunInv(capacity, size, run, evs, k);
    TokensConserved(capacity, size, run, evs, k);
    WrappedDistance(|run[k].dequeued|, |run[k].enqueued|);
  }

  lemma WrappedDistance(a: nat, b: nat)
    requires a <= b && b - a < WORD
    ensures Sub64(b % WORD, a % WORD) == b - a
  {
    DeltaRecoversIff(a, b, WORD, 1);
    DeltaIsSub(a % WORD, b % WORD);
  }

  lemma DeltaIsSub(a: nat, b: nat)
    requires a < WORD && b < WORD
    ensures Sub64(b, a) == DeltaModulo(a, b, WORD)
  {
    DeltaIsDifference(a, b, WORD);
    if b >= a {
      DivModUnique(b - a, WORD, 0, b - a);
    } else {
      DivModUnique(b - a, WORD, -1, b - a + WORD);
    }
  }

  /** First in first out, with the 64-bit indices wrapping any number of times:
      the items still due are in their slots, the producer only fills raw slots,
      and a successful dequeue hands out the next item. */
  lemma FirstInFirstOut<T>(capacity: nat, size: nat, run: seq<State<T>>, evs: seq<Event<T>>, k: nat)
    requires IsPow2(size) && capacity <= size <= WORD
    requires IsRun(run, evs) && run[0] == Start(capacity, size) && k < |run|
    ensures run[k].dequeued <= run[k].enqueued
    ensures forall i :: |run[k].dequeued| <= i < |run[k].enqueued| ==>
              run[k].data[Slot(i, run[k].size)] == Live(run[k].enqueued[i])
    ensures run[k].p.PStore? ==> run[k].data[Slot(run[k].nextSlot, run[k].size)].Raw?
    ensures run[k].c.CTake? ==>
              |run[k].dequeued| < |run[k].enqueued| &&
              run[k].data[Slot(run[k].nextItem, run[k].size)] == Live(run[k].enqueued[|run[k].dequeued|])
    ensures run[k].c.CDone? && run[k].c.ok ==>
              run[k].dequeued != [] && run[k].c.result == Live(run[k].dequeued[|run[k].dequeued| - 1])
  {
    RunInv(capacity, size, run, evs, k);
    if run[k].p.PStore? {
      StoreKeepsRing(run[k], false);
    }
    if run[k].c.CTake? {
      TakeKeepsRing(run[k], false);
    }
  }

  // -------------------------------------------------------------------- whole calls

  predicate ProducerActive<T>(p: ProducerPhase<T>) { !p.PIdle? && !p.PDone? }

  predicate ConsumerActive<T>(c: ConsumerPhase<T>) { !c.CIdle? && !c.CDone? }

  /** An enqueue of `e` began with event `i` and had just returned at `j`. */
  ghost predicate EnqueueCall<T>(run: seq<State<T>>, evs: seq<Event<T>>, i: nat, j: nat, e: T) {
    && |run| == |evs| + 1 && i + 1 < j < |run| && evs[i].CallEnqueue? && evs[i].e == e
    && !ProducerActive(run[i].p) && run[j].p.PDone? && forall x :: i < x < j ==> ProducerActive(run[x].p)
  }

  ghost predicate DequeueCall<T>(run: seq<State<T>>, evs: seq<Event<T>>, i: nat, j: nat) {
    && |run| == |evs| + 1 && i + 1 < j < |run| && evs[i].CallDequeue?
    && !ConsumerActive(run[i].c) && run[j].c.CDone? && forall x :: i < x < j ==> ConsumerActive(run[x].c)
  }

  /** The call for `e` found `before` enqueued. */
  ghost predicate Appending<T>(s: State<T>, before: seq<T>, e: T) {
    match s.p
    case PIdle => false
    case PWait(x) => x == e && s.enqueued == before
    case PStore(x) => x == e && s.enqueued == before
    case PSignal => s.enqueued == before + [e]
    case PDone(ok) => s.enqueued == if ok then before + [e] else before
  }

  ghost predicate Taking<T>(s: State<T>, before: seq<T>) {
    match s.c
    case CIdle => false
    case CWait => s.dequeued == before
    case CTake => s.dequeued == before
    case CSignal(result) => result.Live? && s.dequeued == before + [result.value]
    case CDone(ok, result) => if ok then result.Live? && s.dequeued == before + [result.value] else s.dequeued == before
  }

  lemma AppendingStep<T>(s: State<T>, ev: Event<T>, r: State<T>, before: seq<T>, e: T)
    requires Shape(s) && r == Next(s, ev) && Appending(s, before, e) && ProducerActive(s.p)
    ensures Appending(r, before, e)
  {
  }

  lemma TakingStep<T>(s: State<T>, ev: Event<T>, r: State<T>, before: seq<T>)
    requires Inv(s) && r == Next(s, ev) && Taking(s, before) && ConsumerActive(s.c)
    ensures Taking(r, before)
  {
    if s.c.CTake? {
      TakeFinds(s);
    }
  }

  lemma {:induction false} AppendingRun<T>(run: seq<State<T>>, evs: seq<Event<T>>, i: nat, x: nat, j: nat, e: T)
    requires IsRun(run, evs) && EnqueueCall(run, evs, i, j, e) && i < x <= j
    ensures Appending(run[x], run[i].enqueued, e)
  {
    if x > i + 1 {
      AppendingRun(run, evs, i, x - 1, j, e);
      AppendingStep(run[x - 1], evs[x - 1], run[x], run[i].enqueued, e);
    }
  }

  ghost predicate Throughout<T>(run: seq<State<T>>) {
    forall x {:trigger Inv(run[x])} :: 0 <= x < |run| ==> Inv(run[x])
  }

  lemma InvThroughout<T>(capacity: nat, size: nat, run: seq<State<T>>, evs: seq<Event<T>>)
    requires IsPow2(size) && capacity <= size <= WORD && IsRun(run, evs) && run[0] == Start(capacity, size)
    ensures Throughout(run)
  {
    forall x | 0 <= x < |run|
      ensures Inv(run[x])
    {
      RunInv(capacity, size, run, evs, x);
    }
  }

  lemma {:induction false} TakingRun<T>(run: seq<State<T>>, evs: seq<Event<T>>, i: nat, x: nat, j: nat)
    requires IsRun(run, evs) && Throughout(run) && DequeueCall(run, evs, i, j) && i < x <= j
    ensures Taking(run[x], run[i].dequeued)
  {
    if x > i + 1 {
      TakingRun(run, evs, i, x - 1, j);
      assert Inv(run[x - 1]);
      TakingStep(run[x - 1], evs[x - 1], run[x], run[i].dequeued);
    }
  }

  /** A wait ends without a token only at a moment with none left. */
  lemma RefusedAt<T>(s: State<T>, ev: Event<T>, r: State<T>)
    requires Inv(s) && r == Next(s, ev)
    ensures ProducerActive(s.p) && r.p == PDone(false) ==> S.Tokens(s.slots) == 0
    ensures ConsumerActive(s.c) && r.c.CDone? && !r.c.ok ==> S.Tokens(s.items) == 0
  {
    if ev.StepEnqueue? && s.p.PWait? {
      if r.p == PDone(false) {
        S.FalseMetNoToken(s.slots, s.slotsWaiter, s.slotsSignaller, ev.expire);
      }
    } else if ev.StepDequeue? && s.c.CWait? {
      if r.c.CDone? {
        if !r.c.ok {
          S.FalseMetNoToken(s.items, s.itemsWaiter, s.itemsSignaller, ev.expire);
        }
      }
    }
  }

  lemma RefusedInRun<T>(capacity: nat, size: nat, run: seq<State<T>>, evs: seq<Event<T>>, x: nat)
    requires IsPow2(size) && capacity <= size <= WORD
    requires IsRun(run, evs) && run[0] == Start(capacity, size) && x < |evs|
    ensures ProducerActive(run[x].p) && run[x + 1].p == PDone(false) ==>
              S.Tokens(run[x].items) + InFlight(run[x]) == capacity
    ensures ConsumerActive(run[x].c) && run[x + 1].c.CDone? && !run[x + 1].c.ok ==>
              S.Tokens(run[x].slots) + InFlight(run[x]) == capacity
  {
    TokensConserved(capacity, size, run, evs, x);
    RunInv(capacity, size, run, evs, x);
    RefusedAt(run[x], evs[x], run[x + 1]);
  }

  /** In any interleaving, a call to enqueue that returns true has added its own element
      and nothing else; one that returns false has added nothing, and has met a moment
      with no room: every place filled or an operation under way there. */
  lemma EnqueueAddsItsOwn<T>(capacity: nat, size: nat, run: seq<State<T>>, evs: seq<Event<T>>, i: nat, j: nat, e: T)
      returns (x: nat)
    requires IsPow2(size) && capacity <= size <= WORD
    requires IsRun(run, evs) && run[0] == Start(capacity, size) && EnqueueCall(run, evs, i, j, e)
    ensures run[j].enqueued == if run[j].p.ok then run[i].enqueued + [e] else run[i].enqueued
    ensures !run[j].p.ok ==> i < x < j && S.Tokens(run[x].items) + InFlight(run[x]) == capacity
  {
    x := j - 1;
    AppendingRun(run, evs, i, j, j, e);
    RefusedInRun(capacity, size, run, evs, x);
  }

  /** And a call to dequeue that returns true has taken out the one element it returns;
      one that returns false has taken none, and has met a moment with none to take. */
  lemma DequeueReturnsWhatItTook<T>(capacity: nat, size: nat, run: seq<State<T>>, evs: seq<Event<T>>, i: nat, j: nat)
      returns (x: nat)
    requires IsPow2(size) && capacity <= size <= WORD
    requires IsRun(run, evs) && run[0] == Start(capacity, size) && DequeueCall(run, evs, i, j)
    ensures if run[j].c.ok
            then run[j].c.result.Live? && run[j].dequeued == run[i].dequeued + [run[j].c.result.value]
            else run[j].dequeued == run[i].dequeued
    ensures !run[j].c.ok ==> i < x < j && S.Tokens(run[x].slots) + InFlight(run[x]) == capacity
  {
    x := j - 1;
    InvThroughout(capacity, size, run, evs);
    TakingRun(run, evs, i, j, j);
    RefusedInRun(capacity, size, run, evs, x);
  }

  // ------------------------------------------------------------------------ patience

  /** With timeout `t` not run out, neither side fails. */
  predicate PatientIn<T>(p: ProducerPhase<T>, w: S.WaiterPc, t: int) {
    (p.PWait? && S.Unexpired(w, t)) || p.PStore? || p.PSignal? || (p.PDone? && p.ok)
  }

  predicate PatientOut<T>(c: ConsumerPhase<T>, w: S.WaiterPc, t: int) {
    (c.CWait? && S.Unexpired(w, t)) || c.CTake? || c.CSignal? || (c.CDone? && c.ok)
  }

  lemma PatientInStep<T>(s: State<T>, ev: Event<T>, r: State<T>, t: int)
    requires Shape(s) && r == Next(s, ev) && PatientIn(s.p, s.slotsWaiter, t) && ProducerActive(s.p) && t != 0
    requires ev == StepEnqueue(true) ==> t < 0
    ensures PatientIn(r.p, r.slotsWaiter, t)
  {
    if ev.StepEnqueue? && s.p.PWait? {
      S.UnexpiredAccess(s.slots, s.slotsWaiter, ev.expire, t);
    }
  }

  lemma PatientOutStep<T>(s: State<T>, ev: Event<T>, r: State<T>, t: int)
    requires Shape(s) && r == Next(s, ev) && PatientOut(s.c, s.itemsWaiter, t) && ConsumerActive(s.c) && t != 0
    requires ev == StepDequeue(true) ==> t < 0
    ensures PatientOut(r.c, r.itemsWaiter, t)
  {
    if ev.StepDequeue? && s.c.CWait? {
      S.UnexpiredAccess(s.items, s.itemsWaiter, ev.expire, t);
    }
  }

  lemma {:induction false} PatientInRun<T>(run: seq<State<T>>, evs: seq<Event<T>>, i: nat, x: nat, j: nat, e: T, t: int)
    requires IsRun(run, evs) && EnqueueCall(run, evs, i, j, e) && i < x <= j
    requires evs[i].patience == Within(t) && t != 0
    requires t < 0 || forall y :: i < y < j ==> evs[y] != StepEnqueue(true)
    ensures PatientIn(run[x].p, run[x].slotsWaiter, t)
  {
    if x > i + 1 {
      PatientInRun(run, evs, i, x - 1, j, e, t);
      PatientInStep(run[x - 1], evs[x - 1], run[x], t);
    }
  }

  lemma {:induction false} PatientOutRun<T>(run: seq<State<T>>, evs: seq<Event<T>>, i: nat, x: nat, j: nat, t: int)
    requires IsRun(run, evs) && DequeueCall(run, evs, i, j) && i < x <= j
    requires evs[i].patience == Within(t) && t != 0
    requires t < 0 || forall y :: i < y < j ==> evs[y] != StepDequeue(true)
    ensures PatientOut(run[x].c, run[x].itemsWaiter, t)
  {
    if x > i + 1 {
      PatientOutRun(run, evs, i, x - 1, j, t);
      PatientOutStep(run[x - 1], evs[x - 1], run[x], t);
    }
  }

  /** A call that may wait, and whose time does not run out, does not return false. */
  lemma EnqueueFailsOnlyExpired<T>(run: seq<State<T>>, evs: seq<Event<T>>, i: nat, j: nat, e: T, t: int)
    requires IsRun(run, evs) && EnqueueCall(run, evs, i, j, e) && evs[i].patience == Within(t) && t != 0
    requires t < 0 || forall y :: i < y < j ==> evs[y] != StepEnqueue(true)
    ensures run[j].p.ok
  {
    PatientInRun(run, evs, i, j, j, e, t);
  }

  lemma DequeueFailsOnlyExpired<T>(run: seq<State<T>>, evs: seq<Event<T>>, i: nat, j: nat, t: int)
    requires IsRun(run, evs) && DequeueCall(run, evs, i, j) && evs[i].patience == Within(t) && t != 0
    requires t < 0 || forall y :: i < y < j ==> evs[y] != StepDequeue(true)
    ensures run[j].c.ok
  {
    PatientOutRun(run, evs, i, j, j, t);
  }
}
