/** The queue as an object: its constructor, and `try_enqueue` and `try_dequeue`
    run without interference, on a memory that any interleaving may have left
    behind. Each method goes through the steps of the machine in `Spsc`. */
module ReaderWriterQueueObject {
  import opened Bits
  import opened Common
  import opened Spsc
  import opened SpscProof
  import SpscTheorems

  // ---------------------------------------------------------- states that runs reach

  ghost predicate Reaches<T>(run: seq<State<T>>, evs: seq<Event<T>>, s: State<T>) {
    && IsRun(run, evs) && RingShape(|s.blocks|, s.size)
    && run[0] == SpscTheorems.Start(|s.blocks|, s.size) && run[|evs|] == s
  }

  /** Some interleaving leads from empty blocks to `s`. */
  ghost predicate Reached<T(!new)>(s: State<T>) {
    exists run: seq<State<T>>, evs: seq<Event<T>> :: Reaches(run, evs, s)
  }

  lemma ReachedStart<T(!new)>(n: nat, size: nat)
    requires RingShape(n, size)
    ensures Reached(SpscTheorems.Start<T>(n, size))
  {
    assert Reaches([SpscTheorems.Start<T>(n, size)], [], SpscTheorems.Start<T>(n, size));
  }

  lemma SameSize<T>(s: State<T>, ev: Event<T>)
    requires Shape(s)
    ensures |Next(s, ev).blocks| == |s.blocks| && Next(s, ev).size == s.size
  {
    var m := Move(s, ev);
    assert |m.blocks| == |s.blocks| && m.size == s.size;
    MarkSameSize(s, m);
  }

  lemma MarkSameSize<T>(s: State<T>, m: State<T>)
    requires Shape(m)
    ensures |Mark(s, m).blocks| == |m.blocks| && Mark(s, m).size == m.size
  {
  }

  lemma ReachedNext<T(!new)>(s: State<T>, ev: Event<T>)
    requires Reached(s) && Shape(s)
    ensures Reached(Next(s, ev))
  {
    var run: seq<State<T>>, evs: seq<Event<T>> :| Reaches(run, evs, s);
    SameSize(s, ev);
    RunExtends(run, evs, ev, Next(s, ev));
    assert Reaches(run + [Next(s, ev)], evs + [ev], Next(s, ev));
  }

  lemma RunExtends<T>(run: seq<State<T>>, evs: seq<Event<T>>, ev: Event<T>, r: State<T>)
    requires IsRun(run, evs) && Shape(r) && r == Next(run[|evs|], ev)
    ensures IsRun(run + [r], evs + [ev])
  {
    StepsExtend(run, evs, (s: State<T>, e: Event<T>, q: State<T>) => Shape(s) && q == Next(s, e), ev, r);
  }

  /** One more step after a sequence of steps. */
  lemma StepsExtend<S, E>(run: seq<S>, evs: seq<E>, goes: (S, E, S) -> bool, ev: E, r: S)
    requires |run| == |evs| + 1 && goes(run[|evs|], ev, r)
    requires forall k :: 0 <= k < |evs| ==> goes(run[k], evs[k], run[k + 1])
    ensures var all, events := run + [r], evs + [ev];
            forall k :: 0 <= k < |events| ==> goes(all[k], events[k], all[k + 1])
  {
  }

  lemma ReachedInv<T(!new)>(s: State<T>)
    requires Reached(s)
    ensures Inv(s)
  {
    var run: seq<State<T>>, evs: seq<Event<T>> :| Reaches(run, evs, s);
    SpscTheorems.StartInv<T>(|s.blocks|, s.size);
    RunKeepsInv(run, evs, |evs|);
  }

  lemma ReachedHistories<T(!new)>(s: State<T>)
    requires Reached(s)
    ensures s.dequeued <= s.enqueued
  {
    ReachedInv(s);
  }

  // ---------------------------------------------------------------- one thread alone

  /** The producer's mark is just what the queue holds. */
  ghost predicate Level<T>(s: State<T>)
    requires Shape(s)
  {
    s.highWater == |Contents(s)|
  }

  /** A state the producer has reached, with the consumer idle. */
  ghost predicate ProducerAlone<T(!new)>(s: State<T>) {
    Reached(s) && Shape(s) && !ConsumerActive(s.c) && |s.dequeued| <= |s.enqueued|
  }

  /** From `s` to `r`, only what the producer may store has changed. */
  ghost predicate ByProducer<T>(s: State<T>, r: State<T>) {
    && r.size == s.size && |r.blocks| == |s.blocks| && r.frontBlock == s.frontBlock
    && r.c == s.c && r.dequeued == s.dequeued
  }

  lemma BeginEnqueue<T(!new)>(s: State<T>, e: T) returns (r: State<T>)
    requires ProducerAlone(s) && !ProducerActive(s.p)
    ensures ProducerAlone(r) && Level(r) && ByProducer(s, r)
    ensures r.p == PBegin(e) && r.blocks == s.blocks && r.tailBlock == s.tailBlock && r.enqueued == s.enqueued
  {
    r := Next(s, ProducerCall(e));
    ReachedNext(s, ProducerCall(e));
    SpscTheorems.MarkKeepsContents(s, Move(s, ProducerCall(e)));
  }

  lemma StepEnqueue<T(!new)>(s: State<T>) returns (r: State<T>)
    requires ProducerAlone(s) && ProducerActive(s.p)
    ensures ProducerAlone(r)
    ensures r == ProducerStepOf(s).(lowWater := r.lowWater, highWater := r.highWater)
    ensures Level(s) && !s.p.PStoreTail? && !s.p.PSwing? ==> Level(r)
  {
    r := Next(s, ProducerStep);
    ReachedNext(s, ProducerStep);
    ReachedInv(s);
    SpscTheorems.MarkKeepsContents(s, Move(s, ProducerStep));
    if !s.p.PStoreTail? && !s.p.PSwing? {
      FillKeepsCells(s);
    }
  }

  lemma FirstLook<T(!new)>(s: State<T>, e: T) returns (r: State<T>)
    requires ProducerAlone(s) && s.p == PBegin(e) && Level(s)
    ensures ProducerAlone(r) && Level(r) && ByProducer(s, r)
    ensures r.blocks == s.blocks && r.tailBlock == s.tailBlock && r.enqueued == s.enqueued
    ensures var b := s.blocks[s.tailBlock];
            var nt := NextIndex(b.tail, s.size);
            r.p == if nt != b.localFront then PFill(e, b.tail, nt) else PRecheckFront(e, b.tail, nt)
  {
    r := StepEnqueue(s);
  }

  lemma SecondLook<T(!new)>(s: State<T>, e: T, t: nat, nt: nat) returns (r: State<T>)
    requires ProducerAlone(s) && s.p == PRecheckFront(e, t, nt) && Level(s)
    ensures ProducerAlone(r) && Level(r) && ByProducer(s, r)
    ensures r.tailBlock == s.tailBlock && r.enqueued == s.enqueued
    ensures var b := s.blocks[s.tailBlock];
            && r.blocks == s.blocks[s.tailBlock := b.(localFront := b.front)]
            && r.p == if nt != b.front then PFill(e, t, nt) else PCheckNext(e)
  {
    r := StepEnqueue(s);
  }

  lemma LookAhead<T(!new)>(s: State<T>, e: T) returns (r: State<T>)
    requires ProducerAlone(s) && s.p == PCheckNext(e) && Level(s)
    ensures ProducerAlone(r) && Level(r) && ByProducer(s, r)
    ensures r.blocks == s.blocks && r.tailBlock == s.tailBlock && r.enqueued == s.enqueued
    ensures r.p == if s.blocks[s.tailBlock].next != s.frontBlock then PEnterNext(e) else PDone(false)
  {
    r := StepEnqueue(s);
  }

  function Filled<T>(b: Block<T>, t: nat, nt: nat, e: T): Block<T>
    requires t < |b.data|
  {
    b.(data := b.data[t := Live(e)], tail := nt)
  }

  /** Construct in the tail block, then publish. */
  lemma FillHere<T(!new)>(s: State<T>, e: T, t: nat, nt: nat) returns (r: State<T>)
    requires ProducerAlone(s) && s.p == PFill(e, t, nt)
    ensures ProducerAlone(r) && ByProducer(s, r)
    ensures r.p == PDone(true) && r.tailBlock == s.tailBlock && r.enqueued == s.enqueued + [e]
    ensures r.blocks == s.blocks[s.tailBlock := Filled(s.blocks[s.tailBlock], t, nt, e)]
  {
    var m := StepEnqueue(s);
    r := StepEnqueue(m);
  }

  lemma EnterNext<T(!new)>(s: State<T>, e: T) returns (r: State<T>)
    requires ProducerAlone(s) && s.p == PEnterNext(e)
    ensures ProducerAlone(r) && ByProducer(s, r) && r.tailBlock == s.tailBlock && r.enqueued == s.enqueued
    ensures var n := s.blocks[s.tailBlock].next;
            var nb := s.blocks[n];
            && r.p == PStoreNextTail(e, nb.tail)
            && r.blocks == s.blocks[n := nb.(localFront := nb.front, data := nb.data[nb.tail := Live(e)])]
  {
    var m := LookIntoNext(s, e);
    r := PutIntoNext(m, e, s.blocks[s.blocks[s.tailBlock].next].tail);
  }

  lemma LookIntoNext<T(!new)>(s: State<T>, e: T) returns (r: State<T>)
    requires ProducerAlone(s) && s.p == PEnterNext(e)
    ensures ProducerAlone(r) && ByProducer(s, r) && r.tailBlock == s.tailBlock && r.enqueued == s.enqueued
    ensures var n := s.blocks[s.tailBlock].next;
            var nb := s.blocks[n];
            r.p == PFillNext(e, nb.front, nb.tail) && r.blocks == s.blocks[n := nb.(localFront := nb.front)]
  {
    r := StepEnqueue(s);
  }

  lemma PutIntoNext<T(!new)>(s: State<T>, e: T, t: nat) returns (r: State<T>)
    requires ProducerAlone(s) && s.p.PFillNext? && s.p.e == e && s.p.nextBlockTail == t
    requires s.p.nextBlockFront == s.blocks[s.blocks[s.tailBlock].next].localFront
    ensures ProducerAlone(r) && ByProducer(s, r) && r.tailBlock == s.tailBlock && r.enqueued == s.enqueued
    ensures var n := s.blocks[s.tailBlock].next;
            var nb := s.blocks[n];
            r.p == PStoreNextTail(e, t) && t < s.size && r.blocks == s.blocks[n := nb.(data := nb.data[t := Live(e)])]
  {
    r := StepEnqueue(s);
  }

  lemma LeaveForNext<T(!new)>(s: State<T>, e: T, t: nat) returns (r: State<T>)
    requires ProducerAlone(s) && s.p == PStoreNextTail(e, t)
    ensures ProducerAlone(r) && ByProducer(s, r) && r.p == PDone(true) && r.enqueued == s.enqueued + [e]
    ensures var n := s.blocks[s.tailBlock].next;
            && r.tailBlock == n && t < s.size
            && r.blocks == s.blocks[n := s.blocks[n].(tail := NextIndex(t, s.size))]
  {
    var m := PublishNext(s, e, t);
    r := StepEnqueue(m);
  }

  lemma PublishNext<T(!new)>(s: State<T>, e: T, t: nat) returns (r: State<T>)
    requires ProducerAlone(s) && s.p == PStoreNextTail(e, t)
    ensures ProducerAlone(r) && ByProducer(s, r) && r.p == PSwing(e) && r.enqueued == s.enqueued
    ensures var n := s.blocks[s.tailBlock].next;
            && r.tailBlock == s.tailBlock && t < s.size
            && r.blocks == s.blocks[n := s.blocks[n].(tail := NextIndex(t, s.size))]
  {
    r := StepEnqueue(s);
  }

  /** Construct in the next block, publish there, and move on. */
  lemma FillNext<T(!new)>(s: State<T>, e: T) returns (r: State<T>)
    requires ProducerAlone(s) && s.p == PEnterNext(e)
    ensures ProducerAlone(r) && ByProducer(s, r)
    ensures var n := s.blocks[s.tailBlock].next;
            var nb := s.blocks[n];
            && r.p == PDone(true) && r.tailBlock == n && r.enqueued == s.enqueued + [e]
            && r.blocks == s.blocks[n := Filled(nb.(localFront := nb.front), nb.tail, NextIndex(nb.tail, s.size), e)]
  {
    var m := EnterNext(s, e);
    r := LeaveForNext(m, e, s.blocks[s.blocks[s.tailBlock].next].tail);
  }

  /** A refusal without interference means the queue holds its capacity. */
  lemma RefusedIsFull<T(!new)>(s: State<T>)
    requires ProducerAlone(s) && s.p == PDone(false) && Level(s)
    ensures |s.enqueued[|s.dequeued|..]| >= Capacity(s)
  {
    ReachedInv(s);
  }

  /** The consumer's mark is just what the queue holds. */
  ghost predicate LevelBelow<T>(s: State<T>)
    requires Shape(s)
  {
    s.lowWater == |Contents(s)|
  }

  /** A state the consumer has reached, with the producer idle. */
  ghost predicate ConsumerAlone<T(!new)>(s: State<T>) {
    Reached(s) && Shape(s) && !ProducerActive(s.p) && |s.dequeued| <= |s.enqueued|
  }

  /** From `s` to `r`, only what the consumer may store has changed. */
  ghost predicate ByConsumer<T>(s: State<T>, r: State<T>) {
    r.size == s.size && r.tailBlock == s.tailBlock && r.p == s.p && r.enqueued == s.enqueued && |r.blocks| == |s.blocks|
  }

  lemma BeginDequeue<T(!new)>(s: State<T>) returns (r: State<T>)
    requires ConsumerAlone(s) && !ConsumerActive(s.c)
    ensures ConsumerAlone(r) && LevelBelow(r) && ByConsumer(s, r)
    ensures r.c == CBegin && r.blocks == s.blocks && r.frontBlock == s.frontBlock && r.dequeued == s.dequeued
  {
    r := Next(s, ConsumerCall);
    ReachedNext(s, ConsumerCall);
    SpscTheorems.MarkKeepsContents(s, Move(s, ConsumerCall));
  }

  lemma StepDequeue<T(!new)>(s: State<T>) returns (r: State<T>)
    requires ConsumerAlone(s) && ConsumerActive(s.c)
    ensures ConsumerAlone(r)
    ensures r == ConsumerStepOf(s).(lowWater := r.lowWater, highWater := r.highWater)
    ensures LevelBelow(s) && !s.c.CAdvance? && !s.c.CTake? && !s.c.CStoreFront? ==> LevelBelow(r)
  {
    r := Next(s, ConsumerStep);
    ReachedNext(s, ConsumerStep);
    ReachedHistories(r);
    SpscTheorems.MarkKeepsContents(s, Move(s, ConsumerStep));
    if !s.c.CAdvance? && !s.c.CTake? && !s.c.CStoreFront? {
      LoadKeepsContents(s);
    }
  }

  lemma LookInFront<T(!new)>(s: State<T>) returns (r: State<T>)
    requires ConsumerAlone(s) && s.c == CBegin && LevelBelow(s)
    ensures ConsumerAlone(r) && LevelBelow(r) && ByConsumer(s, r)
    ensures r.blocks == s.blocks && r.frontBlock == s.frontBlock && r.dequeued == s.dequeued
    ensures var b := s.blocks[s.frontBlock];
            r.c == if b.front != b.localTail then CTake(b.front) else CReloadTail(b.front)
  {
    r := StepDequeue(s);
  }

  lemma LookAtTail<T(!new)>(s: State<T>, f: nat) returns (r: State<T>)
    requires ConsumerAlone(s) && s.c == CReloadTail(f) && LevelBelow(s)
    ensures ConsumerAlone(r) && LevelBelow(r) && ByConsumer(s, r)
    ensures r.frontBlock == s.frontBlock && r.dequeued == s.dequeued
    ensures var b := s.blocks[s.frontBlock];
            && r.blocks == s.blocks[s.frontBlock := b.(localTail := b.tail)]
            && r.c == if f != b.tail then CTake(f) else CCheckTailBlock
  {
    r := StepDequeue(s);
  }

  lemma NothingHeld<T(!new)>(s: State<T>) returns (r: State<T>)
    requires ConsumerAlone(s) && s.c == CCheckTailBlock && LevelBelow(s) && s.frontBlock == s.tailBlock
    ensures ConsumerAlone(r) && ByConsumer(s, r) && r.c == CDone(false, Raw)
    ensures r.blocks == s.blocks && r.frontBlock == s.frontBlock && r.dequeued == s.dequeued == s.enqueued
  {
    r := StepDequeue(s);
    ReachedInv(r);
  }

  lemma LookAgain<T(!new)>(s: State<T>) returns (r: State<T>)
    requires ConsumerAlone(s) && s.c == CCheckTailBlock && s.frontBlock != s.tailBlock
    requires s.blocks[s.frontBlock].front == s.blocks[s.frontBlock].tail
    ensures ConsumerAlone(r) && ByConsumer(s, r) && r.c == CLoadNext
    ensures r.frontBlock == s.frontBlock && r.dequeued == s.dequeued
    ensures r.blocks == s.blocks[s.frontBlock := s.blocks[s.frontBlock].(localTail := s.blocks[s.frontBlock].tail)]
  {
    var m := StepDequeue(s);
    r := StepDequeue(m);
  }

  lemma MoveOn<T(!new)>(s: State<T>) returns (r: State<T>)
    requires ConsumerAlone(s) && s.c == CLoadNext
    ensures ConsumerAlone(r) && ByConsumer(s, r) && r.dequeued == s.dequeued
    ensures var n := s.blocks[s.frontBlock].next;
            && r.frontBlock == n && r.c == CTake(s.blocks[n].front)
            && r.blocks == s.blocks[n := s.blocks[n].(localTail := s.blocks[n].tail)]
  {
    var m := StepDequeue(s);
    r := StepDequeue(m);
  }

  lemma OldestIsLive<T(!new)>(s: State<T>, f: nat)
    requires ConsumerAlone(s) && s.c == CTake(f)
    ensures |s.dequeued| < |s.enqueued| && s.blocks[s.frontBlock].data[f] == Live(s.enqueued[|s.dequeued|])
  {
    ReachedInv(s);
    OrderNonEmpty(s.blocks[s.frontBlock], s.size);
    var rest := TakeContents(s);
    TakenFrom(s, s.blocks[s.frontBlock].data[f], rest);
  }

  /** Move the element out, then give the slot back. */
  lemma TakeOldest<T(!new)>(s: State<T>, f: nat) returns (r: State<T>)
    requires ConsumerAlone(s) && s.c == CTake(f)
    ensures ConsumerAlone(r) && ByConsumer(s, r) && r.frontBlock == s.frontBlock && !ConsumerActive(r.c)
    ensures |s.dequeued| < |s.enqueued| && r.dequeued == s.dequeued + [s.enqueued[|s.dequeued|]]
    ensures var b := s.blocks[s.frontBlock];
            && b.data[f] == Live(s.enqueued[|s.dequeued|])
            && r.blocks == s.blocks[s.frontBlock := b.(data := b.data[f := Raw], front := NextIndex(f, s.size))]
  {
    OldestIsLive(s, f);
    var m := MoveOut(s, f);
    r := StepDequeue(m);
  }

  lemma MoveOut<T(!new)>(s: State<T>, f: nat) returns (r: State<T>)
    requires ConsumerAlone(s) && s.c == CTake(f) && s.blocks[s.frontBlock].data[f].Live?
    ensures ConsumerAlone(r) && ByConsumer(s, r) && r.frontBlock == s.frontBlock
    ensures var b := s.blocks[s.frontBlock];
            && r.c == CStoreFront(f, b.data[f]) && r.dequeued == s.dequeued + [b.data[f].value]
            && r.blocks == s.blocks[s.frontBlock := b.(data := b.data[f := Raw])]
  {
    r := StepDequeue(s);
  }

  lemma StartCapacity<T>(n: nat, size: nat)
    requires RingShape(n, size)
    ensures Capacity(SpscTheorems.Start<T>(n, size)) == if n == 1 then size - 1 else (n - 1) * (size - 1)
  {
    RoomIsProduct(n - 1, size - 1);
  }

  lemma OneMore<T>(q: seq<T>, d: nat, e: T)
    requires d <= |q|
    ensures (q + [e])[d..] == q[d..] + [e]
  {
  }

  lemma OneLess<T>(q: seq<T>, d: nat)
    requires d < |q|
    ensures q[d..] != [] && q[d..][0] == q[d] && q[d + 1..] == q[d..][1..]
  {
  }

  /** Makes the blocks one by one and links each to the next. */
  method MakeRing<T>(count: nat, size: nat) returns (ring: seq<Block<T>>)
    requires RingShape(count, size)
    ensures ring == SpscTheorems.Start<T>(count, size).blocks
  {
    ring := [];
    var i := 0;
    while i != count
      invariant i <= count && |ring| == i
      invariant forall b :: 0 <= b < i ==>
                  ring[b] == SpscTheorems.EmptyBlock(if b + 1 == i then 0 else b + 1, size)
    {
      if i != 0 {
        ring := ring[i - 1 := ring[i - 1].(next := i)];
      }
      ring := ring + [SpscTheorems.EmptyBlock(0, size)];
      i := i + 1;
    }
    assert ring == SpscTheorems.Start<T>(count, size).blocks;
  }

  function BlockCount(size: nat, maxBlockSize: nat): nat
    requires maxBlockSize >= 2
  {
    (size + maxBlockSize * 2 - 3) / (maxBlockSize - 1)
  }

  /** `n` blocks of `largest` slots have room for `size` elements outside the block
      being consumed. */
  predicate HasRoom(n: nat, largest: nat, size: nat)
    requires n >= 1 && largest >= 1
  {
    (if n == 1 then largest - 1 else (n - 1) * (largest - 1)) >= size
  }

  /** `n` blocks of `largest` slots are what the constructor makes for `size`
      elements. */
  ghost predicate MadeFor(size: nat, maxBlockSize: nat, n: nat, largest: nat)
    requires maxBlockSize >= 2
  {
    exists c: nat :: Sized(size, maxBlockSize, n, largest, c)
  }

  /** By the least power of two above `size`: one block of that size, or a ring. */
  ghost predicate Sized(size: nat, maxBlockSize: nat, n: nat, largest: nat, c: nat)
    requires maxBlockSize >= 2
  {
    && IsPow2(c) && size + 1 <= c && (forall p: nat :: IsPow2(p) && size + 1 <= p ==> c <= p)
    && if c > maxBlockSize * 2
       then largest == maxBlockSize && n == BlockCount(size, maxBlockSize)
       else largest == c && n == 1
  }

  lemma MadeHasRoom(size: nat, maxBlockSize: nat, n: nat, largest: nat)
    requires IsPow2(maxBlockSize) && maxBlockSize >= 2 && MadeFor(size, maxBlockSize, n, largest)
    ensures RingShape(n, largest) && IsPow2(largest)
    ensures HasRoom(n, largest, size)
  {
    var c: nat :| Sized(size, maxBlockSize, n, largest, c);
    if c > maxBlockSize * 2 {
      assert size + 1 > maxBlockSize;
      BlockCountSuffices(size, maxBlockSize, n);
    }
  }

  lemma MadeBy(size: nat, maxBlockSize: nat, n: nat, largest: nat, c: nat)
    requires IsPow2(maxBlockSize) && maxBlockSize >= 2 && Sized(size, maxBlockSize, n, largest, c)
    ensures MadeFor(size, maxBlockSize, n, largest) && RingShape(n, largest) && IsPow2(largest)
    ensures HasRoom(n, largest, size)
  {
    MadeHasRoom(size, maxBlockSize, n, largest);
  }

  /** A queue made for `size` elements refuses one only if at some moment of the call
      it held at least that many; with several blocks, that many not yet moved out. */
  lemma RefusedMetSize<T>(size: nat, maxBlockSize: nat, n: nat, largest: nat,
                          run: seq<State<T>>, evs: seq<Event<T>>, i: nat, j: nat)
    requires IsPow2(maxBlockSize) && maxBlockSize >= 2 && MadeFor(size, maxBlockSize, n, largest)
    requires RingShape(n, largest) && IsRun(run, evs) && run[0] == SpscTheorems.Start(n, largest)
    requires SpscTheorems.EnqueueCall(run, i, j) && run[j].p == PDone(false)
    ensures exists m :: i < m < j && |Contents(run[m])| >= size
    ensures n > 1 ==> exists m :: i < m < j && |run[m].enqueued| - |run[m].dequeued| >= size
  {
    MadeHasRoom(size, maxBlockSize, n, largest);
    SpscTheorems.RefusedEnqueueMetFull(n, largest, run, evs, i, j);
    var m :| i < m < j && |Contents(run[m])| >= if n == 1 then largest - 1 else (n - 1) * (largest - 1);
    if n > 1 {
      SpscTheorems.RefusedEnqueueMetPending(n, largest, run, evs, i, j);
    }
  }

  lemma OneBlock<T>(size: nat)
    requires size >= 1
    ensures [SpscTheorems.EmptyBlock<T>(0, size)] == SpscTheorems.Start<T>(1, size).blocks
  {
  }

  /** The blocks the constructor makes, and their size. */
  method MakeBlocks<T>(size: nat, maxBlockSize: nat) returns (ring: seq<Block<T>>, largest: nat)
    requires IsPow2(maxBlockSize) && maxBlockSize >= 2
    requires size < WORD
    ensures 2 * (size + 1) <= WORD ==>
              && MadeFor(size, maxBlockSize, |ring|, largest) && RingShape(|ring|, largest) && IsPow2(largest)
              && ring == SpscTheorems.Start<T>(|ring|, largest).blocks
              && HasRoom(|ring|, largest, size)
    ensures 2 * (size + 1) > WORD ==> largest == 0 && ring == [SpscTheorems.EmptyBlock(0, 0)]
  {
    largest := CeilToPow2(if size + 1 == WORD then 0 else size + 1);
    assert 2 * (size + 1) <= WORD <==> largest != 0;
    ghost var c := largest;
    if largest > maxBlockSize * 2 {
      var count := BlockCount(size, maxBlockSize);
      largest := maxBlockSize;
      MadeBy(size, maxBlockSize, count, largest, c);
      ring := MakeRing(count, largest);
    } else {
      ring := [SpscTheorems.EmptyBlock(0, largest)];
      if largest != 0 {
        MadeBy(size, maxBlockSize, 1, largest, c);
        OneBlock<T>(largest);
      }
    }
  }

  class ReaderWriterQueue<T(0,!new)> {
    var blocks: seq<Block<T>>
    var frontBlock: nat
    var tailBlock: nat
    var largestBlockSize: nat
    ghost var machine: State<T>

    /** The fields are the shared memory of a state of the machine that some run
        reaches, with neither thread inside a call. */
    ghost predicate Valid()
      reads this
    {
      && ProducerAlone(machine) && ConsumerAlone(machine) && IsPow2(largestBlockSize)
      && SameMemory(machine)
    }

    ghost predicate SameMemory(s: State<T>)
      reads this
    {
      s.size == largestBlockSize && s.blocks == blocks && s.frontBlock == frontBlock && s.tailBlock == tailBlock
    }

    /** What was enqueued and not dequeued yet, in order. */
    ghost function Elements(): seq<T>
      requires Valid()
      reads this
    {
      machine.enqueued[|machine.dequeued|..]
    }

    /** Room for `size` elements: one block if that keeps it within twice
        `maxBlockSize`, a ring of blocks otherwise. From 2^63 on the rounding wraps
        to 0, and the one block made has no slot. */
    constructor (size: nat, maxBlockSize: nat)
      requires IsPow2(maxBlockSize) && maxBlockSize >= 2
      requires size < WORD
      ensures 2 * (size + 1) <= WORD ==>
                && Valid() && machine == SpscTheorems.Start(|blocks|, largestBlockSize)
                && Capacity(machine) >= size && Elements() == []
      ensures 2 * (size + 1) > WORD ==> largestBlockSize == 0 && |blocks| == 1 && blocks[0].data == []
    {
      var ring, largest := MakeBlocks<T>(size, maxBlockSize);
      blocks, frontBlock, tailBlock, largestBlockSize := ring, 0, 0, largest;
      machine := SpscTheorems.Start(1, 1);
      if 2 * (size + 1) <= WORD {
        machine := SpscTheorems.Start(|ring|, largest);
        ReachedStart<T>(|ring|, largest);
        StartCapacity<T>(|ring|, largest);
      }
    }

    /** Enqueues if there is room. A refusal means the queue holds its capacity. */
    method TryEnqueue(e: T) returns (ok: bool)
      requires Valid()
      modifies this
      ensures Valid() && largestBlockSize == old(largestBlockSize) && |blocks| == |old(blocks)|
      ensures Elements() == if ok then old(Elements()) + [e] else old(Elements())
      ensures !ok ==> |Elements()| >= Capacity(machine)
    {
      OneMore(machine.enqueued, |machine.dequeued|, e);
      var tb := tailBlock;
      var room, blockTail, nextBlockTail, s := LookForRoom(e);
      ok := true;
      if room {
        blocks := blocks[tb := blocks[tb].(data := blocks[tb].data[blockTail := Live(e)])];
        blocks := blocks[tb := blocks[tb].(tail := nextBlockTail)];
        machine := FillHere(s, e, blockTail, nextBlockTail);
      } else if blocks[tb].next != frontBlock {
        s := LookAhead(s, e);
        MoveToNextBlock(e, s);
      } else {
        machine := LookAhead(s, e);
        RefusedIsFull(machine);
        ok := false;
      }
    }

    /** Is there a free slot in the tail block, by the copy of front or else by
        front itself? */
    method LookForRoom(e: T) returns (room: bool, blockTail: nat, nextBlockTail: nat, ghost s: State<T>)
      requires Valid()
      modifies this
      ensures largestBlockSize == old(largestBlockSize) && IsPow2(largestBlockSize)
      ensures SameMemory(s) && ProducerAlone(s) && Level(s) && ByProducer(old(machine), s)
      ensures s.enqueued == old(machine).enqueued && tailBlock == old(tailBlock)
      ensures s.p == if room then PFill(e, blockTail, nextBlockTail) else PCheckNext(e)
    {
      s := BeginEnqueue(machine, e);
      s := FirstLook(s, e);
      var tb := tailBlock;
      var blockFront := blocks[tb].localFront;
      blockTail := blocks[tb].tail;
      MaskIsNextIndex(blockTail, largestBlockSize);
      nextBlockTail := And(blockTail + 1, largestBlockSize - 1);
      room := nextBlockTail != blockFront;
      if !room {
        blocks := blocks[tb := blocks[tb].(localFront := blocks[tb].front)];
        room := nextBlockTail != blocks[tb].localFront;
        s := SecondLook(s, e, blockTail, nextBlockTail);
      }
    }

    /** The tail block is full and a free block is ahead: use that one. */
    method MoveToNextBlock(e: T, ghost start: State<T>)
      requires ProducerAlone(start) && start.p == PEnterNext(e) && SameMemory(start) && IsPow2(largestBlockSize)
      modifies this
      ensures Valid() && largestBlockSize == old(largestBlockSize) && |blocks| == |old(blocks)|
      ensures machine.enqueued == start.enqueued + [e] && machine.dequeued == start.dequeued
    {
      var nb := blocks[tailBlock].next;
      blocks := blocks[nb := blocks[nb].(localFront := blocks[nb].front)];
      var t := blocks[nb].tail;
      blocks := blocks[nb := blocks[nb].(data := blocks[nb].data[t := Live(e)])];
      MaskIsNextIndex(t, largestBlockSize);
      blocks := blocks[nb := blocks[nb].(tail := And(t + 1, largestBlockSize - 1))];
      tailBlock := nb;
      machine := FillNext(start, e);
    }

    /** Hands out the oldest element; a refusal means there is none. */
    method TryDequeue() returns (ok: bool, result: Cell<T>)
      requires Valid()
      modifies this
      ensures Valid() && largestBlockSize == old(largestBlockSize) && |blocks| == |old(blocks)|
      ensures ok == (old(Elements()) != [])
      ensures ok ==> result == Live(old(Elements())[0]) && Elements() == old(Elements())[1..]
      ensures !ok ==> Elements() == []
    {
      var fb := frontBlock;
      var found, blockFront, s := LookForElement();
      ok, result := true, Raw;
      if found {
        result := TakeFront(blockFront, s);
        OneLess(s.enqueued, |s.dequeued|);
      } else if fb != tailBlock {
        result := AdvanceAndTake(s);
        OneLess(s.enqueued, |s.dequeued|);
      } else {
        machine := NothingHeld(s);
        ok := false;
      }
    }

    /** Does the front block hold anything, by the copy of tail or else by tail
        itself? */
    method LookForElement() returns (found: bool, blockFront: nat, ghost s: State<T>)
      requires Valid()
      modifies this
      ensures largestBlockSize == old(largestBlockSize) && IsPow2(largestBlockSize)
      ensures SameMemory(s) && ConsumerAlone(s) && LevelBelow(s) && ByConsumer(old(machine), s)
      ensures s.dequeued == old(machine).dequeued && frontBlock == old(frontBlock)
      ensures s.c == if found then CTake(blockFront) else CCheckTailBlock
      ensures !found ==> blocks[frontBlock].front == blocks[frontBlock].tail
    {
      s := BeginDequeue(machine);
      s := LookInFront(s);
      var fb := frontBlock;
      var blockTail := blocks[fb].localTail;
      blockFront := blocks[fb].front;
      found := blockFront != blockTail;
      if !found {
        blocks := blocks[fb := blocks[fb].(localTail := blocks[fb].tail)];
        s := LookAtTail(s, blockFront);
        found := blockFront != blocks[fb].localTail;
      }
    }

    method TakeFront(blockFront: nat, ghost start: State<T>) returns (result: Cell<T>)
      requires ConsumerAlone(start) && start.c == CTake(blockFront) && SameMemory(start) && IsPow2(largestBlockSize)
      modifies this
      ensures Valid() && largestBlockSize == old(largestBlockSize) && |blocks| == |old(blocks)|
      ensures machine.enqueued == start.enqueued && |start.dequeued| < |start.enqueued|
      ensures result == Live(start.enqueued[|start.dequeued|])
      ensures machine.dequeued == start.dequeued + [start.enqueued[|start.dequeued|]]
    {
      machine := TakeOldest(start, blockFront);
      result := blocks[frontBlock].data[blockFront];
      blocks := blocks[frontBlock := blocks[frontBlock].(data := blocks[frontBlock].data[blockFront := Raw])];
      MaskIsNextIndex(blockFront, largestBlockSize);
      blocks := blocks[frontBlock := blocks[frontBlock].(front := And(blockFront + 1, largestBlockSize - 1))];
    }

    /** The front block is empty and another is ahead. Reading front and tail once
        more finds the same, as nothing interferes. */
    method AdvanceAndTake(ghost start: State<T>) returns (result: Cell<T>)
      requires ConsumerAlone(start) && start.c == CCheckTailBlock && SameMemory(start) && IsPow2(largestBlockSize)
      requires frontBlock != tailBlock && blocks[frontBlock].front == blocks[frontBlock].tail
      modifies this
      ensures Valid() && largestBlockSize == old(largestBlockSize) && |blocks| == |old(blocks)|
      ensures machine.enqueued == start.enqueued && |start.dequeued| < |start.enqueued|
      ensures result == Live(start.enqueued[|start.dequeued|])
      ensures machine.dequeued == start.dequeued + [start.enqueued[|start.dequeued|]]
    {
      ghost var s := LookAgain(start);
      blocks := blocks[frontBlock := blocks[frontBlock].(localTail := blocks[frontBlock].tail)];
      s := MoveOn(s);
      var nb := blocks[frontBlock].next;
      var nextBlockFront := blocks[nb].front;
      blocks := blocks[nb := blocks[nb].(localTail := blocks[nb].tail)];
      frontBlock := nb;
      result := TakeFront(nextBlockFront, s);
    }
  }

  /** The ring size the constructor computes leaves room for `size` elements
      outside the block being consumed. */
  lemma BlockCountSuffices(size: nat, maxBlockSize: nat, count: nat)
    requires maxBlockSize >= 2 && count == (size + maxBlockSize * 2 - 3) / (maxBlockSize - 1)
    ensures count >= 1 && (count - 1) * (maxBlockSize - 1) >= size
    ensures size + 1 > maxBlockSize ==> count >= 2
  {
    var m, a := maxBlockSize - 1, size + maxBlockSize * 2 - 3;
    assert a == count * m + a % m;
    assert count * m > size + m - 1;
    assert (count - 1) * m == count * m - m;
  }
}
