/** The inductive invariant of the lock-free queue, and what it gives for every
    interleaving: first in first out, honest refusals, and no access to a slot
    the other thread is using. */
module SpscProof {
  import opened Bits
  import opened Common
  import opened Spsc

  // --------------------------------------------------------------- invariant

  /** Around the ring: localFront, front, localTail, tail. */
  ghost predicate InOrder<T>(b: Block<T>, size: nat)
    requires BlockShape(b, size)
  {
    Off(b.front, b.localFront, size) <= Off(b.localTail, b.localFront, size) <= Off(b.tail, b.localFront, size)
  }

  ghost predicate Ordered<T>(s: State<T>)
    requires Shape(s)
  {
    forall b :: 0 <= b < |s.blocks| ==> InOrder(s.blocks[b], s.size)
  }

  /** Blocks strictly between front and tail block are full, the tail block is
      not empty once it has moved on, and blocks outside are empty but for the
      one the producer is about to move to. */
  ghost predicate SpanFull<T>(s: State<T>)
    requires Shape(s)
  {
    var n, d := |s.blocks|, Span(s);
    forall b :: 0 <= b < n ==> Fits(Count(s.blocks[b], s.size), Off(b, s.frontBlock, n), d, s.size, s.p.PSwing?)
  }

  /** What a block `o` places from the front block may hold, in a span of `d`. */
  predicate Fits(count: nat, o: nat, d: nat, size: nat, swinging: bool) {
    && (0 < o < d ==> count == size - 1)
    && (0 < o == d ==> count >= 1)
    && (d < o ==> count == if swinging && o == d + 1 then 1 else 0)
  }

  ghost predicate TailFullUnlessFront<T>(s: State<T>)
    requires Shape(s)
  {
    s.frontBlock != s.tailBlock ==> Count(s.blocks[s.tailBlock], s.size) == s.size - 1
  }

  /** `k` blocks with `m` usable slots each. */
  function Room(k: nat, m: nat): nat {
    if k == 0 then 0 else Room(k - 1, m) + m
  }

  lemma {:induction false} RoomIsProduct(k: nat, m: nat)
    ensures Room(k, m) == k * m
  {
    if k != 0 {
      RoomIsProduct(k - 1, m);
      assert k * m == (k - 1) * m + m;
    }
  }

  /** The number of elements an enqueue is sure to find room for: one block may
      be the one being consumed, and each block wastes a slot. */
  function Capacity<T>(s: State<T>): nat
    requires Shape(s)
  {
    if |s.blocks| == 1 then s.size - 1 else Room(|s.blocks| - 1, s.size - 1)
  }

  ghost predicate ProducerInv<T>(s: State<T>)
    requires Shape(s)
  {
    var n := |s.blocks|;
    var b := s.blocks[s.tailBlock];
    var nb := s.blocks[b.next];
    match s.p
    case PIdle => true
    case PBegin(_) => true
    case PDone(_) => true
    case PRecheckFront(_, t, nt) => t == b.tail && nt == NextIndex(t, s.size)
    case PFill(_, t, nt) => t == b.tail && nt == NextIndex(t, s.size) && nt != b.localFront
    case PStoreTail(e, t, nt) =>
      t == b.tail && nt == NextIndex(t, s.size) && nt != b.localFront && b.data[t] == Live(e)
    case PCheckNext(_) => TailFullUnlessFront(s)
    case PEnterNext(_) => TailFullUnlessFront(s) && Span(s) + 1 < n
    case PFillNext(_, f, t) =>
      TailFullUnlessFront(s) && Span(s) + 1 < n && f == nb.front == nb.localFront && t == nb.tail && f == t
    case PStoreNextTail(e, t) =>
      && TailFullUnlessFront(s) && Span(s) + 1 < n && t == nb.front == nb.localFront && t == nb.tail
      && nb.data[t] == Live(e)
    case PSwing(e) => TailFullUnlessFront(s) && Span(s) + 1 < n && nb.data[nb.front] == Live(e)
  }

  ghost predicate ConsumerInv<T>(s: State<T>)
    requires Shape(s)
  {
    var b := s.blocks[s.frontBlock];
    var nb := s.blocks[b.next];
    match s.c
    case CIdle => true
    case CBegin => true
    case CDone(_, _) => true
    case CReloadTail(f) => f == b.front
    case CCheckTailBlock => true
    case CReloadTailAgain => Span(s) > 0
    case CLoadNext => Span(s) > 0 && b.front == b.tail
    case CAdvance(f, t) => Span(s) > 0 && b.front == b.tail && f == nb.front && t == nb.localTail && f != t
    case CTake(f) => f == b.front && f != b.localTail
    case CStoreFront(f, _) => f == b.front && f != b.localTail
  }

  /** What was dequeued, then what the queue holds, is what was enqueued. The
      slot of an element already moved out is raw until `front` is stored. */
  ghost predicate Fifo<T>(s: State<T>)
    requires Shape(s)
  {
    && s.dequeued <= s.enqueued
    && (s.c.CStoreFront? || (s.c.CDone? && s.c.ok) ==>
          s.dequeued != [] && s.c.result == Live(s.dequeued[|s.dequeued| - 1]))
    && Contents(s) == (if s.c.CStoreFront? then [Raw] else []) + AsCells(s.enqueued[|s.dequeued|..])
  }

  ghost predicate Water<T>(s: State<T>)
    requires Shape(s)
  {
    && (ConsumerActive(s.c) ==> s.lowWater <= |Contents(s)|)
    && (ProducerActive(s.p) ==> |Contents(s)| <= s.highWater)
  }

  /** A consumer about to be refused, or refused, met an empty queue in its call. */
  ghost predicate ConsumerTruthful<T>(s: State<T>)
    requires Shape(s)
  {
    && (s.c.CCheckTailBlock? && s.frontBlock == s.tailBlock ==> s.lowWater == 0)
    && (s.c.CDone? && !s.c.ok ==> s.lowWater == 0)
  }

  /** A refused producer met a full queue in its call. */
  ghost predicate ProducerTruthful<T>(s: State<T>)
    requires Shape(s)
  {
    && (s.p.PCheckNext? && |s.blocks| == 1 ==> s.highWater >= Capacity(s))
    && (s.p.PDone? && !s.p.ok ==> s.highWater >= Capacity(s))
  }

  ghost predicate Honest<T>(s: State<T>)
    requires Shape(s)
  {
    ConsumerTruthful(s) && ProducerTruthful(s)
  }

  ghost predicate Structure<T>(s: State<T>) {
    Shape(s) && Ordered(s) && SpanFull(s) && ProducerInv(s) && ConsumerInv(s)
  }

  ghost predicate Inv<T>(s: State<T>) {
    Structure(s) && Fifo(s) && Water(s) && Honest(s)
  }

  // ----------------------------------------------------- cells and the walk

  lemma CellsCount<T>(b: Block<T>, size: nat)
    requires BlockShape(b, size)
    ensures |Cells(b)| == Count(b, size)
  {
  }

  lemma CellsPush<T>(b: Block<T>, size: nat, nt: nat, e: T)
    requires BlockShape(b, size)
    requires nt == NextIndex(b.tail, size) && nt != b.front && b.data[b.tail] == Live(e)
    ensures Cells(b.(tail := nt)) == Cells(b) + [Live(e)]
  {
  }

  lemma CellsTake<T>(b: Block<T>, size: nat)
    requires BlockShape(b, size) && b.front != b.tail
    ensures Cells(b) == [b.data[b.front]] + Cells(b)[1..]
    ensures Cells(b.(data := b.data[b.front := Raw])) == [Raw] + Cells(b)[1..]
  {
  }

  lemma CellsPop<T>(b: Block<T>, size: nat)
    requires BlockShape(b, size) && b.front != b.tail
    ensures Cells(b.(front := NextIndex(b.front, size))) == Cells(b)[1..]
  {
  }

  lemma {:induction false} WalkFrame<X>(ps: seq<seq<X>>, qs: seq<seq<X>>, b: nat, d: nat)
    requires |ps| == |qs| && b < |ps| && d < |ps|
    requires forall k :: 0 <= k < |ps| && Off(k, b, |ps|) <= d ==> ps[k] == qs[k]
    ensures Walk(ps, b, d) == Walk(qs, b, d)
  {
    if d != 0 {
      WalkFrame(ps, qs, b, d - 1);
    }
  }

  /** The walk begins with its first part. */
  lemma {:induction false} WalkHead<X>(ps: seq<seq<X>>, b: nat, d: nat)
    requires b < |ps| && 0 < d < |ps|
    ensures Walk(ps, b, d) == ps[b] + Walk(ps, At(b, 1, |ps|), d - 1)
  {
    if d > 1 {
      WalkHead(ps, b, d - 1);
      assert At(At(b, 1, |ps|), d - 1, |ps|) == At(b, d, |ps|);
    }
  }

  /** Changing the first part changes the walk at its start only. */
  lemma WalkFirst<X>(ps: seq<seq<X>>, b: nat, d: nat, q: seq<X>) returns (rest: seq<X>)
    requires b < |ps| && d < |ps|
    ensures Walk(ps, b, d) == ps[b] + rest
    ensures Walk(ps[b := q], b, d) == q + rest
  {
    if d == 0 {
      rest := [];
    } else {
      rest := Walk(ps, At(b, 1, |ps|), d - 1);
      WalkHead(ps, b, d);
      WalkHead(ps[b := q], b, d);
      WalkFrame(ps, ps[b := q], At(b, 1, |ps|), d - 1);
    }
  }

  /** Changing the last part changes the walk at its end only. */
  lemma WalkLast<X>(ps: seq<seq<X>>, b: nat, d: nat, q: seq<X>) returns (start: seq<X>)
    requires b < |ps| && d < |ps|
    ensures Walk(ps, b, d) == start + ps[At(b, d, |ps|)]
    ensures Walk(ps[At(b, d, |ps|) := q], b, d) == start + q
  {
    if d == 0 {
      start := [];
    } else {
      start := Walk(ps, b, d - 1);
      WalkFrame(ps, ps[At(b, d, |ps|) := q], b, d - 1);
    }
  }

  lemma {:induction false} WalkFull<X>(ps: seq<seq<X>>, b: nat, d: nat, m: nat)
    requires b < |ps| && d < |ps|
    requires forall k :: 0 <= k < |ps| && 0 < Off(k, b, |ps|) <= d ==> |ps[k]| >= m
    ensures |Walk(ps, b, d)| >= |ps[b]| + Room(d, m)
  {
    if d != 0 {
      WalkFull(ps, b, d - 1, m);
    }
  }

  // ------------------------------------------------------------ preservation

  lemma OrderRebase<T>(b: Block<T>, size: nat)
    requires BlockShape(b, size) && InOrder(b, size)
    ensures InOrder(b.(localFront := b.front), size)
  {
  }

  lemma OrderPush<T>(b: Block<T>, size: nat)
    requires BlockShape(b, size) && InOrder(b, size) && NextIndex(b.tail, size) != b.localFront
    ensures var r := b.(tail := NextIndex(b.tail, size));
            InOrder(r, size) && Count(r, size) == Count(b, size) + 1
    ensures NextIndex(b.tail, size) != b.front
  {
  }

  lemma OrderPop<T>(b: Block<T>, size: nat)
    requires BlockShape(b, size) && InOrder(b, size) && b.front != b.localTail
    ensures var r := b.(front := NextIndex(b.front, size));
            InOrder(r, size) && Count(r, size) == Count(b, size) - 1
  {
  }

  /** The block the producer moves to lies just outside the span. */
  lemma NextIsOutside<T>(s: State<T>)
    requires Shape(s) && SpanFull(s) && Span(s) + 1 < |s.blocks|
    ensures var nb := s.blocks[s.tailBlock].next;
            && nb != s.frontBlock && nb != s.tailBlock && Off(nb, s.frontBlock, |s.blocks|) == Span(s) + 1
            && Count(s.blocks[nb], s.size) == if s.p.PSwing? then 1 else 0
  {
  }

  /** The block the consumer moves to is in the span and holds something. */
  lemma NextHolds<T>(s: State<T>)
    requires Shape(s) && SpanFull(s) && 0 < Span(s)
    ensures var nb := s.blocks[s.frontBlock].next;
            && nb != s.frontBlock && Off(nb, s.frontBlock, |s.blocks|) == 1
            && Count(s.blocks[nb], s.size) >= 1
  {
  }

  lemma KeepsPBegin<T>(s: State<T>)
    requires Structure(s) && s.p.PBegin?
    ensures Structure(ProducerStepOf(s))
  {
  }

  lemma RecheckKeepsSpan<T>(s: State<T>)
    requires Structure(s) && s.p.PRecheckFront?
    ensures Ordered(ProducerStepOf(s)) && SpanFull(ProducerStepOf(s))
  {
    OrderRebase(s.blocks[s.tailBlock], s.size);
  }

  lemma RecheckKeepsThreads<T>(s: State<T>)
    requires Structure(s) && s.p.PRecheckFront?
    ensures ProducerInv(ProducerStepOf(s)) && ConsumerInv(ProducerStepOf(s))
  {
    OrderRebase(s.blocks[s.tailBlock], s.size);
  }

  lemma KeepsPRecheckFront<T>(s: State<T>)
    requires Structure(s) && s.p.PRecheckFront?
    ensures Structure(ProducerStepOf(s))
  {
    RecheckKeepsSpan(s);
    RecheckKeepsThreads(s);
  }

  lemma KeepsPFill<T>(s: State<T>)
    requires Structure(s) && s.p.PFill?
    ensures Structure(ProducerStepOf(s))
  {
  }

  lemma StoreTailKeepsSpan<T>(s: State<T>)
    requires Structure(s) && s.p.PStoreTail?
    ensures Ordered(ProducerStepOf(s)) && SpanFull(ProducerStepOf(s))
  {
    OrderPush(s.blocks[s.tailBlock], s.size);
  }

  lemma StoreTailKeepsThreads<T>(s: State<T>)
    requires Structure(s) && s.p.PStoreTail?
    ensures ProducerInv(ProducerStepOf(s)) && ConsumerInv(ProducerStepOf(s))
  {
    OrderPush(s.blocks[s.tailBlock], s.size);
  }

  lemma KeepsPStoreTail<T>(s: State<T>)
    requires Structure(s) && s.p.PStoreTail?
    ensures Structure(ProducerStepOf(s))
  {
    StoreTailKeepsSpan(s);
    StoreTailKeepsThreads(s);
  }

  lemma KeepsPCheckNext<T>(s: State<T>)
    requires Structure(s) && s.p.PCheckNext?
    ensures Structure(ProducerStepOf(s))
  {
  }

  lemma EnterNextKeepsSpan<T>(s: State<T>)
    requires Structure(s) && s.p.PEnterNext?
    ensures Ordered(ProducerStepOf(s)) && SpanFull(ProducerStepOf(s))
  {
    NextIsOutside(s);
  }

  lemma EnterNextKeepsThreads<T>(s: State<T>)
    requires Structure(s) && s.p.PEnterNext?
    ensures ProducerInv(ProducerStepOf(s)) && ConsumerInv(ProducerStepOf(s))
  {
    NextIsOutside(s);
  }

  lemma KeepsPEnterNext<T>(s: State<T>)
    requires Structure(s) && s.p.PEnterNext?
    ensures Structure(ProducerStepOf(s))
  {
    EnterNextKeepsSpan(s);
    EnterNextKeepsThreads(s);
  }

  lemma FillNextKeepsSpan<T>(s: State<T>)
    requires Structure(s) && s.p.PFillNext?
    ensures Ordered(ProducerStepOf(s)) && SpanFull(ProducerStepOf(s))
  {
    NextIsOutside(s);
  }

  lemma FillNextKeepsThreads<T>(s: State<T>)
    requires Structure(s) && s.p.PFillNext?
    ensures ProducerInv(ProducerStepOf(s)) && ConsumerInv(ProducerStepOf(s))
  {
    NextIsOutside(s);
  }

  lemma KeepsPFillNext<T>(s: State<T>)
    requires Structure(s) && s.p.PFillNext?
    ensures Structure(ProducerStepOf(s))
  {
    FillNextKeepsSpan(s);
    FillNextKeepsThreads(s);
  }

  lemma StoreNextTailKeepsSpan<T>(s: State<T>)
    requires Structure(s) && s.p.PStoreNextTail?
    ensures Ordered(ProducerStepOf(s)) && SpanFull(ProducerStepOf(s))
  {
    NextIsOutside(s);
  }

  lemma StoreNextTailKeepsThreads<T>(s: State<T>)
    requires Structure(s) && s.p.PStoreNextTail?
    ensures ProducerInv(ProducerStepOf(s)) && ConsumerInv(ProducerStepOf(s))
  {
    NextIsOutside(s);
  }

  lemma KeepsPStoreNextTail<T>(s: State<T>)
    requires Structure(s) && s.p.PStoreNextTail?
    ensures Structure(ProducerStepOf(s))
  {
    StoreNextTailKeepsSpan(s);
    StoreNextTailKeepsThreads(s);
  }

  lemma SwingKeepsSpan<T>(s: State<T>)
    requires Structure(s) && s.p.PSwing?
    ensures Ordered(ProducerStepOf(s)) && SpanFull(ProducerStepOf(s))
  {
  }

  lemma SwingKeepsThreads<T>(s: State<T>)
    requires Structure(s) && s.p.PSwing?
    ensures ProducerInv(ProducerStepOf(s)) && ConsumerInv(ProducerStepOf(s))
  {
  }

  lemma KeepsPSwing<T>(s: State<T>)
    requires Structure(s) && s.p.PSwing?
    ensures Structure(ProducerStepOf(s))
  {
    SwingKeepsSpan(s);
    SwingKeepsThreads(s);
  }

  lemma KeepsCBegin<T>(s: State<T>)
    requires Structure(s) && s.c.CBegin?
    ensures Structure(ConsumerStepOf(s))
  {
  }

  lemma ReloadTailKeepsSpan<T>(s: State<T>)
    requires Structure(s) && s.c.CReloadTail?
    ensures Ordered(ConsumerStepOf(s)) && SpanFull(ConsumerStepOf(s))
  {
  }

  lemma ReloadTailKeepsThreads<T>(s: State<T>)
    requires Structure(s) && s.c.CReloadTail?
    ensures ProducerInv(ConsumerStepOf(s)) && ConsumerInv(ConsumerStepOf(s))
  {
  }

  lemma KeepsCReloadTail<T>(s: State<T>)
    requires Structure(s) && s.c.CReloadTail?
    ensures Structure(ConsumerStepOf(s))
  {
    ReloadTailKeepsSpan(s);
    ReloadTailKeepsThreads(s);
  }

  lemma KeepsCCheckTailBlock<T>(s: State<T>)
    requires Structure(s) && s.c.CCheckTailBlock?
    ensures Structure(ConsumerStepOf(s))
  {
  }

  lemma KeepsCReloadTailAgain<T>(s: State<T>)
    requires Structure(s) && s.c.CReloadTailAgain?
    ensures Structure(ConsumerStepOf(s))
  {
  }

  lemma KeepsCLoadNext<T>(s: State<T>)
    requires Structure(s) && s.c.CLoadNext?
    ensures Structure(ConsumerStepOf(s))
  {
    NextHolds(s);
  }

  /** Seen from the next block, every other block is one nearer. */
  lemma OffNext(b: nat, f: nat, n: nat)
    requires b < n && f < n
    ensures Off(b, At(f, 1, n), n) == if b == f then n - 1 else Off(b, f, n) - 1
  {
  }

  lemma AdvancedSpan<T>(s: State<T>, r: State<T>)
    requires Shape(s) && Shape(r) && SpanFull(s) && 0 < Span(s) && r.blocks == s.blocks && r.size == s.size &&
             r.p == s.p
    requires s.blocks[s.frontBlock].front == s.blocks[s.frontBlock].tail && (s.p.PSwing? ==> Span(s) + 1 < |s.blocks|)
    requires r.tailBlock == s.tailBlock && r.frontBlock == At(s.frontBlock, 1, |s.blocks|)
    ensures SpanFull(r)
  {
    var n := |s.blocks|;
    OffNext(s.tailBlock, s.frontBlock, n);
    forall b | 0 <= b < n
      ensures Fits(Count(r.blocks[b], r.size), Off(b, r.frontBlock, n), Span(r), r.size, r.p.PSwing?)
    {
      OffNext(b, s.frontBlock, n);
      assert Fits(Count(s.blocks[b], s.size), Off(b, s.frontBlock, n), Span(s), s.size, s.p.PSwing?);
    }
  }

  lemma AdvanceKeepsSpan<T>(s: State<T>)
    requires Structure(s) && s.c.CAdvance?
    ensures Ordered(ConsumerStepOf(s)) && SpanFull(ConsumerStepOf(s))
  {
    AdvancedSpan(s, ConsumerStepOf(s));
  }

  lemma AdvanceKeepsThreads<T>(s: State<T>)
    requires Structure(s) && s.c.CAdvance?
    ensures ProducerInv(ConsumerStepOf(s)) && ConsumerInv(ConsumerStepOf(s))
  {
  }

  lemma KeepsCAdvance<T>(s: State<T>)
    requires Structure(s) && s.c.CAdvance?
    ensures Structure(ConsumerStepOf(s))
  {
    AdvanceKeepsSpan(s);
    AdvanceKeepsThreads(s);
  }

  lemma TakeKeepsSpan<T>(s: State<T>)
    requires Structure(s) && s.c.CTake?
    ensures Ordered(ConsumerStepOf(s)) && SpanFull(ConsumerStepOf(s))
  {
  }

  /** The slot being emptied is not the one the producer has just filled. */
  lemma TakeIsElsewhere<T>(s: State<T>)
    requires Structure(s) && s.c.CTake?
    ensures s.p.PStoreTail? && s.tailBlock == s.frontBlock ==> s.p.blockTail != s.c.blockFront
    ensures s.p.PStoreNextTail? || s.p.PSwing? ==> s.blocks[s.tailBlock].next != s.frontBlock
  {
  }

  lemma TakeKeepsProducer<T>(s: State<T>)
    requires Structure(s) && s.c.CTake?
    ensures ProducerInv(ConsumerStepOf(s))
  {
    TakeIsElsewhere(s);
  }

  lemma TakeKeepsConsumer<T>(s: State<T>)
    requires Structure(s) && s.c.CTake?
    ensures ConsumerInv(ConsumerStepOf(s))
  {
  }

  lemma KeepsCTake<T>(s: State<T>)
    requires Structure(s) && s.c.CTake?
    ensures Structure(ConsumerStepOf(s))
  {
    TakeKeepsSpan(s);
    TakeKeepsProducer(s);
    TakeKeepsConsumer(s);
  }

  lemma StoreFrontKeepsSpan<T>(s: State<T>)
    requires Structure(s) && s.c.CStoreFront?
    ensures Ordered(ConsumerStepOf(s)) && SpanFull(ConsumerStepOf(s))
  {
    OrderPop(s.blocks[s.frontBlock], s.size);
  }

  lemma StoreFrontKeepsThreads<T>(s: State<T>)
    requires Structure(s) && s.c.CStoreFront?
    ensures ProducerInv(ConsumerStepOf(s)) && ConsumerInv(ConsumerStepOf(s))
  {
    OrderPop(s.blocks[s.frontBlock], s.size);
  }

  lemma KeepsCStoreFront<T>(s: State<T>)
    requires Structure(s) && s.c.CStoreFront?
    ensures Structure(ConsumerStepOf(s))
  {
    StoreFrontKeepsSpan(s);
    StoreFrontKeepsThreads(s);
  }

  lemma ProducerKeepsStructure<T>(s: State<T>)
    requires Structure(s)
    ensures Structure(ProducerStepOf(s))
  {
    match s.p
    case PIdle =>
    case PDone(_) =>
    case PBegin(_) => KeepsPBegin(s);
    case PRecheckFront(_, _, _) => KeepsPRecheckFront(s);
    case PFill(_, _, _) => KeepsPFill(s);
    case PStoreTail(_, _, _) => KeepsPStoreTail(s);
    case PCheckNext(_) => KeepsPCheckNext(s);
    case PEnterNext(_) => KeepsPEnterNext(s);
    case PFillNext(_, _, _) => KeepsPFillNext(s);
    case PStoreNextTail(_, _) => KeepsPStoreNextTail(s);
    case PSwing(_) => KeepsPSwing(s);
  }

  lemma ConsumerKeepsStructure<T>(s: State<T>)
    requires Structure(s)
    ensures Structure(ConsumerStepOf(s))
  {
    match s.c
    case CIdle =>
    case CDone(_, _) =>
    case CBegin => KeepsCBegin(s);
    case CReloadTail(_) => KeepsCReloadTail(s);
    case CCheckTailBlock => KeepsCCheckTailBlock(s);
    case CReloadTailAgain => KeepsCReloadTailAgain(s);
    case CLoadNext => KeepsCLoadNext(s);
    case CAdvance(_, _) => KeepsCAdvance(s);
    case CTake(_) => KeepsCTake(s);
    case CStoreFront(_, _) => KeepsCStoreFront(s);
  }

  // ---------------------------------------------------------- first in first out

  lemma SameContents<T>(s: State<T>, r: State<T>)
    requires Shape(s) && Shape(r) && |s.blocks| == |r.blocks| && s.size == r.size
    requires r.frontBlock == s.frontBlock && r.tailBlock == s.tailBlock
    requires forall k :: 0 <= k < |s.blocks| && Off(k, s.frontBlock, |s.blocks|) <= Span(s) ==>
                         Cells(r.blocks[k]) == Cells(s.blocks[k])
    ensures Contents(r) == Contents(s)
  {
    WalkFrame(AllCells(s.blocks), AllCells(r.blocks), s.frontBlock, Span(s));
  }

  lemma ReplaceFirst<T>(s: State<T>, r: State<T>, nb: Block<T>) returns (rest: seq<Cell<T>>)
    requires Shape(s) && Shape(r) && BlockShape(nb, s.size)
    requires r.frontBlock == s.frontBlock && r.tailBlock == s.tailBlock && r.blocks == s.blocks[s.frontBlock := nb]
    ensures Contents(s) == Cells(s.blocks[s.frontBlock]) + rest
    ensures Contents(r) == Cells(nb) + rest
  {
    rest := WalkFirst(AllCells(s.blocks), s.frontBlock, Span(s), Cells(nb));
    assert AllCells(r.blocks) == AllCells(s.blocks)[s.frontBlock := Cells(nb)];
  }

  lemma ReplaceLast<T>(s: State<T>, r: State<T>, nb: Block<T>) returns (start: seq<Cell<T>>)
    requires Shape(s) && Shape(r) && BlockShape(nb, s.size)
    requires r.frontBlock == s.frontBlock && r.tailBlock == s.tailBlock && r.blocks == s.blocks[s.tailBlock := nb]
    ensures Contents(s) == start + Cells(s.blocks[s.tailBlock])
    ensures Contents(r) == start + Cells(nb)
  {
    start := WalkLast(AllCells(s.blocks), s.frontBlock, Span(s), Cells(nb));
    assert AllCells(r.blocks) == AllCells(s.blocks)[s.tailBlock := Cells(nb)];
  }

  lemma StoreTailAppends<T>(s: State<T>)
    requires Structure(s) && s.p.PStoreTail?
    ensures Contents(ProducerStepOf(s)) == Contents(s) + [Live(s.p.e)]
  {
    var r, b := ProducerStepOf(s), s.blocks[s.tailBlock];
    OrderPush(b, s.size);
    CellsPush(b, s.size, s.p.nextBlockTail, s.p.e);
    var start := ReplaceLast(s, r, b.(tail := s.p.nextBlockTail));
  }

  lemma SwingCells<T>(s: State<T>)
    requires Structure(s) && s.p.PSwing?
    ensures var nb := s.blocks[s.tailBlock].next;
            && nb == At(s.frontBlock, Span(s) + 1, |s.blocks|) && Off(nb, s.frontBlock, |s.blocks|) == Span(s) + 1
            && Cells(s.blocks[nb]) == [Live(s.p.e)]
  {
    var nb := s.blocks[s.tailBlock].next;
    assert nb == At(s.frontBlock, Span(s) + 1, |s.blocks|);
    assert Off(nb, s.frontBlock, |s.blocks|) == Span(s) + 1;
    CellsCount(s.blocks[nb], s.size);
  }

  lemma WalkOneMore<X>(parts: seq<seq<X>>, b: nat, d: nat, q: seq<X>)
    requires b < |parts| && d + 1 < |parts| && parts[At(b, d + 1, |parts|)] == q
    ensures Walk(parts, b, d + 1) == Walk(parts, b, d) + q
  {
  }

  lemma SwingAppends<T>(s: State<T>)
    requires Structure(s) && s.p.PSwing?
    ensures Contents(ProducerStepOf(s)) == Contents(s) + [Live(s.p.e)]
  {
    SwingCells(s);
    SwungContents(s, ProducerStepOf(s), [Live(s.p.e)]);
  }

  /** `r` is `s` with the tail one block further on. */
  lemma SwungContents<T>(s: State<T>, r: State<T>, q: seq<Cell<T>>)
    requires Shape(s) && Shape(r) && r.blocks == s.blocks && r.frontBlock == s.frontBlock
    requires r.tailBlock == At(s.frontBlock, Span(s) + 1, |s.blocks|) && Span(r) == Span(s) + 1
    requires Cells(s.blocks[r.tailBlock]) == q
    ensures Contents(r) == Contents(s) + q
  {
    WalkOneMore(AllCells(s.blocks), s.frontBlock, Span(s), q);
  }

  lemma FillKeepsCells<T>(s: State<T>)
    requires Structure(s) && !s.p.PStoreTail? && !s.p.PSwing?
    ensures Contents(ProducerStepOf(s)) == Contents(s)
  {
    FillKeepsEach(s);
    SameContents(s, ProducerStepOf(s));
  }

  /** Between front and tail of the blocks in the span, nothing changes. */
  lemma FillKeepsEach<T>(s: State<T>)
    requires Structure(s) && !s.p.PStoreTail? && !s.p.PSwing?
    ensures var r, n := ProducerStepOf(s), |s.blocks|;
            && |r.blocks| == n && r.size == s.size && r.frontBlock == s.frontBlock && r.tailBlock == s.tailBlock
            && forall k :: 0 <= k < n && Off(k, s.frontBlock, n) <= Span(s) ==> Cells(r.blocks[k]) == Cells(s.blocks[k])
  {
    if s.p.PFill? {
      FillIsOutside(s.blocks[s.tailBlock], s.size, Live(s.p.e));
    } else if s.p.PFillNext? || s.p.PStoreNextTail? {
      NextIsOutside(s);
    } else {
      LookKeepsData(s);
    }
  }

  /** The slot at tail is not part of what the block holds. */
  lemma FillIsOutside<T>(b: Block<T>, size: nat, cell: Cell<T>)
    requires BlockShape(b, size)
    ensures Cells(b.(data := b.data[b.tail := cell])) == Cells(b)
  {
  }

  lemma LookKeepsData<T>(s: State<T>)
    requires Shape(s) && !s.p.PStoreTail? && !s.p.PFill? && !s.p.PFillNext? && !s.p.PStoreNextTail?
    ensures var r := ProducerStepOf(s);
            && |r.blocks| == |s.blocks|
            && forall k :: 0 <= k < |s.blocks| ==>
                 var b, c := s.blocks[k], r.blocks[k]; c.front == b.front && c.tail == b.tail && c.data == b.data
  {
  }

  lemma ProducerHistories<T>(s: State<T>)
    requires Shape(s)
    ensures var r := ProducerStepOf(s);
            && r.c == s.c && r.dequeued == s.dequeued
            && r.enqueued == s.enqueued + if s.p.PStoreTail? || s.p.PSwing? then [s.p.e] else []
  {
  }

  lemma PublishKeepsFifo<T>(s: State<T>)
    requires Structure(s) && Fifo(s) && (s.p.PStoreTail? || s.p.PSwing?)
    ensures Fifo(ProducerStepOf(s))
  {
    ProducerHistories(s);
    if s.p.PStoreTail? {
      StoreTailAppends(s);
    } else {
      SwingAppends(s);
    }
    Appended(s, ProducerStepOf(s), s.p.e);
  }

  lemma ProducerKeepsFifo<T>(s: State<T>)
    requires Structure(s) && Fifo(s)
    ensures Fifo(ProducerStepOf(s))
  {
    if s.p.PStoreTail? || s.p.PSwing? {
      PublishKeepsFifo(s);
    } else {
      ProducerHistories(s);
      FillKeepsCells(s);
      SameFifo(s, ProducerStepOf(s));
    }
  }

  lemma CellsAppend<T>(q: seq<T>, e: T)
    ensures AsCells(q + [e]) == AsCells(q) + [Live(e)]
  {
  }

  lemma Appended<T>(s: State<T>, r: State<T>, e: T)
    requires Shape(s) && Shape(r) && Fifo(s) && r.c == s.c
    requires r.dequeued == s.dequeued && r.enqueued == s.enqueued + [e]
    requires Contents(r) == Contents(s) + [Live(e)]
    ensures Fifo(r)
  {
    assert r.enqueued[|r.dequeued|..] == s.enqueued[|s.dequeued|..] + [e];
    CellsAppend(s.enqueued[|s.dequeued|..], e);
  }

  lemma AdvanceKeepsContents<T>(s: State<T>)
    requires Shape(s) && s.c.CAdvance? && Span(s) > 0
    requires s.blocks[s.frontBlock].front == s.blocks[s.frontBlock].tail
    ensures Contents(ConsumerStepOf(s)) == Contents(s)
  {
    AdvancedContents(s, ConsumerStepOf(s));
  }

  lemma WalkIs<T>(s: State<T>, parts: seq<seq<Cell<T>>>, b: nat, d: nat, w: seq<Cell<T>>)
    requires Shape(s) && parts == AllCells(s.blocks) && b == s.frontBlock && d == Span(s)
    requires b < |parts| && d < |parts| && w == Walk(parts, b, d)
    ensures Contents(s) == w
  {
  }

  lemma AdvancedContents<T>(s: State<T>, r: State<T>)
    requires Shape(s) && Shape(r) && 0 < Span(s) && s.blocks[s.frontBlock].front == s.blocks[s.frontBlock].tail
    requires r.blocks == s.blocks && r.tailBlock == s.tailBlock && r.frontBlock == At(s.frontBlock, 1, |s.blocks|)
    ensures Contents(r) == Contents(s)
  {
    var parts, b, d := AllCells(s.blocks), s.frontBlock, Span(s);
    SpanShrinks(s, r);
    FrontPartEmpty(s, parts);
    var w := Walk(parts, b, d);
    AdvancedWalk(parts, b, d);
    WalkIs(s, parts, b, d, w);
    WalkIs(r, parts, r.frontBlock, d - 1, w);
  }

  lemma SpanShrinks<T>(s: State<T>, r: State<T>)
    requires Shape(s) && Shape(r) && 0 < Span(s)
    requires r.blocks == s.blocks && r.tailBlock == s.tailBlock && r.frontBlock == At(s.frontBlock, 1, |s.blocks|)
    ensures Span(r) == Span(s) - 1 && Span(s) < |s.blocks|
  {
    OffNext(s.tailBlock, s.frontBlock, |s.blocks|);
  }

  lemma FrontPartEmpty<T>(s: State<T>, parts: seq<seq<Cell<T>>>)
    requires Shape(s) && parts == AllCells(s.blocks) && s.blocks[s.frontBlock].front == s.blocks[s.frontBlock].tail
    ensures s.frontBlock < |parts| && parts[s.frontBlock] == []
  {
    assert parts[s.frontBlock] == Cells(s.blocks[s.frontBlock]);
  }

  lemma AdvancedWalk<X>(parts: seq<seq<X>>, b: nat, d: nat)
    requires b < |parts| && 0 < d < |parts| && parts[b] == []
    ensures Walk(parts, b, d) == Walk(parts, At(b, 1, |parts|), d - 1)
  {
    WalkHead(parts, b, d);
  }

  lemma Regroup<X>(x: X, t: seq<X>, after: seq<X>)
    ensures [x] + t + after == [x] + (t + after)
  {
  }

  /** `r` is as `s`, but for the front slot, which has become raw. */
  lemma TookContents<T>(s: State<T>, r: State<T>) returns (rest: seq<Cell<T>>)
    requires Shape(s) && Shape(r) && s.blocks[s.frontBlock].front != s.blocks[s.frontBlock].tail
    requires r.frontBlock == s.frontBlock && r.tailBlock == s.tailBlock
    requires var b := s.blocks[s.frontBlock]; r.blocks == s.blocks[s.frontBlock := b.(data := b.data[b.front := Raw])]
    ensures Contents(s) == [s.blocks[s.frontBlock].data[s.blocks[s.frontBlock].front]] + rest
    ensures Contents(r) == [Raw] + rest
  {
    var b := s.blocks[s.frontBlock];
    CellsTake(b, s.size);
    var after := ReplaceFirst(s, r, b.(data := b.data[b.front := Raw]));
    Regroup(b.data[b.front], Cells(b)[1..], after);
    Regroup(Raw, Cells(b)[1..], after);
    rest := Cells(b)[1..] + after;
  }

  lemma TakeContents<T>(s: State<T>) returns (rest: seq<Cell<T>>)
    requires Shape(s) && s.c.CTake? && s.c.blockFront == s.blocks[s.frontBlock].front != s.blocks[s.frontBlock].tail
    ensures Contents(s) == [s.blocks[s.frontBlock].data[s.c.blockFront]] + rest
    ensures Contents(ConsumerStepOf(s)) == [Raw] + rest
  {
    rest := TookContents(s, ConsumerStepOf(s));
  }

  /** Where localTail is ahead of front, the block holds something. */
  lemma OrderNonEmpty<T>(b: Block<T>, size: nat)
    requires BlockShape(b, size) && InOrder(b, size) && b.front != b.localTail
    ensures b.front != b.tail
  {
  }

  lemma TakeFirst<T>(s: State<T>)
    requires Structure(s) && Fifo(s) && s.c.CTake?
    ensures s.blocks[s.frontBlock].data[s.c.blockFront].Live?
    ensures Fifo(ConsumerStepOf(s))
  {
    OrderNonEmpty(s.blocks[s.frontBlock], s.size);
    var rest := TakeContents(s);
    TakenFrom(s, s.blocks[s.frontBlock].data[s.c.blockFront], rest);
    TakeRecords(s);
    TookFifo(s, ConsumerStepOf(s), s.blocks[s.frontBlock].data[s.c.blockFront], rest);
  }

  lemma TakeRecords<T>(s: State<T>)
    requires Shape(s) && s.c.CTake? && s.blocks[s.frontBlock].data[s.c.blockFront].Live?
    ensures var r, cell := ConsumerStepOf(s), s.blocks[s.frontBlock].data[s.c.blockFront];
            && r.enqueued == s.enqueued && r.dequeued == s.dequeued + [cell.value]
            && r.c == CStoreFront(s.c.blockFront, cell)
  {
  }

  lemma TookFifo<T>(s: State<T>, r: State<T>, cell: Cell<T>, rest: seq<Cell<T>>)
    requires Shape(r) && s.dequeued <= s.enqueued && |s.dequeued| < |s.enqueued| &&
             cell == Live(s.enqueued[|s.dequeued|])
    requires rest == AsCells(s.enqueued[|s.dequeued| + 1..]) && Contents(r) == [Raw] + rest
    requires r.enqueued == s.enqueued && r.dequeued == s.dequeued + [cell.value] && r.c.CStoreFront? &&
             r.c.result == cell
    ensures Fifo(r)
  {
    OneTaken(s.enqueued, s.dequeued, cell.value);
  }

  lemma OneTaken<T>(q: seq<T>, d: seq<T>, x: T)
    requires d <= q && |d| < |q| && x == q[|d|]
    ensures d + [x] <= q && q[|d + [x]|..] == q[|d| + 1..]
  {
  }

  lemma TakenFrom<T>(s: State<T>, cell: Cell<T>, rest: seq<Cell<T>>)
    requires Shape(s) && Fifo(s) && !s.c.CStoreFront? && Contents(s) == [cell] + rest
    ensures |s.dequeued| < |s.enqueued| && cell == Live(s.enqueued[|s.dequeued|])
    ensures rest == AsCells(s.enqueued[|s.dequeued| + 1..])
  {
    FirstOfCells(s.enqueued, |s.dequeued|, Contents(s), cell, rest);
  }

  lemma FirstOfCells<T>(q: seq<T>, d: nat, held: seq<Cell<T>>, cell: Cell<T>, rest: seq<Cell<T>>)
    requires d <= |q| && held == AsCells(q[d..]) && held == [cell] + rest
    ensures d < |q| && cell == Live(q[d]) && rest == AsCells(q[d + 1..])
  {
    assert cell == held[0] == AsCells(q[d..])[0];
    assert rest == held[1..] == AsCells(q[d + 1..]);
  }

  lemma PopContents<T>(s: State<T>)
    requires Shape(s) && s.c.CStoreFront?
    requires s.c.blockFront == s.blocks[s.frontBlock].front != s.blocks[s.frontBlock].tail
    ensures Contents(s) != [] && Contents(ConsumerStepOf(s)) == Contents(s)[1..]
  {
    var b := s.blocks[s.frontBlock];
    CellsPop(b, s.size);
    CellsCount(b, s.size);
    var rest := ReplaceFirst(s, ConsumerStepOf(s), b.(front := NextIndex(b.front, s.size)));
    HeadOfFirst(Cells(b), rest);
  }

  lemma HeadOfFirst<X>(q: seq<X>, rest: seq<X>)
    requires q != []
    ensures q + rest != [] && (q + rest)[1..] == q[1..] + rest
  {
  }

  lemma LoadKeepsContents<T>(s: State<T>)
    requires Shape(s) && !s.c.CAdvance? && !s.c.CTake? && !s.c.CStoreFront?
    ensures Contents(ConsumerStepOf(s)) == Contents(s)
  {
    SameContents(s, ConsumerStepOf(s));
  }

  lemma AdvanceKeepsFifo<T>(s: State<T>)
    requires Structure(s) && Fifo(s) && s.c.CAdvance?
    ensures Fifo(ConsumerStepOf(s))
  {
    AdvanceKeepsContents(s);
  }

  lemma StoreFrontKeepsFifo<T>(s: State<T>)
    requires Structure(s) && Fifo(s) && s.c.CStoreFront?
    ensures Fifo(ConsumerStepOf(s))
  {
    OrderNonEmpty(s.blocks[s.frontBlock], s.size);
    PopContents(s);
    StoreFrontLeavesRest(s);
    Popped(s, ConsumerStepOf(s));
  }

  lemma StoreFrontLeavesRest<T>(s: State<T>)
    requires Shape(s) && s.c.CStoreFront?
    ensures var r := ConsumerStepOf(s);
            r.enqueued == s.enqueued && r.dequeued == s.dequeued && r.c == CDone(true, s.c.result)
  {
  }

  /** The raw slot at the front has been given back. */
  lemma Popped<T>(s: State<T>, r: State<T>)
    requires Shape(s) && Shape(r) && Fifo(s) && s.c.CStoreFront? && Contents(s) != [] && Contents(r) == Contents(s)[1..]
    requires r.enqueued == s.enqueued && r.dequeued == s.dequeued && r.c == CDone(true, s.c.result)
    ensures Fifo(r)
  {
    HeadOff(Raw, AsCells(s.enqueued[|s.dequeued|..]));
  }

  lemma HeadOff<X>(x: X, q: seq<X>)
    ensures ([x] + q)[1..] == q
  {
  }

  /** Nothing that order depends on has changed. */
  lemma SameFifo<T>(s: State<T>, r: State<T>)
    requires Shape(s) && Shape(r) && Fifo(s) && Contents(r) == Contents(s)
    requires r.enqueued == s.enqueued && r.dequeued == s.dequeued && (r.c.CStoreFront? <==> s.c.CStoreFront?)
    requires r.c == s.c || (!r.c.CStoreFront? && !(r.c.CDone? && r.c.ok))
    ensures Fifo(r)
  {
  }

  lemma LoadLeavesRest<T>(s: State<T>)
    requires Shape(s) && !s.c.CAdvance? && !s.c.CTake? && !s.c.CStoreFront?
    ensures var r := ConsumerStepOf(s);
            && r.enqueued == s.enqueued && r.dequeued == s.dequeued && !r.c.CStoreFront?
            && (r.c == s.c || !(r.c.CDone? && r.c.ok))
  {
  }

  lemma LoadKeepsFifo<T>(s: State<T>)
    requires Shape(s) && Fifo(s) && !s.c.CAdvance? && !s.c.CTake? && !s.c.CStoreFront?
    ensures Fifo(ConsumerStepOf(s))
  {
    LoadKeepsContents(s);
    LoadLeavesRest(s);
    SameFifo(s, ConsumerStepOf(s));
  }

  lemma ConsumerKeepsFifo<T>(s: State<T>)
    requires Structure(s) && Fifo(s)
    ensures Fifo(ConsumerStepOf(s))
  {
    if s.c.CAdvance? {
      AdvanceKeepsFifo(s);
    } else if s.c.CTake? {
      TakeFirst(s);
    } else if s.c.CStoreFront? {
      StoreFrontKeepsFifo(s);
    } else {
      LoadKeepsFifo(s);
    }
  }

  // ------------------------------------------------------------ honest refusals

  lemma EmptyFront<T>(s: State<T>)
    requires Shape(s) && s.frontBlock == s.tailBlock
    requires s.blocks[s.frontBlock].front == s.blocks[s.frontBlock].tail
    ensures Contents(s) == []
  {
  }

  lemma FullSingle<T>(s: State<T>)
    requires Shape(s) && |s.blocks| == 1 && Count(s.blocks[0], s.size) == s.size - 1
    ensures |Contents(s)| == Capacity(s)
  {
    CellsCount(s.blocks[0], s.size);
  }

  lemma FullPart<T>(s: State<T>, k: nat)
    requires Structure(s) && s.p.PCheckNext? && |s.blocks| > 1 && s.blocks[s.tailBlock].next == s.frontBlock
    requires k < |s.blocks| && k != s.frontBlock
    ensures Span(s) == |s.blocks| - 1 && |Cells(s.blocks[k])| == s.size - 1
  {
    CellsCount(s.blocks[k], s.size);
    assert Off(k, s.frontBlock, |s.blocks|) <= Span(s);
  }

  lemma FullParts<T>(s: State<T>)
    requires Structure(s) && s.p.PCheckNext? && |s.blocks| > 1 && s.blocks[s.tailBlock].next == s.frontBlock
    ensures Span(s) == |s.blocks| - 1
    ensures forall k :: 0 <= k < |s.blocks| && k != s.frontBlock ==> |AllCells(s.blocks)[k]| == s.size - 1
  {
    forall k | 0 <= k < |s.blocks| && k != s.frontBlock
      ensures |AllCells(s.blocks)[k]| == s.size - 1
    {
      FullPart(s, k);
    }
  }

  lemma FullWalk<X>(parts: seq<seq<X>>, b: nat, m: nat)
    requires b < |parts| && forall k :: 0 <= k < |parts| && k != b ==> |parts[k]| == m
    ensures |Walk(parts, b, |parts| - 1)| >= |parts[b]| + Room(|parts| - 1, m)
  {
    WalkFull(parts, b, |parts| - 1, m);
  }

  lemma FullRing<T>(s: State<T>)
    requires Structure(s) && s.p.PCheckNext? && |s.blocks| > 1 && s.blocks[s.tailBlock].next == s.frontBlock
    ensures |Contents(s)| >= |Cells(s.blocks[s.frontBlock])| + Capacity(s)
  {
    FullParts(s);
    FullContents(s, AllCells(s.blocks));
  }

  lemma FullContents<T>(s: State<T>, parts: seq<seq<Cell<T>>>)
    requires Shape(s) && |s.blocks| > 1 && Span(s) == |s.blocks| - 1 && parts == AllCells(s.blocks)
    requires forall k :: 0 <= k < |parts| && k != s.frontBlock ==> |parts[k]| == s.size - 1
    ensures |Contents(s)| >= |parts[s.frontBlock]| + Capacity(s)
  {
    FullWalk(parts, s.frontBlock, s.size - 1);
    FullLength(s, |Walk(parts, s.frontBlock, |parts| - 1)|, |parts[s.frontBlock]|);
  }

  lemma FullLength<T>(s: State<T>, length: nat, first: nat)
    requires Shape(s) && |s.blocks| > 1 && Span(s) == |s.blocks| - 1
    requires length == |Walk(AllCells(s.blocks), s.frontBlock, |s.blocks| - 1)|
    requires length >= first + Room(|s.blocks| - 1, s.size - 1)
    ensures |Contents(s)| >= first + Capacity(s)
  {
    assert length == |Contents(s)|;
  }

  /** A producer about to be refused by a ring of several blocks: the elements not yet
      moved out are at least the capacity, as only the front block can be short. */
  lemma FullPending<T>(s: State<T>)
    requires Structure(s) && Fifo(s) && s.p.PCheckNext?
    requires |s.blocks| > 1 && s.blocks[s.tailBlock].next == s.frontBlock
    ensures |s.enqueued| - |s.dequeued| >= Capacity(s)
  {
    FullRing(s);
    CellsCount(s.blocks[s.frontBlock], s.size);
    if s.c.CStoreFront? {
      OrderNonEmpty(s.blocks[s.frontBlock], s.size);
    }
    PendingCount(s);
  }

  lemma PendingCount<T>(s: State<T>)
    requires Shape(s) && Fifo(s)
    ensures |Contents(s)| == |s.enqueued| - |s.dequeued| + if s.c.CStoreFront? then 1 else 0
  {
  }

  /** Once the consumer saw the front block empty, a tail block that is still
      the front block means the queue was empty at that moment. */
  lemma ConsumerStaysTruthful<T>(s: State<T>)
    requires Structure(s) && ConsumerTruthful(s)
    ensures ConsumerTruthful(Mark(s, ConsumerStepOf(s)))
  {
    var r := ConsumerStepOf(s);
    ConsumerRefusal(s);
    if r.c.CCheckTailBlock? && r.frontBlock == r.tailBlock && r.c != s.c {
      EmptyFront(r);
    }
    ConsumerMarkTruthful(s, r);
  }

  /** How a consumer comes to be about to be refused, and to be refused. */
  lemma ConsumerRefusal<T>(s: State<T>)
    requires Shape(s)
    ensures var r := ConsumerStepOf(s);
            && r.lowWater == s.lowWater && r.tailBlock == s.tailBlock
            && (r.c.CCheckTailBlock? && r.c != s.c ==>
                  s.c.CReloadTail? && r.blocks[r.frontBlock].front == s.blocks[s.frontBlock].front
                  && r.blocks[r.frontBlock].tail == s.blocks[s.frontBlock].tail == s.c.blockFront)
            && (r.c.CCheckTailBlock? && r.c == s.c ==> r == s)
            && (r.c.CDone? && !r.c.ok ==>
                  (r == s && !ConsumerActive(s.c)) || (s.c.CCheckTailBlock? && s.frontBlock == s.tailBlock))
            && (!ConsumerActive(s.c) ==> r == s)
  {
  }

  lemma ConsumerMarkTruthful<T>(s: State<T>, m: State<T>)
    requires Shape(s) && Shape(m) && ConsumerTruthful(s) && m.lowWater == s.lowWater
    requires !ConsumerActive(s.c) ==> m == s
    requires m.c.CCheckTailBlock? && m.frontBlock == m.tailBlock ==> (m == s || Contents(m) == [])
    requires m.c.CDone? && !m.c.ok ==> m == s || (s.c.CCheckTailBlock? && s.frontBlock == s.tailBlock)
    ensures ConsumerTruthful(Mark(s, m))
  {
  }

  lemma ConsumerSide<T>(s: State<T>)
    requires Shape(s)
    ensures var m := ConsumerStepOf(s);
            m.p == s.p && m.highWater == s.highWater && m.size == s.size && |m.blocks| == |s.blocks|
  {
  }

  lemma ConsumerLeavesProducerTruthful<T>(s: State<T>, m: State<T>)
    requires Shape(s) && Shape(m) && ProducerTruthful(s)
    requires m.p == s.p && m.highWater == s.highWater && m.size == s.size && |m.blocks| == |s.blocks|
    ensures ProducerTruthful(Mark(s, m))
  {
    CapacityFixed(s, m);
  }

  lemma ProducerLeavesConsumerTruthful<T>(s: State<T>)
    requires Structure(s) && ConsumerTruthful(s)
    ensures ConsumerTruthful(Mark(s, ProducerStepOf(s)))
  {
    ProducerHistories(s);
    ProducerSide(s);
    ProducerMarkTruthful(s, ProducerStepOf(s));
  }

  /** The producer moves to another block than the front block. */
  lemma ProducerSide<T>(s: State<T>)
    requires Structure(s)
    ensures var r := ProducerStepOf(s);
            && r.frontBlock == s.frontBlock && r.lowWater == s.lowWater
            && (r.tailBlock == s.tailBlock || r.tailBlock != r.frontBlock)
  {
  }

  lemma ProducerMarkTruthful<T>(s: State<T>, m: State<T>)
    requires Shape(s) && Shape(m) && ConsumerTruthful(s) && m.c == s.c && m.lowWater == s.lowWater
    requires m.frontBlock == s.frontBlock && (m.tailBlock == s.tailBlock || m.tailBlock != m.frontBlock)
    ensures ConsumerTruthful(Mark(s, m))
  {
  }

  lemma RefusalIsFull<T>(s: State<T>)
    requires Structure(s) && Water(s) && ProducerTruthful(s) && s.p.PCheckNext? &&
             s.blocks[s.tailBlock].next == s.frontBlock
    ensures s.highWater >= Capacity(s)
  {
    if |s.blocks| > 1 {
      FullRing(s);
    }
  }

  lemma RecheckIsFull<T>(s: State<T>)
    requires Structure(s) && s.p.PRecheckFront? && |s.blocks| == 1 && ProducerStepOf(s).p.PCheckNext?
    ensures |Contents(ProducerStepOf(s))| == Capacity(s)
  {
    FullSingle(ProducerStepOf(s));
  }

  /** How a producer comes to be about to be refused, and to be refused. */
  lemma ProducerRefusal<T>(s: State<T>)
    requires Shape(s)
    ensures var m := ProducerStepOf(s);
            && m.highWater == s.highWater && m.size == s.size && |m.blocks| == |s.blocks|
            && (ProducerActive(s.p) || m == s)
            && (m.p.PCheckNext? && m.p != s.p ==> s.p.PRecheckFront?)
            && (m.p.PDone? && !m.p.ok && m.p != s.p ==> s.p.PCheckNext? && s.blocks[s.tailBlock].next == s.frontBlock)
  {
  }

  lemma ProducerStaysTruthful<T>(s: State<T>)
    requires Structure(s) && Water(s) && ProducerTruthful(s)
    ensures ProducerTruthful(Mark(s, ProducerStepOf(s)))
  {
    var m := ProducerStepOf(s);
    ProducerRefusal(s);
    if s.p.PCheckNext? && m.p.PDone? {
      RefusalIsFull(s);
    } else if s.p.PRecheckFront? && |s.blocks| == 1 && m.p.PCheckNext? {
      RecheckIsFull(s);
    }
    MarkTruthful(s, m);
  }

  lemma MarkTruthful<T>(s: State<T>, m: State<T>)
    requires Shape(s) && Shape(m) && m.size == s.size && |m.blocks| == |s.blocks|
    requires ProducerActive(s.p) || m.p == s.p
    requires ProducerTruthful(s) && m.highWater == s.highWater
    requires m.p.PCheckNext? && |m.blocks| == 1 && m.p != s.p ==> |Contents(m)| >= Capacity(s)
    requires m.p.PDone? && !m.p.ok && m.p != s.p ==> s.highWater >= Capacity(s)
    ensures ProducerTruthful(Mark(s, m))
  {
    CapacityFixed(s, m);
  }

  lemma CapacityFixed<T>(s: State<T>, r: State<T>)
    requires Shape(s) && Shape(r) && |r.blocks| == |s.blocks| && r.size == s.size
    ensures Capacity(r) == Capacity(s)
  {
  }

  // ------------------------------------------------------------------- theorems

  /** The water marks are invisible to the rest of the invariant. */
  lemma Marked<T>(s: State<T>, m: State<T>)
    requires Structure(m) && Fifo(m)
    ensures Structure(Mark(s, m)) && Fifo(Mark(s, m)) && Water(Mark(s, m))
  {
  }

  lemma MarkedInv<T>(s: State<T>, m: State<T>)
    requires Structure(m) && Fifo(m) && Honest(Mark(s, m))
    ensures Inv(Mark(s, m))
  {
    Marked(s, m);
  }

  lemma ProducerStepKeepsInv<T>(s: State<T>)
    requires Inv(s)
    ensures Inv(Next(s, ProducerStep))
  {
    ProducerKeepsStructure(s);
    ProducerKeepsFifo(s);
    ProducerLeavesConsumerTruthful(s);
    ProducerStaysTruthful(s);
    MarkedInv(s, ProducerStepOf(s));
  }

  lemma ConsumerStepKeepsInv<T>(s: State<T>)
    requires Inv(s)
    ensures Inv(Next(s, ConsumerStep))
  {
    ConsumerKeepsStructure(s);
    ConsumerKeepsFifo(s);
    ConsumerStaysTruthful(s);
    ConsumerSide(s);
    ConsumerLeavesProducerTruthful(s, ConsumerStepOf(s));
    MarkedInv(s, ConsumerStepOf(s));
  }

  lemma CallKeepsInv<T>(s: State<T>, ev: Event<T>)
    requires Inv(s) && (ev.ProducerCall? || ev.ConsumerCall?)
    ensures Inv(Next(s, ev))
  {
    CallMoves(s, ev);
    CalledInv(s, Move(s, ev));
  }

  lemma CallMoves<T>(s: State<T>, ev: Event<T>)
    requires Shape(s) && (ev.ProducerCall? || ev.ConsumerCall?)
    ensures Called(s, Move(s, ev)) && Next(s, ev) == Mark(s, Move(s, ev))
  {
  }

  lemma CalledInv<T>(s: State<T>, m: State<T>)
    requires Inv(s) && Shape(m) && Called(s, m)
    ensures Inv(Mark(s, m))
  {
    CalledStructure(s, m);
    CalledFifo(s, m);
    CallKeepsTruthful(s, m);
    MarkedInv(s, m);
  }

  /** From `s` to `r`, idle threads may have begun a call. */
  ghost predicate Called<T>(s: State<T>, r: State<T>) {
    && r == s.(p := r.p, c := r.c) && (r.p == s.p || (r.p.PBegin? && !ProducerActive(s.p)))
    && (r.c == s.c || (r.c.CBegin? && !ConsumerActive(s.c)))
  }

  lemma CalledStructure<T>(s: State<T>, r: State<T>)
    requires Structure(s) && Shape(r) && Called(s, r)
    ensures Structure(r)
  {
  }

  lemma CalledFifo<T>(s: State<T>, r: State<T>)
    requires Shape(s) && Shape(r) && Fifo(s) && Called(s, r)
    ensures Fifo(r)
  {
  }

  lemma CallKeepsTruthful<T>(s: State<T>, m: State<T>)
    requires Shape(s) && Shape(m) && Honest(s)
    requires Called(s, m)
    ensures Honest(Mark(s, m))
  {
    CapacityFixed(s, m);
  }

  /** Every event keeps the invariant. */
  lemma NextKeepsInv<T>(s: State<T>, ev: Event<T>)
    requires Inv(s)
    ensures Inv(Next(s, ev))
  {
    match ev
    case ProducerCall(_) => CallKeepsInv(s, ev);
    case ConsumerCall => CallKeepsInv(s, ev);
    case ProducerStep => ProducerStepKeepsInv(s);
    case ConsumerStep => ConsumerStepKeepsInv(s);
  }

  /** What a start state satisfies and every event keeps holds throughout a run. */
  lemma {:induction false} RunInduction<T>(run: seq<State<T>>, evs: seq<Event<T>>, holds: State<T> -> bool, k: nat)
    requires IsRun(run, evs) && k < |run| && holds(run[0])
    requires forall s, ev :: Shape(s) && holds(s) ==> holds(Next(s, ev))
    ensures holds(run[k])
  {
    if k != 0 {
      RunInduction(run, evs, holds, k - 1);
      assert holds(Next(run[k - 1], evs[k - 1]));
    }
  }

  /** Every interleaving of any number of calls keeps the invariant. */
  lemma RunKeepsInv<T>(run: seq<State<T>>, evs: seq<Event<T>>, k: nat)
    requires IsRun(run, evs) && Inv(run[0]) && k < |run|
    ensures Inv(run[k])
  {
    forall s: State<T>, ev: Event<T> | Shape(s) && Inv(s)
      ensures Inv(Next(s, ev))
    {
      NextKeepsInv(s, ev);
    }
    RunInduction(run, evs, (s: State<T>) => Inv(s), k);
  }
}
