/** The lock-free single-producer single-consumer queue, one memory access at a
    time. The producer runs `inner_enqueue` (without allocation), the consumer
    `try_dequeue`; an event lets one of them make its next access, and a run is
    any sequence of events, so runs are exactly the sequentially consistent
    interleavings.

    A thread's own variables need no step of their own: the producer alone
    stores `tailBlock`, `tail` and `localFront`, the consumer alone stores
    `frontBlock`, `front` and `localTail`. Each step below therefore makes at
    most one access to a variable the other thread stores, or one store. */
module Spsc {
  import opened Bits
  import opened Common

  datatype Block<T> = Block(
    front: nat,       // elements are read from here
    localTail: nat,   // the consumer's stale copy of tail
    tail: nat,        // elements are written here
    localFront: nat,  // the producer's stale copy of front
    next: nat,
    data: seq<Cell<T>>)

  datatype ProducerPc<T> =
    | PIdle
    | PDone(ok: bool)
    | PBegin(e: T)                                    // read tailBlock, localFront, tail
    | PRecheckFront(e: T, blockTail: nat, nextBlockTail: nat)  // localFront = front
    | PFill(e: T, blockTail: nat, nextBlockTail: nat) // construct in the tail block
    | PStoreTail(e: T, blockTail: nat, nextBlockTail: nat)
    | PCheckNext(e: T)                                // next != frontBlock ?
    | PEnterNext(e: T)                                // next->localFront = next->front
    | PFillNext(e: T, nextBlockFront: nat, nextBlockTail: nat)
    | PStoreNextTail(e: T, nextBlockTail: nat)
    | PSwing(e: T)                                    // tailBlock = next

  datatype ConsumerPc<T> =
    | CIdle
    | CDone(ok: bool, result: Cell<T>)
    | CBegin                                          // read frontBlock, localTail, front
    | CReloadTail(blockFront: nat)                    // localTail = tail
    | CCheckTailBlock                                 // frontBlock != tailBlock ?
    | CReloadTailAgain                                // localTail = tail, once more
    | CLoadNext                                       // next->localTail = next->tail
    | CAdvance(nextBlockFront: nat, nextBlockTail: nat)  // frontBlock = next
    | CTake(blockFront: nat)                          // move the element out
    | CStoreFront(blockFront: nat, result: Cell<T>)

  /** The last four fields are history variables: no step reads them. `lowWater`
      is the least number of elements held at any moment of the consumer's
      current call, `highWater` the greatest during the producer's. */
  datatype State<T> = State(
    size: nat,
    blocks: seq<Block<T>>,
    frontBlock: nat,
    tailBlock: nat,
    p: ProducerPc<T>,
    c: ConsumerPc<T>,
    enqueued: seq<T>,
    dequeued: seq<T>,
    lowWater: nat,
    highWater: nat)

  datatype Event<T> = ProducerCall(e: T) | ProducerStep | ConsumerCall | ConsumerStep

  // ------------------------------------------------------------------- shape

  predicate BlockShape<T>(b: Block<T>, size: nat) {
    b.front < size && b.localTail < size && b.tail < size && b.localFront < size && |b.data| == size
  }

  predicate PcShape<T>(s: State<T>) {
    && (match s.p
        case PRecheckFront(_, t, nt) => t < s.size && nt < s.size
        case PFill(_, t, nt) => t < s.size && nt < s.size
        case PStoreTail(_, t, nt) => t < s.size && nt < s.size
        case PFillNext(_, f, t) => f < s.size && t < s.size
        case PStoreNextTail(_, t) => t < s.size
        case _ => true)
    && (match s.c
        case CReloadTail(f) => f < s.size
        case CAdvance(f, t) => f < s.size && t < s.size
        case CTake(f) => f < s.size
        case CStoreFront(f, _) => f < s.size
        case _ => true)
  }

  /** A ring of `n` blocks of `size` slots; one slot a block stays unused. */
  predicate RingShape(n: nat, size: nat) {
    n >= 1 && size >= 1 && (n > 1 ==> size >= 2)
  }

  predicate Shape<T>(s: State<T>) {
    && RingShape(|s.blocks|, s.size)
    && s.frontBlock < |s.blocks| && s.tailBlock < |s.blocks|
    && (forall b :: 0 <= b < |s.blocks| ==>
          BlockShape(s.blocks[b], s.size) && s.blocks[b].next == At(b, 1, |s.blocks|))
    && PcShape(s)
  }

  // ------------------------------------------------------------------- steps

  function ProducerStepOf<T>(s: State<T>): (r: State<T>)
    requires Shape(s)
    ensures Shape(r)
  {
    var tb := s.tailBlock;
    var b := s.blocks[tb];
    match s.p
    case PIdle => s
    case PDone(_) => s
    case PBegin(e) =>
      var nt := NextIndex(b.tail, s.size);
      s.(p := if nt != b.localFront then PFill(e, b.tail, nt) else PRecheckFront(e, b.tail, nt))
    case PRecheckFront(e, t, nt) =>
      s.(blocks := s.blocks[tb := b.(localFront := b.front)],
         p := if nt != b.front then PFill(e, t, nt) else PCheckNext(e))
    case PFill(e, t, nt) =>
      s.(blocks := s.blocks[tb := b.(data := b.data[t := Live(e)])], p := PStoreTail(e, t, nt))
    case PStoreTail(e, t, nt) =>
      s.(blocks := s.blocks[tb := b.(tail := nt)], p := PDone(true), enqueued := s.enqueued + [e])
    case PCheckNext(e) =>
      s.(p := if b.next != s.frontBlock then PEnterNext(e) else PDone(false))
    case _ => ProducerStepInNext(s)
  }

  /** The steps of `inner_enqueue` once it has found the next block free. */
  function ProducerStepInNext<T>(s: State<T>): (r: State<T>)
    requires Shape(s)
    ensures Shape(r)
  {
    var b := s.blocks[s.tailBlock];
    match s.p
    case PEnterNext(e) =>
      var nb := s.blocks[b.next];
      s.(blocks := s.blocks[b.next := nb.(localFront := nb.front)], p := PFillNext(e, nb.front, nb.tail))
    case PFillNext(e, f, t) =>
      var nb := s.blocks[b.next];
      s.(blocks := s.blocks[b.next := nb.(localFront := f, data := nb.data[t := Live(e)])], p := PStoreNextTail(e, t))
    case PStoreNextTail(e, t) =>
      var nb := s.blocks[b.next];
      s.(blocks := s.blocks[b.next := nb.(tail := NextIndex(t, s.size))], p := PSwing(e))
    case PSwing(e) =>
      s.(tailBlock := b.next, p := PDone(true), enqueued := s.enqueued + [e])
    case _ => s
  }

  function ConsumerStepOf<T>(s: State<T>): (r: State<T>)
    requires Shape(s)
    ensures Shape(r)
  {
    var fb := s.frontBlock;
    var b := s.blocks[fb];
    match s.c
    case CIdle => s
    case CDone(_, _) => s
    case CBegin =>
      s.(c := if b.front != b.localTail then CTake(b.front) else CReloadTail(b.front))
    case CReloadTail(f) =>
      s.(blocks := s.blocks[fb := b.(localTail := b.tail)],
         c := if f != b.tail then CTake(f) else CCheckTailBlock)
    case CCheckTailBlock =>
      s.(c := if fb != s.tailBlock then CReloadTailAgain else CDone(false, Raw))
    case CReloadTailAgain =>
      s.(blocks := s.blocks[fb := b.(localTail := b.tail)],
         c := if b.front != b.tail then CTake(b.front) else CLoadNext)
    case CLoadNext =>
      var nb := s.blocks[b.next];
      s.(blocks := s.blocks[b.next := nb.(localTail := nb.tail)], c := CAdvance(nb.front, nb.tail))
    case _ => ConsumerStepWithElement(s)
  }

  /** The steps of `try_dequeue` once it has found an element. */
  function ConsumerStepWithElement<T>(s: State<T>): (r: State<T>)
    requires Shape(s)
    ensures Shape(r)
  {
    var fb := s.frontBlock;
    var b := s.blocks[fb];
    match s.c
    case CAdvance(f, _) =>
      s.(frontBlock := b.next, c := CTake(f))
    case CTake(f) =>
      var cell := b.data[f];
      s.(blocks := s.blocks[fb := b.(data := b.data[f := Raw])],
         c := CStoreFront(f, cell),
         dequeued := if cell.Live? then s.dequeued + [cell.value] else s.dequeued)
    case CStoreFront(f, cell) =>
      s.(blocks := s.blocks[fb := b.(front := NextIndex(f, s.size))], c := CDone(true, cell))
    case _ => s
  }

  predicate ProducerActive<T>(p: ProducerPc<T>) { !p.PIdle? && !p.PDone? }

  predicate ConsumerActive<T>(c: ConsumerPc<T>) { !c.CIdle? && !c.CDone? }

  /** The machine without its water marks. A call by a thread that is already
      inside one is ignored: each thread makes one call at a time. */
  function Move<T>(s: State<T>, ev: Event<T>): (r: State<T>)
    requires Shape(s)
    ensures Shape(r)
  {
    match ev
    case ProducerCall(e) => if ProducerActive(s.p) then s else s.(p := PBegin(e))
    case ProducerStep => ProducerStepOf(s)
    case ConsumerCall => if ConsumerActive(s.c) then s else s.(c := CBegin)
    case ConsumerStep => ConsumerStepOf(s)
  }

  /** Moves the water marks on, from `s` to the state `r` after one event. */
  function Mark<T>(s: State<T>, r: State<T>): (q: State<T>)
    requires Shape(r)
    ensures Shape(q) && q == r.(lowWater := q.lowWater, highWater := q.highWater)
  {
    var held := |Contents(r)|;
    r.(lowWater := if !ConsumerActive(r.c) then r.lowWater
                   else if !ConsumerActive(s.c) then held
                   else Min(r.lowWater, held),
       highWater := if !ProducerActive(r.p) then r.highWater
                    else if !ProducerActive(s.p) then held
                    else Max(r.highWater, held))
  }

  function Next<T>(s: State<T>, ev: Event<T>): (r: State<T>)
    requires Shape(s)
    ensures Shape(r)
  {
    Mark(s, Move(s, ev))
  }

  function Min(a: nat, b: nat): nat { if a < b then a else b }

  function Max(a: nat, b: nat): nat { if a < b then b else a }

  /** A run: the states before and after each of the events, in order. */
  ghost predicate IsRun<T>(run: seq<State<T>>, evs: seq<Event<T>>) {
    && |run| == |evs| + 1
    && (forall k :: 0 <= k < |run| ==> Shape(run[k]))
    && (forall k :: 0 <= k < |evs| ==> run[k + 1] == Next(run[k], evs[k]))
  }

  // ---------------------------------------------------------------- contents

  /** The slots of a block from front up to tail, around the ring. */
  function Cells<T>(b: Block<T>): seq<Cell<T>>
    requires b.front <= |b.data| && b.tail <= |b.data|
  {
    if b.front <= b.tail then b.data[b.front..b.tail] else b.data[b.front..] + b.data[..b.tail]
  }

  function Count<T>(b: Block<T>, size: nat): nat
    requires BlockShape(b, size)
  {
    Off(b.tail, b.front, size)
  }

  function AllCells<T>(bs: seq<Block<T>>): (r: seq<seq<Cell<T>>>)
    requires forall b :: 0 <= b < |bs| ==> bs[b].front <= |bs[b].data| && bs[b].tail <= |bs[b].data|
    ensures |r| == |bs| && forall b :: 0 <= b < |bs| ==> r[b] == Cells(bs[b])
  {
    seq(|bs|, b requires 0 <= b < |bs| => Cells(bs[b]))
  }

  /** The `d + 1` parts of a ring starting at `b`, joined. */
  function Walk<X>(parts: seq<seq<X>>, b: nat, d: nat): seq<X>
    requires b < |parts| && d < |parts|
  {
    if d == 0 then parts[b] else Walk(parts, b, d - 1) + parts[At(b, d, |parts|)]
  }

  function Span<T>(s: State<T>): nat
    requires Shape(s)
  {
    Off(s.tailBlock, s.frontBlock, |s.blocks|)
  }

  /** What the queue holds: the blocks walked from frontBlock to tailBlock. The
      slot whose element has been moved out stays until `front` is stored. */
  function Contents<T>(s: State<T>): seq<Cell<T>>
    requires Shape(s)
  {
    Walk(AllCells(s.blocks), s.frontBlock, Span(s))
  }

  function AsCells<T>(q: seq<T>): (r: seq<Cell<T>>)
    ensures |r| == |q|
    ensures forall i :: 0 <= i < |q| ==> r[i] == Live(q[i])
  {
    seq(|q|, i requires 0 <= i < |q| => Live(q[i]))
  }
}
