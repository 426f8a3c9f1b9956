/** What the invariant of the lock-free queue says about its runs. */
module SpscTheorems {
  import opened Bits
  import opened Common
  import opened Spsc
  import opened SpscProof

  // ------------------------------------------------------------------ starting

  function EmptyBlock<T>(next: nat, size: nat): Block<T> {
    Block(0, 0, 0, 0, next, seq(size, _ => Raw))
  }

  /** `n` empty blocks of `size` slots in a ring, as the constructor leaves them. */
  function Start<T>(n: nat, size: nat): (s: State<T>)
    requires RingShape(n, size)
    ensures Shape(s)
  {
    State(size, seq(n, b requires 0 <= b < n => EmptyBlock(At(b, 1, n), size)), 0, 0, PIdle, CIdle, [], [], 0, 0)
  }

  lemma StartInv<T>(n: nat, size: nat)
    requires RingShape(n, size)
    ensures Inv(Start<T>(n, size)) && Slots(Start<T>(n, size))
  {
  }

  // ----------------------------------------------------- first in first out

  /** What the queue holds of elements not yet moved out. */
  function Pending<T>(s: State<T>): seq<Cell<T>>
    requires Shape(s)
  {
    if s.c.CStoreFront? && Contents(s) != [] then Contents(s)[1..] else Contents(s)
  }

  /** At every moment of every interleaving, the dequeued elements followed by
      what the queue holds are exactly the enqueued ones in order, and a call
      that reports success hands out the last element dequeued. */
  lemma FirstInFirstOut<T>(n: nat, size: nat, run: seq<State<T>>, evs: seq<Event<T>>, k: nat)
    requires RingShape(n, size) && IsRun(run, evs) && run[0] == Start(n, size) && k < |run|
    ensures AsCells(run[k].enqueued) == AsCells(run[k].dequeued) + Pending(run[k])
    ensures run[k].c.CDone? && run[k].c.ok ==>
              run[k].dequeued != [] && run[k].c.result == Live(run[k].dequeued[|run[k].dequeued| - 1])
  {
    StartInv<T>(n, size);
    RunKeepsInv(run, evs, k);
    FifoSplits(run[k]);
  }

  lemma FifoSplits<T>(s: State<T>)
    requires Shape(s) && Fifo(s)
    ensures AsCells(s.enqueued) == AsCells(s.dequeued) + Pending(s)
  {
    HistorySplits(s.enqueued, s.dequeued, if s.c.CStoreFront? then [Raw] else [], Contents(s));
  }

  lemma HistorySplits<T>(enqueued: seq<T>, dequeued: seq<T>, gone: seq<Cell<T>>, held: seq<Cell<T>>)
    requires dequeued <= enqueued && held == gone + AsCells(enqueued[|dequeued|..])
    ensures AsCells(enqueued) == AsCells(dequeued) + held[|gone|..]
  {
    assert held[|gone|..] == AsCells(enqueued[|dequeued|..]);
    assert AsCells(enqueued) == AsCells(dequeued) + AsCells(enqueued[|dequeued|..]);
  }

  /** The two asserts on the next block: it is empty when the producer enters
      it, and not empty when the consumer does. */
  lemma AssertsNeverFail<T>(n: nat, size: nat, run: seq<State<T>>, evs: seq<Event<T>>, k: nat)
    requires RingShape(n, size) && IsRun(run, evs) && run[0] == Start(n, size) && k < |run|
    ensures run[k].p.PFillNext? ==> run[k].p.nextBlockFront == run[k].p.nextBlockTail
    ensures run[k].c.CAdvance? ==> run[k].c.nextBlockFront != run[k].c.nextBlockTail
  {
    StartInv<T>(n, size);
    RunKeepsInv(run, evs, k);
  }

  // ------------------------------------------------------------------- refusals

  /** A running minimum, kept while `active` and restarted when it becomes so,
      is one of the values seen. */
  lemma {:induction false} MarkWasHeld(active: seq<bool>, held: seq<int>, mark: seq<int>, i: nat, j: nat)
    returns (m: nat)
    requires i < j < |active| == |held| == |mark|
    requires !active[i] && active[i + 1] && forall k :: i < k < j ==> active[k]
    requires forall k :: i <= k < j ==>
               mark[k + 1] == if !active[k + 1] then mark[k]
                              else if !active[k] || held[k + 1] < mark[k] then held[k + 1]
                              else mark[k]
    ensures i < m <= j && active[m] && held[m] == mark[j]
  {
    if j == i + 1 || (active[j] && mark[j] == held[j]) {
      m := j;
    } else {
      assert mark[j - 1 + 1] == mark[j - 1];
      m := MarkWasHeld(active, held, mark, i, j - 1);
    }
  }

  lemma MarksMove<T>(s: State<T>, ev: Event<T>)
    requires Shape(s)
    ensures var r := Next(s, ev);
            && (r.lowWater == if !ConsumerActive(r.c) then s.lowWater
                              else if !ConsumerActive(s.c) || |Contents(r)| < s.lowWater then |Contents(r)|
                              else s.lowWater)
            && (r.highWater == if !ProducerActive(r.p) then s.highWater
                               else if !ProducerActive(s.p) || s.highWater < |Contents(r)| then |Contents(r)|
                               else s.highWater)
            && r.size == s.size && |r.blocks| == |s.blocks|
  {
    MoveSizes(s, ev);
    MarkKeepsContents(s, Move(s, ev));
    MarkFollows(s, Move(s, ev));
  }

  lemma MoveSizes<T>(s: State<T>, ev: Event<T>)
    requires Shape(s)
    ensures var m := Move(s, ev);
            m.lowWater == s.lowWater && m.highWater == s.highWater && m.size == s.size && |m.blocks| == |s.blocks|
  {
  }

  lemma MarkFollows<T>(s: State<T>, m: State<T>)
    requires Shape(m) && m.lowWater == s.lowWater && m.highWater == s.highWater
    ensures var r := Mark(s, m);
            && (r.lowWater == if !ConsumerActive(m.c) then s.lowWater
                              else if !ConsumerActive(s.c) || |Contents(m)| < s.lowWater then |Contents(m)|
                              else s.lowWater)
            && (r.highWater == if !ProducerActive(m.p) then s.highWater
                               else if !ProducerActive(s.p) || s.highWater < |Contents(m)| then |Contents(m)|
                               else s.highWater)
  {
  }

  lemma MarkKeepsContents<T>(s: State<T>, m: State<T>)
    requires Shape(m)
    ensures Contents(Mark(s, m)) == Contents(m)
  {
  }

  /** The consumer's call began with event `i`, and ended or still runs after `j`. */
  ghost predicate DequeueCall<T>(run: seq<State<T>>, i: nat, j: nat) {
    && i < j < |run| && !ConsumerActive(run[i].c) && ConsumerActive(run[i + 1].c)
    && forall k :: i < k < j ==> ConsumerActive(run[k].c)
  }

  ghost predicate EnqueueCall<T>(run: seq<State<T>>, i: nat, j: nat) {
    && i < j < |run| && !ProducerActive(run[i].p) && ProducerActive(run[i + 1].p)
    && forall k :: i < k < j ==> ProducerActive(run[k].p)
  }

  /** A dequeue that began with event `i` and returned false at `j` met an empty
      queue at some moment of the call. */
  lemma RefusedDequeueMetEmpty<T>(n: nat, size: nat, run: seq<State<T>>, evs: seq<Event<T>>, i: nat, j: nat)
    requires RingShape(n, size) && IsRun(run, evs) && run[0] == Start(n, size)
    requires DequeueCall(run, i, j) && run[j].c.CDone? && !run[j].c.ok
    ensures exists m :: i < m < j && Contents(run[m]) == []
  {
    StartRunInv(n, size, run, evs, j);
    RefusedLow(run[j]);
    var m := RefusedMetLow(run, evs, i, j);
  }

  lemma RefusedMetLow<T>(run: seq<State<T>>, evs: seq<Event<T>>, i: nat, j: nat) returns (m: nat)
    requires IsRun(run, evs) && DequeueCall(run, i, j) && run[j].c.CDone? && run[j].lowWater == 0
    ensures i < m < j && Contents(run[m]) == []
  {
    m := LowWaterWasHeld(run, evs, i, j);
    SizeIsLength(run[m]);
  }

  /** In a run, a mark that starts at what is held and then follows it down was,
      at some moment of the call, exactly what was held. */
  lemma MarkInRun<T>(run: seq<State<T>>, evs: seq<Event<T>>, active: State<T> -> bool, held: State<T> -> int,
                     mark: State<T> -> int, i: nat, j: nat) returns (m: nat)
    requires IsRun(run, evs) && i < j < |run| && !active(run[i]) && active(run[i + 1])
    requires forall k :: i < k < j ==> active(run[k])
    requires forall s, ev :: Shape(s) ==> Follows(s, Next(s, ev), active, held, mark)
    ensures i < m <= j && active(run[m]) && held(run[m]) == mark(run[j])
  {
    forall k | i <= k < j
      ensures Follows(run[k], run[k + 1], active, held, mark)
    {
      assert run[k + 1] == Next(run[k], evs[k]);
    }
    m := MarkAlong(run, active, held, mark, i, j);
  }

  /** The same for any states and marks. */
  lemma MarkAlong<S>(run: seq<S>, active: S -> bool, held: S -> int, mark: S -> int, i: nat, j: nat) returns (m: nat)
    requires i < j < |run| && !active(run[i]) && active(run[i + 1]) && forall k :: i < k < j ==> active(run[k])
    requires forall k :: i <= k < j ==> Follows(run[k], run[k + 1], active, held, mark)
    ensures i < m <= j && active(run[m]) && held(run[m]) == mark(run[j])
  {
    m := MarkWasHeld(seq(|run|, k requires 0 <= k < |run| => active(run[k])),
                     seq(|run|, k requires 0 <= k < |run| => held(run[k])),
                     seq(|run|, k requires 0 <= k < |run| => mark(run[k])), i, j);
  }

  ghost predicate Follows<S>(s: S, r: S, active: S -> bool, held: S -> int, mark: S -> int) {
    mark(r) == if !active(r) then mark(s) else if !active(s) || held(r) < mark(s) then held(r) else mark(s)
  }

  function Size<T>(s: State<T>): int {
    if Shape(s) then |Contents(s)| else 0
  }

  lemma SizeIsLength<T>(s: State<T>)
    requires Shape(s)
    ensures Size(s) == |Contents(s)| && (Size(s) == 0 ==> Contents(s) == [])
  {
  }

  lemma LowWaterWasHeld<T>(run: seq<State<T>>, evs: seq<Event<T>>, i: nat, j: nat) returns (m: nat)
    requires IsRun(run, evs) && DequeueCall(run, i, j)
    ensures i < m <= j && ConsumerActive(run[m].c) && Size(run[m]) == run[j].lowWater
  {
    var active, held := (s: State<T>) => ConsumerActive(s.c), (s: State<T>) => Size(s);
    var mark := (s: State<T>) => s.lowWater as int;
    forall s: State<T>, ev: Event<T> | Shape(s)
      ensures Follows(s, Next(s, ev), active, held, mark)
    {
      MarksMove(s, ev);
    }
    m := MarkInRun(run, evs, active, held, mark, i, j);
  }

  lemma HighWaterWasHeld<T>(run: seq<State<T>>, evs: seq<Event<T>>, i: nat, j: nat) returns (m: nat)
    requires IsRun(run, evs) && EnqueueCall(run, i, j)
    ensures i < m <= j && ProducerActive(run[m].p) && Size(run[m]) == run[j].highWater
  {
    var active, held := (s: State<T>) => ProducerActive(s.p), (s: State<T>) => -Size(s);
    var mark := (s: State<T>) => -(s.highWater as int);
    forall s: State<T>, ev: Event<T> | Shape(s)
      ensures Follows(s, Next(s, ev), active, held, mark)
    {
      MarksMove(s, ev);
    }
    m := MarkInRun(run, evs, active, held, mark, i, j);
  }

  lemma {:induction false} RunSize<T>(run: seq<State<T>>, evs: seq<Event<T>>, k: nat)
    requires IsRun(run, evs) && k < |run|
    ensures run[k].size == run[0].size && |run[k].blocks| == |run[0].blocks|
  {
    if k != 0 {
      RunSize(run, evs, k - 1);
      MarksMove(run[k - 1], evs[k - 1]);
    }
  }

  lemma CapacityOf<T>(n: nat, size: nat, run: seq<State<T>>, evs: seq<Event<T>>, k: nat)
    requires RingShape(n, size) && IsRun(run, evs) && run[0] == Start(n, size) && k < |run|
    ensures Capacity(run[k]) == if n == 1 then size - 1 else (n - 1) * (size - 1)
  {
    RunSize(run, evs, k);
    RoomIsProduct(n - 1, size - 1);
  }

  /** An enqueue that began with event `i` and was refused at `j` met, at some
      moment of the call, a queue holding its full capacity. */
  lemma RefusedEnqueueMetFull<T>(n: nat, size: nat, run: seq<State<T>>, evs: seq<Event<T>>, i: nat, j: nat)
    requires RingShape(n, size) && IsRun(run, evs) && run[0] == Start(n, size)
    requires EnqueueCall(run, i, j) && run[j].p == PDone(false)
    ensures exists m :: i < m < j && |Contents(run[m])| >= if n == 1 then size - 1 else (n - 1) * (size - 1)
  {
    StartRunInv(n, size, run, evs, j);
    RefusedHigh(run[j]);
    var m := RefusedMetHigh(run, evs, i, j);
    CapacityOf(n, size, run, evs, j);
  }

  /** The step by which an enqueue is refused. */
  lemma RefusingStep<T>(run: seq<State<T>>, evs: seq<Event<T>>, i: nat, j: nat)
    requires IsRun(run, evs) && EnqueueCall(run, i, j) && run[j].p == PDone(false)
    ensures i + 1 < j && run[j - 1].p.PCheckNext?
    ensures run[j - 1].blocks[run[j - 1].tailBlock].next == run[j - 1].frontBlock
  {
    var s, ev := run[j - 1], evs[j - 1];
    assert run[j - 1 + 1] == Next(s, ev);
    assert Next(s, ev).p == Move(s, ev).p;
    RefusedBy(s, ev);
  }

  lemma RefusedBy<T>(s: State<T>, ev: Event<T>)
    requires Shape(s) && ProducerActive(s.p) && Move(s, ev).p == PDone(false)
    ensures s.p.PCheckNext? && s.blocks[s.tailBlock].next == s.frontBlock
  {
    ProducerRefusal(s);
    OthersStay(s);
  }

  /** With several blocks the bound is on elements not yet moved out: a refused
      enqueue met at least the capacity of them. */
  lemma RefusedEnqueueMetPending<T>(n: nat, size: nat, run: seq<State<T>>, evs: seq<Event<T>>, i: nat, j: nat)
    requires RingShape(n, size) && IsRun(run, evs) && run[0] == Start(n, size) && n > 1
    requires EnqueueCall(run, i, j) && run[j].p == PDone(false)
    ensures i < j - 1 && |run[j - 1].enqueued| - |run[j - 1].dequeued| >= (n - 1) * (size - 1)
  {
    RefusingStep(run, evs, i, j);
    StartRunPending(n, size, run, evs, j - 1);
  }

  lemma StartRunPending<T>(n: nat, size: nat, run: seq<State<T>>, evs: seq<Event<T>>, k: nat)
    requires RingShape(n, size) && IsRun(run, evs) && run[0] == Start(n, size) && n > 1 && k < |run|
    requires run[k].p.PCheckNext? && run[k].blocks[run[k].tailBlock].next == run[k].frontBlock
    ensures |run[k].enqueued| - |run[k].dequeued| >= (n - 1) * (size - 1)
  {
    StartRunInv(n, size, run, evs, k);
    StartRunBlocks(n, size, run, evs, k);
    CapacityOf(n, size, run, evs, k);
    PendingAt(run[k]);
  }

  lemma StartRunBlocks<T>(n: nat, size: nat, run: seq<State<T>>, evs: seq<Event<T>>, k: nat)
    requires RingShape(n, size) && IsRun(run, evs) && run[0] == Start(n, size) && k < |run|
    ensures |run[k].blocks| == n && run[k].size == size
  {
    RunSize(run, evs, k);
  }

  lemma PendingAt<T>(s: State<T>)
    requires Inv(s) && s.p.PCheckNext? && |s.blocks| > 1 && s.blocks[s.tailBlock].next == s.frontBlock
    ensures |s.enqueued| - |s.dequeued| >= Capacity(s)
  {
    FullPending(s);
  }

  lemma RefusedMetHigh<T>(run: seq<State<T>>, evs: seq<Event<T>>, i: nat, j: nat) returns (m: nat)
    requires IsRun(run, evs) && EnqueueCall(run, i, j) && run[j].p.PDone? && run[j].highWater >= Capacity(run[j])
    ensures i < m < j && |Contents(run[m])| >= Capacity(run[j])
  {
    m := HighWaterWasHeld(run, evs, i, j);
    SizeIsLength(run[m]);
  }

  lemma StartRunInv<T>(n: nat, size: nat, run: seq<State<T>>, evs: seq<Event<T>>, k: nat)
    requires RingShape(n, size) && IsRun(run, evs) && run[0] == Start(n, size) && k < |run|
    ensures Inv(run[k])
  {
    StartInv<T>(n, size);
    RunKeepsInv(run, evs, k);
  }

  lemma RefusedHigh<T>(s: State<T>)
    requires Inv(s) && s.p == PDone(false)
    ensures s.highWater >= Capacity(s)
  {
  }

  lemma RefusedLow<T>(s: State<T>)
    requires Inv(s) && s.c.CDone? && !s.c.ok
    ensures s.lowWater == 0
  {
  }

  // ------------------------------------------------------------------ wait-free

  function ProducerRank<T>(p: ProducerPc<T>): nat {
    match p
    case PIdle => 0
    case PDone(_) => 0
    case PBegin(_) => 7
    case PRecheckFront(_, _, _) => 6
    case PCheckNext(_) => 5
    case PEnterNext(_) => 4
    case PFillNext(_, _, _) => 3
    case PStoreNextTail(_, _) => 2
    case PSwing(_) => 1
    case PFill(_, _, _) => 2
    case PStoreTail(_, _, _) => 1
  }

  function ConsumerRank<T>(c: ConsumerPc<T>): nat {
    match c
    case CIdle => 0
    case CDone(_, _) => 0
    case CBegin => 8
    case CReloadTail(_) => 7
    case CCheckTailBlock => 6
    case CReloadTailAgain => 5
    case CLoadNext => 4
    case CAdvance(_, _) => 3
    case CTake(_) => 2
    case CStoreFront(_, _) => 1
  }

  lemma ProducerStepRanks<T>(s: State<T>)
    requires Shape(s) && ProducerActive(s.p)
    ensures ProducerRank(ProducerStepOf(s).p) < ProducerRank(s.p)
  {
  }

  lemma ConsumerStepRanks<T>(s: State<T>)
    requires Shape(s) && ConsumerActive(s.c)
    ensures ConsumerRank(ConsumerStepOf(s).c) < ConsumerRank(s.c)
  {
  }

  lemma OthersStay<T>(s: State<T>)
    requires Shape(s)
    ensures ConsumerStepOf(s).p == s.p && ProducerStepOf(s).c == s.c
  {
  }

  /** Each call ends after at most 7 (enqueue) or 8 (dequeue) steps of its own
      thread, whatever the other thread does. */
  lemma ProducerWaitFree<T>(s: State<T>, ev: Event<T>)
    requires Shape(s) && ProducerActive(s.p)
    ensures ProducerRank(s.p) <= 7
    ensures if ev.ProducerStep? then ProducerRank(Next(s, ev).p) < ProducerRank(s.p) else Next(s, ev).p == s.p
  {
    ProducerStepRanks(s);
    OthersStay(s);
    assert Next(s, ev).p == Move(s, ev).p;
  }

  lemma ConsumerWaitFree<T>(s: State<T>, ev: Event<T>)
    requires Shape(s) && ConsumerActive(s.c)
    ensures ConsumerRank(s.c) <= 8
    ensures if ev.ConsumerStep? then ConsumerRank(Next(s, ev).c) < ConsumerRank(s.c) else Next(s, ev).c == s.c
  {
    ConsumerStepRanks(s);
    OthersStay(s);
    assert Next(s, ev).c == Move(s, ev).c;
  }

  function Steps<T>(evs: seq<Event<T>>, own: Event<T> -> bool): nat {
    if evs == [] then 0 else Steps(evs[..|evs| - 1], own) + if own(evs[|evs| - 1]) then 1 else 0
  }

  /** A rank that a thread's own steps lower, and no others touch, bounds them. */
  lemma {:induction false} RankBoundsSteps<T>(run: seq<State<T>>, evs: seq<Event<T>>, rank: State<T> -> nat,
                                              own: Event<T> -> bool, i: nat, j: nat)
    requires |run| == |evs| + 1 && i < j < |run|
    requires forall k :: i < k < j ==> Lowers(run[k], evs[k], run[k + 1], rank, own)
    ensures Steps(evs[i + 1..j], own) + rank(run[j]) <= rank(run[i + 1])
  {
    if j == i + 1 {
      assert evs[i + 1..j] == [];
    } else {
      RankBoundsSteps(run, evs, rank, own, i, j - 1);
      assert Lowers(run[j - 1], evs[j - 1], run[j - 1 + 1], rank, own);
      assert evs[i + 1..j][..j - i - 2] == evs[i + 1..j - 1];
    }
  }

  ghost predicate Lowers<T>(s: State<T>, ev: Event<T>, r: State<T>, rank: State<T> -> nat, own: Event<T> -> bool) {
    if own(ev) then rank(r) < rank(s) else rank(r) == rank(s)
  }

  /** In a run, an enqueue that began with event `i` has by state `j`, returned or
      not, made at most seven steps, whatever the consumer did. */
  lemma EnqueueTakesSeven<T>(run: seq<State<T>>, evs: seq<Event<T>>, i: nat, j: nat)
    requires IsRun(run, evs) && EnqueueCall(run, i, j)
    ensures Steps(evs[i + 1..j], (ev: Event<T>) => ev.ProducerStep?) + ProducerRank(run[j].p) <= 7
  {
    var rank, own := (s: State<T>) => ProducerRank(s.p), (ev: Event<T>) => ev.ProducerStep?;
    forall k | i < k < j
      ensures Lowers(run[k], evs[k], run[k + 1], rank, own)
    {
      ProducerWaitFree(run[k], evs[k]);
    }
    RankBoundsSteps(run, evs, rank, own, i, j);
    ProducerWaitFree(run[i + 1], ProducerStep);
  }

  /** And a dequeue at most eight, whatever the producer did. */
  lemma DequeueTakesEight<T>(run: seq<State<T>>, evs: seq<Event<T>>, i: nat, j: nat)
    requires IsRun(run, evs) && DequeueCall(run, i, j)
    ensures Steps(evs[i + 1..j], (ev: Event<T>) => ev.ConsumerStep?) + ConsumerRank(run[j].c) <= 8
  {
    var rank, own := (s: State<T>) => ConsumerRank(s.c), (ev: Event<T>) => ev.ConsumerStep?;
    forall k | i < k < j
      ensures Lowers(run[k], evs[k], run[k + 1], rank, own)
    {
      ConsumerWaitFree(run[k], evs[k]);
    }
    RankBoundsSteps(run, evs, rank, own, i, j);
    ConsumerWaitFree(run[i + 1], ConsumerStep);
  }

  // ------------------------------------------------------------- slot discipline

  /** A live slot is published and not yet moved out, or is `extra`. */
  ghost predicate BlockSlots<T>(b: Block<T>, size: nat, extra: nat, gone: nat)
    requires BlockShape(b, size)
  {
    forall i :: 0 <= i < size && b.data[i].Live? ==>
      i == extra || (Off(i, b.front, size) < Count(b, size) && i != gone)
  }

  /** The slot of block `k` the producer has filled but not published. */
  function Extra<T>(s: State<T>, k: nat): nat
    requires Shape(s)
  {
    if s.p.PStoreTail? && k == s.tailBlock then s.p.blockTail
    else if s.p.PStoreNextTail? && k == s.blocks[s.tailBlock].next then s.p.nextBlockTail
    else s.size
  }

  /** The slot of block `k` the consumer has emptied but not given back. */
  function Gone<T>(s: State<T>, k: nat): nat
    requires Shape(s)
  {
    if s.c.CStoreFront? && k == s.frontBlock then s.c.blockFront else s.size
  }

  ghost predicate SlotsAt<T>(s: State<T>, k: nat)
    requires Shape(s) && k < |s.blocks|
  {
    BlockSlots(s.blocks[k], s.size, Extra(s, k), Gone(s, k))
  }

  ghost predicate Slots<T>(s: State<T>)
    requires Shape(s)
  {
    forall k :: 0 <= k < |s.blocks| ==> SlotsAt(s, k)
  }

  lemma StoreTailSlots<T>(s: State<T>, k: nat)
    requires Structure(s) && k < |s.blocks| && SlotsAt(s, k) && s.p.PStoreTail?
    ensures SlotsAt(ProducerStepOf(s), k)
  {
    OrderPush(s.blocks[s.tailBlock], s.size);
  }

  lemma StoreNextTailSlots<T>(s: State<T>, k: nat)
    requires Structure(s) && k < |s.blocks| && SlotsAt(s, k) && s.p.PStoreNextTail?
    ensures SlotsAt(ProducerStepOf(s), k)
  {
  }

  lemma SlotsFill<T>(b: Block<T>, size: nat, t: nat, e: T, gone: nat)
    requires BlockShape(b, size) && BlockSlots(b, size, size, gone) && t < size
    ensures BlockSlots(b.(data := b.data[t := Live(e)]), size, t, gone)
  {
  }

  lemma FillHereSlots<T>(s: State<T>, k: nat)
    requires Structure(s) && k < |s.blocks| && SlotsAt(s, k) && s.p.PFill?
    ensures SlotsAt(ProducerStepOf(s), k)
  {
    if k == s.tailBlock {
      SlotsFill(s.blocks[k], s.size, s.p.blockTail, s.p.e, Gone(s, k));
    }
  }

  lemma FillNextSlots<T>(s: State<T>, k: nat)
    requires Structure(s) && k < |s.blocks| && SlotsAt(s, k) && s.p.PFillNext?
    ensures SlotsAt(ProducerStepOf(s), k)
  {
    if k == s.blocks[s.tailBlock].next {
      SlotsFill(s.blocks[k], s.size, s.p.nextBlockTail, s.p.e, Gone(s, k));
    }
  }

  lemma FillSlots<T>(s: State<T>, k: nat)
    requires Structure(s) && k < |s.blocks| && SlotsAt(s, k) && (s.p.PFill? || s.p.PFillNext?)
    ensures SlotsAt(ProducerStepOf(s), k)
  {
    if s.p.PFill? {
      FillHereSlots(s, k);
    } else {
      FillNextSlots(s, k);
    }
  }

  lemma ProducerOtherSlots<T>(s: State<T>, k: nat)
    requires Shape(s) && k < |s.blocks| && SlotsAt(s, k)
    requires !s.p.PFill? && !s.p.PFillNext? && !s.p.PStoreTail? && !s.p.PStoreNextTail?
    ensures SlotsAt(ProducerStepOf(s), k)
  {
    var b, c := s.blocks[k], ProducerStepOf(s).blocks[k];
    assert b.front == c.front && b.tail == c.tail && b.data == c.data;
  }

  lemma StoreFrontSlots<T>(s: State<T>, k: nat)
    requires Structure(s) && k < |s.blocks| && SlotsAt(s, k) && s.c.CStoreFront?
    ensures SlotsAt(ConsumerStepOf(s), k)
  {
    var b := s.blocks[k];
    if k == s.frontBlock {
      OrderNonEmpty(b, s.size);
      SlotsPop(b, s.size, Extra(s, k));
    }
  }

  lemma SlotsPop<T>(b: Block<T>, size: nat, extra: nat)
    requires BlockShape(b, size) && BlockSlots(b, size, extra, b.front) && b.front != b.tail
    ensures BlockSlots(b.(front := NextIndex(b.front, size)), size, extra, size)
  {
  }

  lemma ConsumerOtherSlots<T>(s: State<T>, k: nat)
    requires Shape(s) && k < |s.blocks| && SlotsAt(s, k) && !s.c.CStoreFront?
    ensures SlotsAt(ConsumerStepOf(s), k)
  {
    var b, c := s.blocks[k], ConsumerStepOf(s).blocks[k];
    assert b.front == c.front && b.tail == c.tail;
  }

  lemma ProducerKeepsSlotsAt<T>(s: State<T>, k: nat)
    requires Structure(s) && k < |s.blocks| && SlotsAt(s, k)
    ensures |ProducerStepOf(s).blocks| == |s.blocks| && SlotsAt(ProducerStepOf(s), k)
  {
    if s.p.PStoreTail? {
      StoreTailSlots(s, k);
    } else if s.p.PStoreNextTail? {
      StoreNextTailSlots(s, k);
    } else if s.p.PFill? || s.p.PFillNext? {
      FillSlots(s, k);
    } else {
      ProducerOtherSlots(s, k);
    }
  }

  lemma ConsumerKeepsSlotsAt<T>(s: State<T>, k: nat)
    requires Structure(s) && k < |s.blocks| && SlotsAt(s, k)
    ensures |ConsumerStepOf(s).blocks| == |s.blocks| && SlotsAt(ConsumerStepOf(s), k)
  {
    if s.c.CStoreFront? {
      StoreFrontSlots(s, k);
    } else {
      ConsumerOtherSlots(s, k);
    }
  }

  lemma CallKeepsSlotsAt<T>(s: State<T>, m: State<T>, k: nat)
    requires Shape(s) && Shape(m) && Called(s, m) && k < |s.blocks| && SlotsAt(s, k)
    ensures SlotsAt(m, k)
  {
  }

  lemma MoveKeepsSlotsAt<T>(s: State<T>, ev: Event<T>, k: nat)
    requires Structure(s) && k < |s.blocks| && SlotsAt(s, k)
    ensures |Move(s, ev).blocks| == |s.blocks| && SlotsAt(Move(s, ev), k)
  {
    MoveSizes(s, ev);
    match ev
    case ProducerCall(_) => CallKeepsSlotsAt(s, Move(s, ev), k);
    case ConsumerCall => CallKeepsSlotsAt(s, Move(s, ev), k);
    case ProducerStep => ProducerKeepsSlotsAt(s, k);
    case ConsumerStep => ConsumerKeepsSlotsAt(s, k);
  }

  lemma MarkKeepsSlots<T>(s: State<T>, m: State<T>)
    requires Shape(m) && Slots(m)
    ensures Slots(Mark(s, m))
  {
    forall k | 0 <= k < |m.blocks|
      ensures SlotsAt(Mark(s, m), k)
    {
      assert SlotsAt(m, k);
    }
  }

  lemma NextKeepsSlots<T>(s: State<T>, ev: Event<T>)
    requires Inv(s) && Slots(s)
    ensures Slots(Next(s, ev))
  {
    var m := Move(s, ev);
    forall k | 0 <= k < |m.blocks|
      ensures SlotsAt(m, k)
    {
      MarksMove(s, ev);
      MoveKeepsSlotsAt(s, ev, k);
    }
    MarkKeepsSlots(s, m);
  }

  lemma RunKeepsSlots<T>(run: seq<State<T>>, evs: seq<Event<T>>, k: nat)
    requires IsRun(run, evs) && Inv(run[0]) && Slots(run[0]) && k < |run|
    ensures Inv(run[k]) && Slots(run[k])
  {
    forall s: State<T>, ev: Event<T> | Shape(s) && Inv(s) && Slots(s)
      ensures Inv(Next(s, ev)) && Slots(Next(s, ev))
    {
      NextKeepsInv(s, ev);
      NextKeepsSlots(s, ev);
    }
    RunInduction(run, evs, (s: State<T>) => Inv(s) && Slots(s), k);
  }

  /** No element is ever constructed over a live one, and the consumer never
      moves from raw memory. */
  lemma SlotDiscipline<T>(n: nat, size: nat, run: seq<State<T>>, evs: seq<Event<T>>, k: nat)
    requires RingShape(n, size) && IsRun(run, evs) && run[0] == Start(n, size) && k < |run|
    ensures var s := run[k];
            var b := s.blocks[s.tailBlock];
            && (s.p.PFill? ==> b.data[s.p.blockTail].Raw?)
            && (s.p.PFillNext? ==> s.blocks[b.next].data[s.p.nextBlockTail].Raw?)
            && (s.c.CTake? ==> s.blocks[s.frontBlock].data[s.c.blockFront].Live?)
  {
    StartInv<T>(n, size);
    RunKeepsSlots(run, evs, k);
    FilledSlotIsRaw(run[k]);
    if run[k].c.CTake? {
      TakeFirst(run[k]);
    }
  }

  lemma FilledSlotIsRaw<T>(s: State<T>)
    requires Inv(s) && Slots(s)
    ensures var b := s.blocks[s.tailBlock];
            && (s.p.PFill? ==> b.data[s.p.blockTail].Raw?)
            && (s.p.PFillNext? ==> s.blocks[b.next].data[s.p.nextBlockTail].Raw?)
  {
    assert SlotsAt(s, s.tailBlock);
    assert SlotsAt(s, s.blocks[s.tailBlock].next);
  }
}
