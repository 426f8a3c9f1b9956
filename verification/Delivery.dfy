/** From the protocol to the report: the client hands its results to the blocking
    queue, one memory access at a time, and the result thread takes them out and
    aggregates them. */
module Delivery {
  import opened Common
  import opened Aggregation
  import B = BlockingQueue
  import P = Protocol
  import ProtocolTheorems
  import Q = Spsc
  import R = RdmaPingTable
  import SpscProof

  /** `handed` counts the outcomes of the client that were handed to the queue, or
      started to be; `dropped` are the results the queue refused. `turned` says that
      the result thread has dealt with what its last wait returned. `batches` and
      `batch` are history: the messages of each report, and those since. */
  datatype State = State(
    net: P.State,
    handed: nat,
    dropped: seq<Message>,
    bq: B.State<Message>,
    turned: bool,
    agg: Aggregation.State,
    batches: seq<seq<Message>>,
    batch: seq<Message>)

  datatype Event =
    | Net(ev: P.Event)
    | HandIn
    | StepEnqueue
    | CallWait(timeout: int)
    | StepDequeue(expire: bool)
    | Iterate(now: nat)

  function KindOf(k: R.Kind): Kind {
    match k
    case SUCCESS => SUCCESS
    case WEIRD => WEIRD
    case FAILURE => FAILURE
  }

  function MessageOf(o: R.Outcome): seq<Message> {
    if o.Silent? then []
    else
      var r := o.result;
      [Message(r.pingid, r.dstip, r.timePingSend, r.client, r.network, r.server, KindOf(r.kind))]
  }

  /** The element of the enqueue under way, until it is published. */
  function Flying<T>(s: B.State<T>): seq<T> {
    if s.e.EInner? && Q.ProducerActive(s.q.p) then [s.q.p.e] else []
  }

  /** The producer hands in the next result when the call before has returned. */
  function HandedIn(s: State): (r: State)
    requires Q.Shape(s.bq.q)
    ensures Q.Shape(r.bq.q)
  {
    var outcomes := s.net.client.outcomes;
    if s.handed >= |outcomes| || s.bq.e.EInner? || s.bq.e.ESignal? then s
    else
      var m := MessageOf(outcomes[s.handed]);
      s.(handed := s.handed + 1, bq := if m == [] then s.bq else B.Next(s.bq, B.CallEnqueue(m[0])))
  }

  function Enqueued(s: State): (r: State)
    requires Q.Shape(s.bq.q)
    ensures Q.Shape(r.bq.q)
  {
    var q := B.Next(s.bq, B.StepEnqueue);
    s.(bq := q, dropped := if s.bq.e.EInner? && q.e == B.EDone(false) then s.dropped + Flying(s.bq) else s.dropped)
  }

  /** What the last wait returned. */
  function Returned<T>(s: B.State<T>): Option<T> {
    if s.d.DDone? && s.d.ok && s.d.result.Live? then Some(s.d.result.value) else None
  }

  function Iterated(s: State, now: nat, interval: nat): (r: State)
    ensures r.bq == s.bq
  {
    if s.turned || !s.bq.d.DDone? then s
    else
      var t := Turn(Returned(s.bq), now);
      var r := Aggregation.Step(s.agg, t, interval);
      var (bs, b) := Batched(s.agg, r, s.batches, s.batch, t);
      s.(turned := true, agg := r, batches := bs, batch := b)
  }

  function Next(s: State, ev: Event, interval: nat): (r: State)
    requires Q.Shape(s.bq.q)
    ensures Q.Shape(r.bq.q)
  {
    match ev
    case Net(e) => s.(net := P.Next(s.net, e))
    case HandIn => HandedIn(s)
    case StepEnqueue => Enqueued(s)
    case CallWait(t) =>
      if s.turned && (s.bq.d.DIdle? || s.bq.d.DDone?) then s.(bq := B.Next(s.bq, B.CallWaitDequeue(t)), turned := false)
      else s
    case StepDequeue(expire) => s.(bq := B.Next(s.bq, B.StepDequeue(expire)))
    case Iterate(now) => Iterated(s, now, interval)
  }

  function Run(s: State, evs: seq<Event>, interval: nat): (r: State)
    requires Q.Shape(s.bq.q)
    ensures Q.Shape(r.bq.q)
  {
    if evs == [] then s else Next(Run(s, evs[..|evs| - 1], interval), evs[|evs| - 1], interval)
  }

  // -------------------------------------------------------------------- counting

  function Messages(q: seq<R.Outcome>): seq<Message> {
    if q == [] then [] else Messages(q[..|q| - 1]) + MessageOf(q[|q| - 1])
  }

  /** How often ping `k` is among the messages. */
  function Times(q: seq<Message>, k: nat): nat {
    if q == [] then 0 else Times(q[..|q| - 1], k) + if q[|q| - 1].pingid == k then 1 else 0
  }

  lemma {:induction false} TimesAdd(p: seq<Message>, q: seq<Message>, k: nat)
    ensures Times(p + q, k) == Times(p, k) + Times(q, k)
  {
    if q == [] {
      assert p + q == p;
    } else {
      TimesAdd(p, q[..|q| - 1], k);
      assert (p + q)[..|p + q| - 1] == p + q[..|q| - 1];
    }
  }

  lemma MessagesOne(q: seq<R.Outcome>, k: nat)
    requires q != []
    ensures Times(Messages(q), k) == Times(Messages(q[..|q| - 1]), k) + Times(MessageOf(q[|q| - 1]), k)
  {
    TimesAdd(Messages(q[..|q| - 1]), MessageOf(q[|q| - 1]), k);
  }

  lemma {:induction false} MessagesAdd(p: seq<R.Outcome>, q: seq<R.Outcome>, k: nat)
    ensures Times(Messages(p + q), k) == Times(Messages(p), k) + Times(Messages(q), k)
  {
    if q == [] {
      assert p + q == p;
    } else {
      MessagesAdd(p, q[..|q| - 1], k);
      assert (p + q)[..|p + q| - 1] == p + q[..|q| - 1];
      MessagesOne(p + q, k);
      MessagesOne(q, k);
    }
  }

  lemma {:induction false} TimesOfOutcomes(q: seq<R.Outcome>, k: nat)
    requires forall o :: o in q ==> o.Reported?
    ensures Times(Messages(q), k) == |R.OutcomesFor(q, k)|
  {
    if q != [] {
      TimesOfOutcomes(q[..|q| - 1], k);
      var o := q[|q| - 1];
      assert o in q;
      MessagesOne(q, k);
      TimesOne(MessageOf(o)[0], k);
    }
  }

  lemma TimesOne(m: Message, k: nat)
    ensures Times([m], k) == if m.pingid == k then 1 else 0
  {
    assert [m][..0] == [];
  }

  // ------------------------------------------------------- what the queue's steps do

  lemma ElementStays<T>(s: Q.State<T>)
    requires Q.Shape(s) && Q.ProducerActive(s.p)
    ensures var r := Q.ProducerStepOf(s);
            && r.c == s.c && r.dequeued == s.dequeued
            && (Q.ProducerActive(r.p) ==> r.p.e == s.p.e && r.enqueued == s.enqueued)
            && (r.p == Q.PDone(true) ==> r.enqueued == s.enqueued + [s.p.e])
            && (r.p == Q.PDone(false) ==> r.enqueued == s.enqueued)
            && (Q.ProducerActive(r.p) || r.p.PDone?)
  {
  }

  lemma EnqueueMoves<T>(s: B.State<T>, r: B.State<T>)
    requires B.Inv(s) && r == B.Next(s, B.StepEnqueue)
    ensures r.d == s.d && r.q.c == s.q.c && r.q.dequeued == s.q.dequeued
    ensures !s.e.EInner? ==> r.q == s.q && !r.e.EInner?
    ensures s.e.EInner? ==>
              if r.e.EInner? then Flying(r) == Flying(s) && r.q.enqueued == s.q.enqueued
              else if r.e == B.EDone(false) then r.q.enqueued == s.q.enqueued
              else r.q.enqueued == s.q.enqueued + Flying(s)
  {
    if s.e.EInner? {
      ElementStays(s.q);
    }
  }

  lemma ConsumerMoves<T>(s: Q.State<T>)
    requires SpscProof.Inv(s) && Q.ConsumerActive(s.c)
    ensures var r := Q.ConsumerStepOf(s);
            && r.p == s.p && r.enqueued == s.enqueued && s.dequeued <= r.dequeued
            && |r.dequeued| == |s.dequeued| + (if r.c.CStoreFront? then 1 else 0)
            && (s.c.CStoreFront? ==> r.c.CDone? && r.c.ok) && (r.c.CDone? && r.c.ok ==> s.c.CStoreFront?)
            && (Q.ConsumerActive(r.c) || r.c.CDone?)
  {
    if s.c.CTake? {
      SpscProof.TakeFirst(s);
    }
  }

  lemma WaitMoves<T>(s: B.State<T>, expire: bool, r: B.State<T>)
    requires B.Inv(s) && s.d.DWait? && r == B.Wait(s, expire)
    ensures r.e == s.e && r.q.p == s.q.p && r.q.enqueued == s.q.enqueued && r.q.dequeued == s.q.dequeued
    ensures !r.d.DIdle? && !s.q.c.CStoreFront? && !r.q.c.CStoreFront? && (r.d.DDone? ==> !r.d.ok)
  {
  }

  lemma WaitDelivers<T>(s: B.State<T>, turned: bool, dealt: seq<T>, r: B.State<T>)
    requires Delivered(s, turned, dealt) && s.d.DWait? && !s.q.c.CStoreFront? && r.q.dequeued == s.q.dequeued
    requires !r.d.DIdle? && !r.q.c.CStoreFront? && (r.d.DDone? ==> !r.d.ok)
    ensures Delivered(r, turned, dealt)
  {
  }

  lemma InnerDelivers<T>(s: B.State<T>, turned: bool, dealt: seq<T>, r: B.State<T>)
    requires Delivered(s, turned, dealt) && s.d.DInner? && s.q.dequeued <= r.q.dequeued
    requires |r.q.dequeued| == |s.q.dequeued| + (if r.q.c.CStoreFront? then 1 else 0)
    requires if s.q.c.CStoreFront? then r.d.DDone? && r.d.ok && !r.q.c.CStoreFront? else r.d.DInner?
    ensures Delivered(r, turned, dealt)
  {
  }

  lemma InnerMoves<T>(s: B.State<T>, r: B.State<T>)
    requires B.Inv(s) && s.d.DInner? && r == B.InnerDequeue(s) && B.Inv(r)
    ensures r.e == s.e && r.q.p == s.q.p && r.q.enqueued == s.q.enqueued && s.q.dequeued <= r.q.dequeued
    ensures |r.q.dequeued| == |s.q.dequeued| + (if r.q.c.CStoreFront? then 1 else 0)
    ensures if s.q.c.CStoreFront? then r.d.DDone? && r.d.ok && !r.q.c.CStoreFront? else r.d.DInner?
  {
    ConsumerMoves(s.q);
  }

  lemma DequeueDelivers<T>(s: B.State<T>, expire: bool, turned: bool, dealt: seq<T>, r: B.State<T>)
    requires B.Inv(s) && Delivered(s, turned, dealt) && r == B.Next(s, B.StepDequeue(expire))
    ensures B.Inv(r) && Delivered(r, turned, dealt)
    ensures r.e == s.e && r.q.p == s.q.p && r.q.enqueued == s.q.enqueued
  {
    B.StepDequeueKeepsInv(s, expire);
    StepIs(s, expire, r);
    if s.d.DWait? {
      WaitStep(s, expire, turned, dealt, r);
    } else if s.d.DInner? {
      InnerStep(s, turned, dealt, r);
    }
  }

  lemma StepIs<T>(s: B.State<T>, expire: bool, r: B.State<T>)
    requires Q.Shape(s.q) && r == B.Next(s, B.StepDequeue(expire))
    ensures r == if s.d.DWait? then B.Wait(s, expire) else if s.d.DInner? then B.InnerDequeue(s) else s
  {
  }

  lemma WaitStep<T>(s: B.State<T>, expire: bool, turned: bool, dealt: seq<T>, r: B.State<T>)
    requires B.Inv(s) && Delivered(s, turned, dealt) && s.d.DWait? && r == B.Wait(s, expire)
    ensures Delivered(r, turned, dealt) && r.e == s.e && r.q.p == s.q.p && r.q.enqueued == s.q.enqueued
  {
    WaitMoves(s, expire, r);
    WaitDelivers(s, turned, dealt, r);
  }

  lemma InnerStep<T>(s: B.State<T>, turned: bool, dealt: seq<T>, r: B.State<T>)
    requires B.Inv(s) && B.Inv(r) && Delivered(s, turned, dealt) && s.d.DInner? && r == B.InnerDequeue(s)
    ensures Delivered(r, turned, dealt) && r.e == s.e && r.q.p == s.q.p && r.q.enqueued == s.q.enqueued
  {
    InnerMoves(s, r);
    InnerDelivers(s, turned, dealt, r);
  }

  // -------------------------------------------------------------------- invariant

  /** The last element dequeued has not reached the result thread yet. */
  predicate Delivering<T>(s: B.State<T>, turned: bool) {
    s.q.c.CStoreFront? || (s.d.DDone? && s.d.ok && !turned)
  }

  /** It is the only one, after what the thread has dealt with. */
  ghost predicate Delivered<T>(s: B.State<T>, turned: bool, dealt: seq<T>) {
    && (s.d.DIdle? ==> turned) && (s.d.DWait? || s.d.DInner? ==> !turned)
    && dealt <= s.q.dequeued && |s.q.dequeued| == |dealt| + if Delivering(s, turned) then 1 else 0
  }

  /** What was handed in for ping `k` is on its way in, was refused, or was enqueued. */
  ghost predicate Handed(s: State, k: nat) {
    && s.handed <= |s.net.client.outcomes|
    && Times(Messages(s.net.client.outcomes[..s.handed]), k) ==
       Times(Flying(s.bq), k) + Times(s.dropped, k) + Times(s.bq.q.enqueued, k)
  }

  ghost predicate Inv(s: State, k: nat) {
    && B.Inv(s.bq) && Handed(s, k) && Delivered(s.bq, s.turned, s.agg.dequeued)
    && Digested(s.agg, s.batches, s.batch)
  }

  lemma {:induction false} ArriveGrows(c: R.State, ev: R.Event)
    ensures c.outcomes <= R.Next(c, ev).outcomes
  {
  }

  lemma OutcomesGrow(s: P.State, ev: P.Event)
    ensures s.client.outcomes <= P.Next(s, ev).client.outcomes
  {
    match ev
    case ClientRecord(_, dstip, systemNow, wait1, wait2) =>
      ArriveGrows(s.client, R.Insert(P.NextId(s), P.NextId(s), dstip, systemNow, wait1, wait2));
    case ClientCompletion(id, time, _) => ArriveGrows(s.client, R.Arrive(id, R.Cqe(time)));
    case ClientReceive(msg, recv, cqe) =>
      ArriveGrows(s.client, R.Arrive(msg.id, if msg.Pong? then R.Pong(recv, cqe)
                                             else R.Ack(if msg.Ack? then msg.delay else 0)));
    case _ =>
  }

  lemma NetKeeps(s: State, ev: P.Event, k: nat, r: State)
    requires Inv(s, k) && r == s.(net := P.Next(s.net, ev))
    ensures Inv(r, k)
  {
    OutcomesGrow(s.net, ev);
    assert r.net.client.outcomes[..s.handed] == s.net.client.outcomes[..s.handed];
  }

  lemma CallMoves<T>(s: B.State<T>, x: T, r: B.State<T>)
    requires B.Inv(s) && !s.e.EInner? && !s.e.ESignal? && r == B.Next(s, B.CallEnqueue(x))
    ensures B.Inv(r) && r.d == s.d && r.q.c == s.q.c && r.q.dequeued == s.q.dequeued && r.q.enqueued == s.q.enqueued
    ensures Flying(s) == [] && Flying(r) == [x]
  {
    B.CallEnqueueKeepsInv(s, x);
  }

  lemma HandInKeeps(s: State, k: nat, r: State)
    requires Inv(s, k) && r == HandedIn(s)
    ensures Inv(r, k)
  {
    var outcomes, h := s.net.client.outcomes, s.handed;
    if h < |outcomes| && !s.bq.e.EInner? && !s.bq.e.ESignal? {
      var m := MessageOf(outcomes[h]);
      OneMoreHanded(outcomes, h, k);
      if m != [] {
        CallMoves(s.bq, m[0], r.bq);
      }
    }
  }

  lemma OneMoreHanded(outcomes: seq<R.Outcome>, h: nat, k: nat)
    requires h < |outcomes|
    ensures Times(Messages(outcomes[..h + 1]), k) ==
            Times(Messages(outcomes[..h]), k) + Times(MessageOf(outcomes[h]), k)
  {
    assert outcomes[..h + 1][..h] == outcomes[..h];
    MessagesOne(outcomes[..h + 1], k);
  }

  lemma EnqueueKeeps(s: State, k: nat, r: State)
    requires Inv(s, k) && r == Enqueued(s)
    ensures Inv(r, k)
  {
    B.StepEnqueueKeepsInv(s.bq);
    EnqueueMoves(s.bq, r.bq);
    TimesAdd(s.dropped, Flying(s.bq), k);
    TimesAdd(s.bq.q.enqueued, Flying(s.bq), k);
  }

  lemma CallWaitKeeps(s: State, timeout: int, k: nat, r: State)
    requires Inv(s, k) && s.turned && (s.bq.d.DIdle? || s.bq.d.DDone?)
    requires r == s.(bq := B.Next(s.bq, B.CallWaitDequeue(timeout)), turned := false)
    ensures Inv(r, k)
  {
    B.NextKeepsInv(s.bq, B.CallWaitDequeue(timeout));
  }

  lemma DequeueKeeps(s: State, expire: bool, k: nat, r: State)
    requires Inv(s, k) && r == s.(bq := B.Next(s.bq, B.StepDequeue(expire)))
    ensures Inv(r, k)
  {
    DequeueDelivers(s.bq, expire, s.turned, s.agg.dequeued, r.bq);
  }

  lemma StepTakes(s: Aggregation.State, t: Turn, interval: nat)
    ensures Aggregation.Step(s, t, interval).dequeued == s.dequeued + Got(t)
  {
  }

  /** A wait that returned hands on the last element dequeued, or none. */
  lemma ReturnedIsLast<T>(s: B.State<T>, dealt: seq<T>)
    requires B.Inv(s) && s.d.DDone? && Delivered(s, false, dealt)
    ensures s.q.dequeued == dealt + if Returned(s).Some? then [Returned(s).value] else []
  {
    B.Delivered(s);
  }

  lemma IterateKeeps(s: State, now: nat, interval: nat, k: nat, r: State)
    requires Inv(s, k) && r == Iterated(s, now, interval)
    ensures Inv(r, k)
  {
    if !s.turned && s.bq.d.DDone? {
      var t := Turn(Returned(s.bq), now);
      StepDigests(s.agg, t, interval, s.batches, s.batch, r.agg);
      StepTakes(s.agg, t, interval);
      ReturnedIsLast(s.bq, s.agg.dequeued);
    }
  }

  lemma NextKeepsInv(s: State, ev: Event, interval: nat, k: nat)
    requires Inv(s, k)
    ensures Inv(Next(s, ev, interval), k)
  {
    var r := Next(s, ev, interval);
    match ev
    case Net(e) => NetKeeps(s, e, k, r);
    case HandIn => HandInKeeps(s, k, r);
    case StepEnqueue => EnqueueKeeps(s, k, r);
    case CallWait(t) =>
      if s.turned && (s.bq.d.DIdle? || s.bq.d.DDone?) {
        CallWaitKeeps(s, t, k, r);
      }
    case StepDequeue(expire) => DequeueKeeps(s, expire, k, r);
    case Iterate(now) => IterateKeeps(s, now, interval, k, r);
  }

  lemma {:induction false} RunKeepsInv(s: State, evs: seq<Event>, interval: nat, k: nat)
    requires Inv(s, k)
    ensures Inv(Run(s, evs, interval), k)
  {
    if evs != [] {
      RunKeepsInv(s, evs[..|evs| - 1], interval, k);
      NextKeepsInv(Run(s, evs[..|evs| - 1], interval), evs[|evs| - 1], interval, k);
    }
  }

  // -------------------------------------------------------------------- theorems

  /** Nothing recorded, nothing handed in, a queue as constructed. */
  predicate Initial(s: State, ip: nat, threshold: int, clock: nat, servers: nat, n: nat, size: nat)
    requires Q.RingShape(n, size)
  {
    && s.net == P.Start(ip, threshold, clock, servers) && s.handed == 0 && s.dropped == []
    && B.Initial(s.bq, n, size) && s.turned
    && s.agg.table == map[] && s.agg.reports == [] && s.agg.dequeued == [] && s.batches == [] && s.batch == []
  }

  lemma StartQueue(s: State, n: nat, size: nat, k: nat)
    requires Q.RingShape(n, size) && B.Initial(s.bq, n, size) && s.handed == 0 && s.dropped == [] && s.turned
    requires s.agg.table == map[] && s.agg.reports == [] && s.agg.dequeued == [] && s.batches == [] && s.batch == []
    ensures Inv(s, k)
  {
    B.InitialInv(s.bq, n, size);
    QueueIsEmpty(s.bq, n, size);
    NothingYet(s, k);
  }

  lemma NothingYet(s: State, k: nat)
    requires B.Inv(s.bq) && s.bq.q.enqueued == [] && s.bq.q.dequeued == []
    requires s.bq.e.EIdle? && s.bq.d.DIdle? && s.bq.q.c.CIdle? && s.handed == 0 && s.dropped == [] && s.turned
    requires s.agg.table == map[] && s.agg.reports == [] && s.agg.dequeued == [] && s.batches == [] && s.batch == []
    ensures Inv(s, k)
  {
    NewDigests(s.agg.table);
    assert s.net.client.outcomes[..s.handed] == [];
  }

  lemma QueueIsEmpty<T>(s: B.State<T>, n: nat, size: nat)
    requires Q.RingShape(n, size) && B.Initial(s, n, size)
    ensures s.q.enqueued == [] && s.q.dequeued == [] && s.e.EIdle? && s.d.DIdle? && s.q.c.CIdle?
  {
  }

  /** The protocol's own events, in order. */
  function NetEvents(evs: seq<Event>): seq<P.Event> {
    if evs == [] then []
    else NetEvents(evs[..|evs| - 1]) + if evs[|evs| - 1].Net? then [evs[|evs| - 1].ev] else []
  }

  lemma {:induction false} NetIsRun(s: State, evs: seq<Event>, interval: nat)
    requires Q.Shape(s.bq.q)
    ensures Run(s, evs, interval).net == P.Run(s.net, NetEvents(evs))
  {
    if evs != [] {
      var front, ev := evs[..|evs| - 1], evs[|evs| - 1];
      NetIsRun(s, front, interval);
      OneNetEvent(s.net, NetEvents(front), ev);
      NetStep(Run(s, front, interval), ev, interval);
    }
  }

  lemma OneNetEvent(s: P.State, front: seq<P.Event>, ev: Event)
    ensures P.Run(s, front + if ev.Net? then [ev.ev] else []) ==
            if ev.Net? then P.Next(P.Run(s, front), ev.ev) else P.Run(s, front)
  {
    if ev.Net? {
      assert (front + [ev.ev])[..|front|] == front;
    } else {
      assert front + [] == front;
    }
  }

  lemma NetStep(s: State, ev: Event, interval: nat)
    requires Q.Shape(s.bq.q)
    ensures Next(s, ev, interval).net == if ev.Net? then P.Next(s.net, ev.ev) else s.net
  {
  }

  /** The places where the one result of ping `k` can be. */
  function Waiting(s: State, k: nat): nat { if k in s.net.client.table.entries then 1 else 0 }

  /** With the client: still to be handed in, or on its way into the queue. */
  function AtClient(s: State, k: nat): nat
    requires s.handed <= |s.net.client.outcomes|
  {
    Times(Messages(s.net.client.outcomes[s.handed..]), k) + Times(Flying(s.bq), k)
  }

  function InQueue(s: State, k: nat): nat
    requires |s.agg.dequeued| <= |s.bq.q.enqueued|
  {
    Times(s.bq.q.enqueued[|s.agg.dequeued|..], k)
  }

  /** Over every run of the client, the servers, the fabric, the queue and the result
      thread, in any interleaving: the result of each ping recorded is in exactly one
      place. The ping waits in the table, or its result is with the client, was
      refused by the queue, is in the queue, is among the messages since the last
      report, or among those of exactly one report. */
  lemma EachPingInOnePlace(s: State, ip: nat, threshold: int, clock: nat, servers: nat, n: nat, size: nat,
                           evs: seq<Event>, interval: nat, k: nat)
    requires ip > 0 && Q.RingShape(n, size) && Initial(s, ip, threshold, clock, servers, n, size)
    ensures var r := Run(s, evs, interval);
            && r.handed <= |r.net.client.outcomes| && |r.agg.dequeued| <= |r.bq.q.enqueued|
            && Waiting(r, k) + AtClient(r, k) + Times(r.dropped, k) + InQueue(r, k)
               + Times(r.batch, k) + Times(Flat(r.batches), k) == if k in r.net.ledger then 1 else 0
  {
    StartQueue(s, n, size, k);
    RunKeepsInv(s, evs, interval, k);
    NetIsRun(s, evs, interval);
    var r := Run(s, evs, interval);
    ProtocolTheorems.OneResultPerPing(ip, threshold, clock, servers, NetEvents(evs), k);
    forall o | o in r.net.client.outcomes
      ensures o.Reported?
    {
      ProtocolTheorems.NeverCorrupted(ip, threshold, clock, servers, NetEvents(evs), o);
    }
    Places(r, k);
  }

  lemma Places(r: State, k: nat)
    requires Inv(r, k) && forall o :: o in r.net.client.outcomes ==> o.Reported?
    ensures r.handed <= |r.net.client.outcomes| && |r.agg.dequeued| <= |r.bq.q.enqueued|
    ensures |R.OutcomesFor(r.net.client.outcomes, k)| ==
            AtClient(r, k) + Times(r.dropped, k) + InQueue(r, k) + Times(r.batch, k) + Times(Flat(r.batches), k)
  {
    SplitOutcomes(r.net.client.outcomes, r.handed, k);
    B.Delivered(r.bq);
    SplitQueue(r.bq.q.enqueued, r.agg.dequeued, k);
    TimesAdd(Flat(r.batches), r.batch, k);
  }

  lemma SplitOutcomes(outcomes: seq<R.Outcome>, h: nat, k: nat)
    requires h <= |outcomes| && forall o :: o in outcomes ==> o.Reported?
    ensures |R.OutcomesFor(outcomes, k)| == Times(Messages(outcomes[..h]), k) + Times(Messages(outcomes[h..]), k)
  {
    TimesOfOutcomes(outcomes, k);
    assert outcomes == outcomes[..h] + outcomes[h..];
    MessagesAdd(outcomes[..h], outcomes[h..], k);
  }

  lemma SplitQueue(q: seq<Message>, d: seq<Message>, k: nat)
    requires d <= q
    ensures Times(q, k) == Times(d, k) + Times(q[|d|..], k)
  {
    assert q == d + q[|d|..];
    TimesAdd(d, q[|d|..], k);
  }

  /** And each report has a line for each destination of the messages of its batch, with
      their counts, delays and times. */
  lemma ReportsAreBatches(s: State, ip: nat, threshold: int, clock: nat, servers: nat, n: nat, size: nat,
                          evs: seq<Event>, interval: nat)
    requires Q.RingShape(n, size) && Initial(s, ip, threshold, clock, servers, n, size)
    ensures var r := Run(s, evs, interval); AsBatched(r.agg, r.batches, r.batch)
  {
    StartQueue(s, n, size, 0);
    RunKeepsInv(s, evs, interval, 0);
    var r := Run(s, evs, interval);
    DigestedAsBatched(r.agg, r.batches, r.batch);
  }

  // ------------------------------------------------------------ what messages carry

  /** The message has the values of the result. */
  predicate Carries(m: Message, o: R.Outcome) {
    && o.Reported? && m.pingid == o.result.pingid && m.dstip == o.result.dstip
    && m.timePingSend == o.result.timePingSend
    && m.client == o.result.client && m.network == o.result.network && m.server == o.result.server
    && (m.kind == SUCCESS <==> o.result.kind == R.SUCCESS) && (m.kind == WEIRD <==> o.result.kind == R.WEIRD)
    && (m.kind == FAILURE <==> o.result.kind == R.FAILURE)
  }

  ghost predicate Carried(m: Message, outcomes: seq<R.Outcome>) {
    exists o :: o in outcomes && Carries(m, o)
  }

  ghost predicate AllCarried(q: seq<Message>, outcomes: seq<R.Outcome>) {
    forall m :: m in q ==> Carried(m, outcomes)
  }

  ghost predicate CarriedEverywhere(s: State) {
    var outcomes := s.net.client.outcomes;
    AllCarried(Flying(s.bq), outcomes) && AllCarried(s.dropped, outcomes) && AllCarried(s.bq.q.enqueued, outcomes)
  }

  lemma MoreOutcomes(q: seq<Message>, p: seq<R.Outcome>, r: seq<R.Outcome>)
    requires AllCarried(q, p) && p <= r
    ensures AllCarried(q, r)
  {
    forall m | m in q
      ensures Carried(m, r)
    {
      var o :| o in p && Carries(m, o);
      assert o in r;
    }
  }

  lemma MessageCarried(outcomes: seq<R.Outcome>, h: nat)
    requires h < |outcomes|
    ensures AllCarried(MessageOf(outcomes[h]), outcomes)
  {
    forall m | m in MessageOf(outcomes[h])
      ensures Carried(m, outcomes)
    {
      assert outcomes[h] in outcomes && Carries(m, outcomes[h]);
    }
  }

  /** The queue as before, but for one message fewer on its way. */
  lemma EnqueueCarries(s: State, r: State)
    requires B.Inv(s.bq) && CarriedEverywhere(s) && r == Enqueued(s)
    ensures CarriedEverywhere(r)
  {
    EnqueueMoves(s.bq, r.bq);
  }

  lemma HandInCarries(s: State, r: State)
    requires B.Inv(s.bq) && CarriedEverywhere(s) && r == HandedIn(s)
    ensures CarriedEverywhere(r)
  {
    var outcomes, h := s.net.client.outcomes, s.handed;
    if h < |outcomes| && !s.bq.e.EInner? && !s.bq.e.ESignal? && MessageOf(outcomes[h]) != [] {
      MessageCarried(outcomes, h);
      CallMoves(s.bq, MessageOf(outcomes[h])[0], r.bq);
    }
  }

  lemma CallWaitCarries(s: State, timeout: int, r: State)
    requires CarriedEverywhere(s) && Q.Shape(s.bq.q) && r.net == s.net && r.dropped == s.dropped
    requires r.bq == B.Next(s.bq, B.CallWaitDequeue(timeout))
    ensures CarriedEverywhere(r)
  {
  }

  lemma SameQueueCarries(s: State, r: State)
    requires CarriedEverywhere(s) && r.net == s.net && r.dropped == s.dropped
    requires r.bq.e == s.bq.e && r.bq.q.p == s.bq.q.p && r.bq.q.enqueued == s.bq.q.enqueued
    ensures CarriedEverywhere(r)
  {
  }

  lemma NetCarries(s: State, ev: P.Event, r: State)
    requires CarriedEverywhere(s) && r == s.(net := P.Next(s.net, ev))
    ensures CarriedEverywhere(r)
  {
    OutcomesGrow(s.net, ev);
    MoreOutcomes(Flying(s.bq), s.net.client.outcomes, r.net.client.outcomes);
    MoreOutcomes(s.dropped, s.net.client.outcomes, r.net.client.outcomes);
    MoreOutcomes(s.bq.q.enqueued, s.net.client.outcomes, r.net.client.outcomes);
  }

  lemma NextCarries(s: State, ev: Event, interval: nat, r: State)
    requires Inv(s, 0) && CarriedEverywhere(s) && r == Next(s, ev, interval)
    ensures CarriedEverywhere(r)
  {
    match ev
    case Net(e) => NetCarries(s, e, r);
    case HandIn => HandInCarries(s, r);
    case StepEnqueue => EnqueueCarries(s, r);
    case CallWait(t) =>
      if s.turned && (s.bq.d.DIdle? || s.bq.d.DDone?) {
        CallWaitCarries(s, t, r);
      }
    case StepDequeue(expire) =>
      DequeueDelivers(s.bq, expire, s.turned, s.agg.dequeued, r.bq);
      SameQueueCarries(s, r);
    case Iterate(_) => SameQueueCarries(s, r);
  }

  lemma {:induction false} RunCarries(s: State, evs: seq<Event>, interval: nat)
    requires Inv(s, 0) && CarriedEverywhere(s)
    ensures CarriedEverywhere(Run(s, evs, interval))
  {
    if evs != [] {
      var front := evs[..|evs| - 1];
      RunCarries(s, front, interval);
      RunKeepsInv(s, front, interval, 0);
      NextCarries(Run(s, front, interval), evs[|evs| - 1], interval, Run(s, evs, interval));
    }
  }

  lemma BatchesCarried(r: State)
    requires Inv(r, 0) && CarriedEverywhere(r)
    ensures AllCarried(Flat(r.batches), r.net.client.outcomes) && AllCarried(r.batch, r.net.client.outcomes)
  {
    B.Delivered(r.bq);
    assert forall m :: m in Flat(r.batches) + r.batch ==> m in r.bq.q.enqueued;
  }

  /** Wherever a message is, it carries the values of a result of the client: on its way
      in, refused, in the queue, or in the batch of a report. */
  lemma MessagesCarryResults(s: State, ip: nat, threshold: int, clock: nat, servers: nat, n: nat, size: nat,
                             evs: seq<Event>, interval: nat)
    requires Q.RingShape(n, size) && Initial(s, ip, threshold, clock, servers, n, size)
    ensures var r := Run(s, evs, interval);
            CarriedEverywhere(r) && AllCarried(Flat(r.batches) + r.batch, r.net.client.outcomes)
  {
    StartQueue(s, n, size, 0);
    QueueIsEmpty(s.bq, n, size);
    RunCarries(s, evs, interval);
    RunKeepsInv(s, evs, interval, 0);
    BatchesCarried(Run(s, evs, interval));
  }

  /** Handing in, with no call of the producer under way, puts the next result on its way
      into the queue; and a turn of the result thread leaves nothing dequeued undealt
      with. */
  lemma NothingHeldBack(s: State, now: nat, interval: nat, handed: State, turned: State)
    requires Inv(s, 0) && handed == Next(s, HandIn, interval) && turned == Next(s, Iterate(now), interval)
    ensures !s.bq.e.EInner? && !s.bq.e.ESignal? && s.handed < |s.net.client.outcomes| ==>
              var o := s.net.client.outcomes[s.handed];
              && handed.handed == s.handed + 1
              && (o.Reported? ==> |Flying(handed.bq)| == 1 && Carries(Flying(handed.bq)[0], o))
    ensures s.bq.d.DDone? ==> turned.turned && turned.agg.dequeued == s.bq.q.dequeued
  {
    if !s.bq.e.EInner? && !s.bq.e.ESignal? && s.handed < |s.net.client.outcomes| {
      HandInCarriesNext(s, handed);
    }
    if s.bq.d.DDone? {
      TurnTakesAll(s, now, interval, turned);
    }
  }

  lemma HandInCarriesNext(s: State, r: State)
    requires B.Inv(s.bq) && !s.bq.e.EInner? && !s.bq.e.ESignal? && s.handed < |s.net.client.outcomes|
    requires r == HandedIn(s)
    ensures r.handed == s.handed + 1
    ensures var o := s.net.client.outcomes[s.handed];
            o.Reported? ==> |Flying(r.bq)| == 1 && Carries(Flying(r.bq)[0], o)
  {
    var m := MessageOf(s.net.client.outcomes[s.handed]);
    if m != [] {
      CallMoves(s.bq, m[0], r.bq);
    }
  }

  lemma TurnTakesAll(s: State, now: nat, interval: nat, r: State)
    requires Inv(s, 0) && s.bq.d.DDone? && r == Iterated(s, now, interval)
    ensures r.turned && r.agg.dequeued == s.bq.q.dequeued
  {
    if !s.turned {
      StepTakes(s.agg, Turn(Returned(s.bq), now), interval);
      ReturnedIsLast(s.bq, s.agg.dequeued);
    } else {
      AllDealtWith(s.bq, s.agg.dequeued);
    }
  }

  lemma AllDealtWith<T>(s: B.State<T>, dealt: seq<T>)
    requires B.Inv(s) && s.d.DDone? && Delivered(s, true, dealt)
    ensures dealt == s.q.dequeued
  {
  }
}
