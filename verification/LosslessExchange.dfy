/** What becomes of a ping when nothing is lost: a server whose threads wait for work, a
    fabric that delivers, posts and completions that succeed, and every step made. */
module LosslessExchange {
  import opened TimeDelta
  import opened ExpiringTable
  import opened PingId
  import opened Protocol
  import opened ProtocolProof
  import opened ProtocolTheorems
  import opened PingResults
  import opened RoundTrips
  import R = RdmaPingTable

  /** The server of the next ping has nothing to do, and the client no ping to post. */
  predicate Ready(s: State, dst: nat) {
    && s.unsent == [] && s.uid < MODULO && dst < |s.servers|
    && s.servers[dst].queue == [] && s.servers[dst].sender == Waiting && s.servers[dst].completer == Polling
  }

  /** What the clocks show in an exchange: the waits of the client's insert, the completion
      of the PING, its arrival at the server, the two readings of its insert there, the
      completion of the PONG, its receipt at the client and the stamp of its receipt. */
  datatype Clocks = Clocks(wait1: nat, wait2: nat, pingCqe: nat, arrival: nat, now1: nat, now2: nat,
                           completion: nat, recv: nat, pongCqe: nat)

  function DelayOf(t: Clocks): nat { DeltaModulo(t.arrival, t.completion, MODULO) }

  /** The events of the exchange for ping `k`, in one order they can come in. */
  function Exchange(k: nat, dst: nat, dstip: nat, systemNow: nat, threshold: int, t: Clocks): (r: seq<Event>)
    ensures |r| == 13
  {
    [ClientRecord(dst, dstip, systemNow, t.wait1, t.wait2),
     ClientPost(true),
     ClientCompletion(k, t.pingCqe, true),
     ServerTake(dst, k, t.arrival, true),
     SenderDequeue(dst),
     SenderStore(dst, threshold, t.now1, t.now2),
     SenderPost(dst, true),
     SendCompletion(dst, k, t.completion, true),
     CompleterLook(dst),
     CompleterAck(dst, true),
     CompleterDrop(dst),
     ClientReceive(Pong(k), t.recv, t.pongCqe),
     ClientReceive(Ack(k, DelayOf(t)), t.recv, t.pongCqe)]
  }

  // ------------------------------------------------------------------- the client's share

  /** The table holds `k`, and `q` has arrived for it. */
  ghost predicate Holds(c: R.State, k: nat, q: seq<R.Arrival>) {
    R.Inv(c) && k in c.table.entries && c.table.entries[k].value.arrivals == q
  }

  /** An arrival that does not complete the ping. */
  lemma HoldsOneMore(c: R.State, k: nat, q: seq<R.Arrival>, a: R.Arrival, r: R.State)
    requires Holds(c, k, q) && |q| < 2 && r == R.Next(c, R.Arrive(k, a))
    ensures Holds(r, k, q + [a])
  {
    R.NextKeepsInv(c, R.Arrive(k, a));
    R.Arrived(k, c.table.entries[k], a);
    TwoIncompletes(q + [a]);
    R.OwnArrival(c, k, a);
  }

  lemma TwoIncompletes(q: seq<R.Arrival>)
    requires |q| <= 2
    ensures R.Seen(q) != R.RECV_ALL
  {
    if R.Seen(q) == R.RECV_ALL {
      R.CompleteTakesThree(q);
    }
  }

  /** The arrival that completes it. */
  lemma CompletesWith(c: R.State, k: nat, q: seq<R.Arrival>, a: R.Arrival, r: R.State) returns (o: R.Outcome)
    requires Holds(c, k, q) && R.OnceEach(q + [a]) && r == R.Next(c, R.Arrive(k, a))
    ensures R.OutcomesFor(r.outcomes, k) == R.OutcomesFor(c.outcomes, k) + [o]
    ensures o.Reported? && o.result.kind != R.FAILURE && o.arrivals == q + [a] && R.IdOf(o) == k
  {
    var i := R.Apply(c.table.entries[k].value, a);
    R.Arrived(k, c.table.entries[k], a);
    R.OnceEachSeen(q + [a]);
    R.OwnArrival(c, k, a);
    o := R.Completed(i);
  }

  /** After the record: the table holds the ping, and it is to be posted. */
  ghost predicate Recorded(s: State, k: nat, dst: nat) {
    && Holds(s.client, k, []) && s.unsent == [k] && LedgerOf(s, k).dst == dst && dst < |s.servers|
    && k !in s.servers[dst].table.entries && k != WRID_PONG_ACK
  }

  lemma InsertHeld(c: R.State, k: nat, dstip: nat, systemNow: nat, wait1: nat, wait2: nat, r: R.State)
    requires R.Inv(c) && k !in c.table.entries
    requires r == R.Next(c, R.Insert(k, k, dstip, systemNow, wait1, wait2))
    ensures Holds(r, k, [])
  {
    InsertAdds(c, k, dstip, systemNow, wait1, wait2, c.clock + wait1 + wait2, r);
  }

  /** Nothing of a ping that was never recorded is at a server. */
  lemma NotYetAtServer(s: State, k: nat, j: nat)
    requires Inv(s) && k !in s.ledger && j < |s.servers|
    ensures k !in s.servers[j].table.entries
  {
    assert PingOk(s, k);
    if k in s.servers[j].table.entries {
      HeldIsHere(s, j, k);
    }
  }

  lemma NextIdIsNew(s: State, k: nat)
    requires AllWell(s) && s.uid < MODULO && k == NextId(s)
    ensures k !in s.ledger && k !in s.client.table.entries && k != WRID_PONG_ACK
  {
    PingidIsSum(s.ip, s.uid);
    NewIdIsAbsent(s.client, k);
  }

  lemma RecordStep(s: State, k: nat, dst: nat, dstip: nat, systemNow: nat, wait1: nat, wait2: nat, r: State)
    requires AllWell(s) && Ready(s, dst) && k == NextId(s)
    requires r == Record(s, dst, dstip, systemNow, wait1, wait2)
    ensures Recorded(r, k, dst) && r.servers == s.servers
  {
    NextIdIsNew(s, k);
    NotYetAtServer(s, k, dst);
    InsertHeld(s.client, k, dstip, systemNow, wait1, wait2, r.client);
  }

  /** Its PING is in the fabric, and its send not completed. */
  lemma PostStep(s: State, k: nat, dst: nat, r: State)
    requires Recorded(s, k, dst) && r == Post(s, true)
    ensures r.client == s.client && r.servers == s.servers && Ping(k, dst) in r.fabric && k in r.sending
  {
  }

  lemma CompletionStep(s: State, k: nat, time: nat, r: State)
    requires Holds(s.client, k, []) && k in s.sending && r == Completed(s, k, time, true)
    ensures Holds(r.client, k, [R.Cqe(time)]) && r.fabric == s.fabric && r.servers == s.servers
  {
    HoldsOneMore(s.client, k, [], R.Cqe(time), r.client);
  }

  // ----------------------------------------------------------------- the server's share

  /** Server `dst` is at `sv`, and the client holds `k` still. */
  ghost predicate Stands(s: State, k: nat, dst: nat, sv: Server, q: seq<R.Arrival>) {
    Holds(s.client, k, q) && dst < |s.servers| && s.servers[dst] == sv
  }

  lemma TakeStep(s: State, k: nat, dst: nat, sv: Server, q: seq<R.Arrival>, time: nat, r: State)
    requires Stands(s, k, dst, sv, q) && Ping(k, dst) in s.fabric
    requires r == AtServer(s, dst, ServerTake(dst, k, time, true))
    ensures Stands(r, k, dst, sv.(queue := sv.queue + [Taken(k, time)]), q)
  {
  }

  lemma DequeueStep(s: State, k: nat, dst: nat, sv: Server, q: seq<R.Arrival>, m: Taken, r: State)
    requires Stands(s, k, dst, sv, q) && sv.queue == [m] && sv.sender == Waiting
    requires r == AtServer(s, dst, SenderDequeue(dst))
    ensures Stands(r, k, dst, sv.(queue := [], sender := Storing(m)), q)
  {
  }

  lemma StoreStep(s: State, k: nat, dst: nat, sv: Server, q: seq<R.Arrival>, m: Taken, threshold: int,
                  now1: nat, now2: nat, r: State)
    requires Stands(s, k, dst, sv, q) && sv.sender == Storing(m) && m.id !in sv.table.entries
    requires r == AtServer(s, dst, SenderStore(dst, threshold, now1, now2))
    ensures Stands(r, k, dst, r.servers[dst], q)
    ensures r.servers[dst] == sv.(sender := Posting(m), table := r.servers[dst].table)
    ensures m.id in r.servers[dst].table.entries && r.servers[dst].table.entries[m.id].value == m.time
  {
    ExpireShrinks(sv.table, now1, threshold);
  }

  lemma PongStep(s: State, k: nat, dst: nat, sv: Server, q: seq<R.Arrival>, time: nat, r: State)
    requires Stands(s, k, dst, sv, q) && sv.sender == Posting(Taken(k, time))
    requires r == AtServer(s, dst, SenderPost(dst, true))
    ensures Stands(r, k, dst, sv.(sender := Waiting, posted := sv.posted + multiset{k}), q) && Pong(k) in r.fabric
  {
  }

  lemma SentStep(s: State, k: nat, dst: nat, sv: Server, q: seq<R.Arrival>, time: nat, r: State)
    requires Stands(s, k, dst, sv, q) && k in sv.posted && k != WRID_PONG_ACK && sv.completer == Polling
    requires r == AtServer(s, dst, SendCompletion(dst, k, time, true))
    ensures Stands(r, k, dst, sv.(posted := sv.posted - multiset{k}, completer := Looking(k, time)), q)
    ensures r.fabric == s.fabric
  {
  }

  lemma LookStep(s: State, k: nat, dst: nat, sv: Server, q: seq<R.Arrival>, r: State)
    requires Stands(s, k, dst, sv, q) && sv.completer.Looking? && sv.completer.id == k && k in sv.table.entries
    requires r == AtServer(s, dst, CompleterLook(dst))
    ensures Stands(r, k, dst, sv.(completer := Acking(k, DeltaModulo(sv.table.entries[k].value,
                                                                       sv.completer.completion, MODULO))), q)
    ensures r.fabric == s.fabric
  {
  }

  lemma AckStep(s: State, k: nat, dst: nat, sv: Server, q: seq<R.Arrival>, delay: nat, r: State)
    requires Stands(s, k, dst, sv, q) && sv.completer == Acking(k, delay)
    requires r == AtServer(s, dst, CompleterAck(dst, true))
    ensures Stands(r, k, dst, sv.(completer := Dropping(k), posted := sv.posted + multiset{WRID_PONG_ACK}), q)
    ensures r.fabric == s.fabric + multiset{Ack(k, delay)}
  {
  }

  lemma DropStep(s: State, k: nat, dst: nat, sv: Server, q: seq<R.Arrival>, r: State)
    requires Stands(s, k, dst, sv, q) && sv.completer == Dropping(k)
    requires r == AtServer(s, dst, CompleterDrop(dst))
    ensures Stands(r, k, dst, sv.(completer := Polling, table := Remove(sv.table, k)), q) && r.fabric == s.fabric
  {
  }

  // ------------------------------------------------------------------ back at the client

  lemma PongReceived(s: State, k: nat, time: nat, recv: nat, cqe: nat, r: State)
    requires Holds(s.client, k, [R.Cqe(time)]) && Pong(k) in s.fabric && r == Receive(s, Pong(k), recv, cqe)
    ensures Holds(r.client, k, [R.Cqe(time), R.Pong(recv, cqe)]) && r.fabric == s.fabric - multiset{Pong(k)}
  {
    HoldsOneMore(s.client, k, [R.Cqe(time)], R.Pong(recv, cqe), r.client);
  }

  lemma AckReceived(s: State, k: nat, time: nat, recv: nat, cqe: nat, delay: nat, recv': nat, cqe': nat, r: State)
      returns (o: R.Outcome)
    requires Holds(s.client, k, [R.Cqe(time), R.Pong(recv, cqe)]) && Ack(k, delay) in s.fabric
    requires r == Receive(s, Ack(k, delay), recv', cqe')
    ensures o in r.client.outcomes && R.IdOf(o) == k && o.Reported? && o.result.kind != R.FAILURE
    ensures o.arrivals == [R.Cqe(time), R.Pong(recv, cqe), R.Ack(delay)]
  {
    o := CompletesWith(s.client, k, [R.Cqe(time), R.Pong(recv, cqe)], R.Ack(delay), r.client);
    OutcomesForMembers(r.client.outcomes, k);
    assert o in R.OutcomesFor(r.client.outcomes, k);
  }

  // ---------------------------------------------------------------------- step by step

  lemma Sending(s: State, k: nat, dst: nat, dstip: nat, systemNow: nat, t: Clocks, s1: State, s2: State, s3: State)
    requires AllWell(s) && Ready(s, dst) && k == NextId(s)
    requires s1 == Next(s, ClientRecord(dst, dstip, systemNow, t.wait1, t.wait2)) && s2 == Next(s1, ClientPost(true))
    requires s3 == Next(s2, ClientCompletion(k, t.pingCqe, true))
    ensures Stands(s3, k, dst, s.servers[dst], [R.Cqe(t.pingCqe)])
    ensures Ping(k, dst) in s3.fabric && k !in s.servers[dst].table.entries && k != WRID_PONG_ACK
  {
    RecordStep(s, k, dst, dstip, systemNow, t.wait1, t.wait2, s1);
    PostStep(s1, k, dst, s2);
    CompletionStep(s2, k, t.pingCqe, s3);
  }

  /** The PONG is posted, and the PING's arrival kept for it. */
  ghost predicate Ponged(s: State, k: nat, dst: nat, arrival: nat, q: seq<R.Arrival>) {
    && dst < |s.servers| && Stands(s, k, dst, s.servers[dst], q) && Pong(k) in s.fabric
    && s.servers[dst].completer == Polling && k in s.servers[dst].posted
    && k in s.servers[dst].table.entries && s.servers[dst].table.entries[k].value == arrival
  }

  lemma Queueing(s: State, k: nat, dst: nat, sv: Server, q: seq<R.Arrival>, time: nat, s1: State, s2: State)
    requires Stands(s, k, dst, sv, q) && Ping(k, dst) in s.fabric && sv.queue == [] && sv.sender == Waiting
    requires s1 == Next(s, ServerTake(dst, k, time, true)) && s2 == Next(s1, SenderDequeue(dst))
    ensures Stands(s2, k, dst, sv.(sender := Storing(Taken(k, time))), q)
  {
    TakeStep(s, k, dst, sv, q, time, s1);
    DequeueStep(s1, k, dst, sv.(queue := sv.queue + [Taken(k, time)]), q, Taken(k, time), s2);
  }

  lemma Ponging(s: State, k: nat, dst: nat, sv: Server, q: seq<R.Arrival>, threshold: int, t: Clocks,
                s1: State, s2: State, s3: State, s4: State)
    requires Stands(s, k, dst, sv, q) && Ping(k, dst) in s.fabric && k !in sv.table.entries
    requires sv.queue == [] && sv.sender == Waiting && sv.completer == Polling
    requires s1 == Next(s, ServerTake(dst, k, t.arrival, true)) && s2 == Next(s1, SenderDequeue(dst))
    requires s3 == Next(s2, SenderStore(dst, threshold, t.now1, t.now2)) && s4 == Next(s3, SenderPost(dst, true))
    ensures Ponged(s4, k, dst, t.arrival, q)
  {
    var m := Taken(k, t.arrival);
    Queueing(s, k, dst, sv, q, t.arrival, s1, s2);
    StoreStep(s2, k, dst, s2.servers[dst], q, m, threshold, t.now1, t.now2, s3);
    PongStep(s3, k, dst, s3.servers[dst], q, t.arrival, s4);
  }

  /** Both answers are under way, and the ping has left the server. */
  ghost predicate Answered(s: State, k: nat, dst: nat, delay: nat, q: seq<R.Arrival>) {
    && dst < |s.servers| && Stands(s, k, dst, s.servers[dst], q) && Pong(k) in s.fabric && Ack(k, delay) in s.fabric
    && s.servers[dst].completer == Polling && k !in s.servers[dst].table.entries
  }

  lemma LookingUp(s: State, k: nat, dst: nat, q: seq<R.Arrival>, t: Clocks, s1: State, s2: State)
    requires Ponged(s, k, dst, t.arrival, q) && k != WRID_PONG_ACK
    requires s1 == Next(s, SendCompletion(dst, k, t.completion, true)) && s2 == Next(s1, CompleterLook(dst))
    ensures s2.fabric == s.fabric && dst < |s2.servers| && Stands(s2, k, dst, s2.servers[dst], q)
    ensures s2.servers[dst].completer == Acking(k, DelayOf(t))
  {
    SentStep(s, k, dst, s.servers[dst], q, t.completion, s1);
    LookStep(s1, k, dst, s1.servers[dst], q, s2);
  }

  lemma Acknowledging(s: State, k: nat, dst: nat, q: seq<R.Arrival>, t: Clocks,
                      s1: State, s2: State, s3: State, s4: State)
    requires Ponged(s, k, dst, t.arrival, q) && k != WRID_PONG_ACK
    requires s1 == Next(s, SendCompletion(dst, k, t.completion, true)) && s2 == Next(s1, CompleterLook(dst))
    requires s3 == Next(s2, CompleterAck(dst, true)) && s4 == Next(s3, CompleterDrop(dst))
    ensures Answered(s4, k, dst, DelayOf(t), q)
  {
    LookingUp(s, k, dst, q, t, s1, s2);
    AckStep(s2, k, dst, s2.servers[dst], q, DelayOf(t), s3);
    DropStep(s3, k, dst, s3.servers[dst], q, s4);
  }

  lemma Receiving(s: State, k: nat, dst: nat, t: Clocks, s1: State, s2: State) returns (o: R.Outcome)
    requires Answered(s, k, dst, DelayOf(t), [R.Cqe(t.pingCqe)])
    requires s1 == Next(s, ClientReceive(Pong(k), t.recv, t.pongCqe))
    requires s2 == Next(s1, ClientReceive(Ack(k, DelayOf(t)), t.recv, t.pongCqe))
    ensures o in s2.client.outcomes && R.IdOf(o) == k && o.Reported? && o.result.kind != R.FAILURE
    ensures o.arrivals == [R.Cqe(t.pingCqe), R.Pong(t.recv, t.pongCqe), R.Ack(DelayOf(t))]
  {
    PongReceived(s, k, t.pingCqe, t.recv, t.pongCqe, s1);
    o := AckReceived(s1, k, t.pingCqe, t.recv, t.pongCqe, DelayOf(t), t.recv, t.pongCqe, s2);
  }

  /** The exchange is what happens in a run from event `i` on. */
  ghost predicate ExchangedAt(run: seq<State>, evs: seq<Event>, i: nat, k: nat, dst: nat, dstip: nat, systemNow: nat,
                              threshold: int, t: Clocks) {
    && |run| == |evs| + 1 && i + 13 <= |evs| && Ready(run[i], dst) && k == NextId(run[i])
    && evs[i..i + 13] == Exchange(k, dst, dstip, systemNow, threshold, t)
  }

  lemma EventOf(evs: seq<Event>, i: nat, ex: seq<Event>, q: nat)
    requires i + 13 <= |evs| && evs[i..i + 13] == ex && q < 13
    ensures evs[i + q] == ex[q]
  {
    assert evs[i..i + 13][q] == evs[i + q];
  }

  lemma SendingAt(run: seq<State>, evs: seq<Event>, i: nat, k: nat, dst: nat, dstip: nat, systemNow: nat, t: Clocks)
    requires IsRun(run, evs) && i + 3 <= |evs| && Ready(run[i], dst) && k == NextId(run[i])
    requires evs[i] == ClientRecord(dst, dstip, systemNow, t.wait1, t.wait2) && evs[i + 1] == ClientPost(true)
    requires evs[i + 2] == ClientCompletion(k, t.pingCqe, true)
    ensures Stands(run[i + 3], k, dst, run[i].servers[dst], [R.Cqe(t.pingCqe)])
    ensures Ping(k, dst) in run[i + 3].fabric && k !in run[i].servers[dst].table.entries && k != WRID_PONG_ACK
  {
    Sound(run, evs, i);
    assert StepAt(run, evs, i) && StepAt(run, evs, i + 1) && StepAt(run, evs, i + 2);
    Sending(run[i], k, dst, dstip, systemNow, t, run[i + 1], run[i + 2], run[i + 3]);
  }

  lemma PongingAt(run: seq<State>, evs: seq<Event>, i: nat, k: nat, dst: nat, sv: Server, q: seq<R.Arrival>,
                  threshold: int, t: Clocks)
    requires IsRun(run, evs) && i + 4 <= |evs|
    requires Stands(run[i], k, dst, sv, q) && Ping(k, dst) in run[i].fabric && k !in sv.table.entries
    requires sv.queue == [] && sv.sender == Waiting && sv.completer == Polling
    requires evs[i] == ServerTake(dst, k, t.arrival, true) && evs[i + 1] == SenderDequeue(dst)
    requires evs[i + 2] == SenderStore(dst, threshold, t.now1, t.now2) && evs[i + 3] == SenderPost(dst, true)
    ensures Ponged(run[i + 4], k, dst, t.arrival, q)
  {
    assert StepAt(run, evs, i) && StepAt(run, evs, i + 1) && StepAt(run, evs, i + 2) && StepAt(run, evs, i + 3);
    Ponging(run[i], k, dst, sv, q, threshold, t, run[i + 1], run[i + 2], run[i + 3], run[i + 4]);
  }

  lemma AcknowledgingAt(run: seq<State>, evs: seq<Event>, i: nat, k: nat, dst: nat, q: seq<R.Arrival>, t: Clocks)
    requires IsRun(run, evs) && i + 4 <= |evs| && Ponged(run[i], k, dst, t.arrival, q) && k != WRID_PONG_ACK
    requires evs[i] == SendCompletion(dst, k, t.completion, true) && evs[i + 1] == CompleterLook(dst)
    requires evs[i + 2] == CompleterAck(dst, true) && evs[i + 3] == CompleterDrop(dst)
    ensures Answered(run[i + 4], k, dst, DelayOf(t), q)
  {
    assert StepAt(run, evs, i) && StepAt(run, evs, i + 1) && StepAt(run, evs, i + 2) && StepAt(run, evs, i + 3);
    Acknowledging(run[i], k, dst, q, t, run[i + 1], run[i + 2], run[i + 3], run[i + 4]);
  }

  lemma ReceivingAt(run: seq<State>, evs: seq<Event>, i: nat, k: nat, dst: nat, t: Clocks) returns (o: R.Outcome)
    requires IsRun(run, evs) && i + 2 <= |evs| && Answered(run[i], k, dst, DelayOf(t), [R.Cqe(t.pingCqe)])
    requires evs[i] == ClientReceive(Pong(k), t.recv, t.pongCqe)
    requires evs[i + 1] == ClientReceive(Ack(k, DelayOf(t)), t.recv, t.pongCqe)
    ensures o in run[i + 2].client.outcomes && R.IdOf(o) == k && o.Reported? && o.result.kind != R.FAILURE
    ensures o.arrivals == [R.Cqe(t.pingCqe), R.Pong(t.recv, t.pongCqe), R.Ack(DelayOf(t))]
  {
    assert StepAt(run, evs, i) && StepAt(run, evs, i + 1);
    o := Receiving(run[i], k, dst, t, run[i + 1], run[i + 2]);
  }

  lemma ExchangeSends(run: seq<State>, evs: seq<Event>, i: nat, k: nat, dst: nat, dstip: nat, systemNow: nat,
                      threshold: int, t: Clocks)
    requires IsRun(run, evs) && ExchangedAt(run, evs, i, k, dst, dstip, systemNow, threshold, t)
    ensures k != WRID_PONG_ACK && Ponged(run[i + 7], k, dst, t.arrival, [R.Cqe(t.pingCqe)])
  {
    var ex := Exchange(k, dst, dstip, systemNow, threshold, t);
    EventOf(evs, i, ex, 0);
    EventOf(evs, i, ex, 1);
    EventOf(evs, i, ex, 2);
    EventOf(evs, i, ex, 3);
    EventOf(evs, i, ex, 4);
    EventOf(evs, i, ex, 5);
    EventOf(evs, i, ex, 6);
    SendingAt(run, evs, i, k, dst, dstip, systemNow, t);
    PongingAt(run, evs, i + 3, k, dst, run[i].servers[dst], [R.Cqe(t.pingCqe)], threshold, t);
  }

  lemma ExchangeEnds(run: seq<State>, evs: seq<Event>, i: nat, k: nat, dst: nat, dstip: nat, systemNow: nat,
                     threshold: int, t: Clocks) returns (o: R.Outcome)
    requires IsRun(run, evs) && ExchangedAt(run, evs, i, k, dst, dstip, systemNow, threshold, t)
    requires k != WRID_PONG_ACK && Ponged(run[i + 7], k, dst, t.arrival, [R.Cqe(t.pingCqe)])
    ensures dst < |run[i + 11].servers| && k !in run[i + 11].servers[dst].table.entries
    ensures o in run[i + 13].client.outcomes && R.IdOf(o) == k && o.Reported? && o.result.kind != R.FAILURE
    ensures o.arrivals == [R.Cqe(t.pingCqe), R.Pong(t.recv, t.pongCqe), R.Ack(DelayOf(t))]
  {
    var ex := Exchange(k, dst, dstip, systemNow, threshold, t);
    EventOf(evs, i, ex, 7);
    EventOf(evs, i, ex, 8);
    EventOf(evs, i, ex, 9);
    EventOf(evs, i, ex, 10);
    EventOf(evs, i, ex, 11);
    EventOf(evs, i, ex, 12);
    AcknowledgingAt(run, evs, i + 7, k, dst, [R.Cqe(t.pingCqe)], t);
    o := ReceivingAt(run, evs, i + 11, k, dst, t);
  }

  /** The first event of the exchange records the ping. */
  lemma ExchangeRecords(run: seq<State>, evs: seq<Event>, i: nat, k: nat, dst: nat, dstip: nat, systemNow: nat,
                        threshold: int, t: Clocks)
    requires ExchangedAt(run, evs, i, k, dst, dstip, systemNow, threshold, t)
    ensures Records(run[i], evs[i], k)
    ensures evs[i] == ClientRecord(dst, dstip, systemNow, t.wait1, t.wait2)
  {
    assert evs[i] == evs[i..i + 13][0];
  }

  lemma ArrivedResult(o: R.Outcome, k: nat, dstip: nat, systemNow: nat, sent: nat, t: Clocks)
    requires Tells(o, k, dstip, systemNow, sent) && o.Reported? && o.result.kind != R.FAILURE
    requires o.arrivals == [R.Cqe(t.pingCqe), R.Pong(t.recv, t.pongCqe), R.Ack(DelayOf(t))]
    ensures Names(o.result, k, dstip, systemNow)
    ensures R.SentinelSafe(t.pingCqe, t.pongCqe) ==>
              Measured(o.result, k, dstip, systemNow, sent, t.pingCqe, t.recv, t.pongCqe,
                       (t.completion - t.arrival) % MODULO)
  {
    assert o.arrivals[0] == R.Cqe(t.pingCqe) && o.arrivals[1] == R.Pong(t.recv, t.pongCqe) &&
           o.arrivals[2] == R.Ack(DelayOf(t));
    DeltaIsDifference(t.arrival, t.completion, MODULO);
  }

  /** The one result of ping `k` in state `j`. */
  lemma OnlyResult(run: seq<State>, evs: seq<Event>, j: nat, k: nat, o: R.Outcome)
    requires IsRun(run, evs) && j <= |evs| && o in run[j].client.outcomes && R.IdOf(o) == k
    ensures R.OutcomesFor(run[j].client.outcomes, k) == [o]
  {
    Sound(run, evs, j);
    OnlyOutcome(run[j], k, o);
  }

  /** After any run: when nothing is lost and every step is made, the exchange ends with
      one result for its ping, SUCCESS or WEIRD, that names the ping as recorded, with the
      server's delay between its two clock readings, and with the client's and the
      network's shares when the stamps are safe; and the server has let the ping go. */
  lemma LosslessSucceeds(ip: nat, threshold: int, clock: nat, n: nat, run: seq<State>, evs: seq<Event>, i: nat,
                         k: nat, dst: nat, dstip: nat, systemNow: nat, serverThreshold: int, t: Clocks)
      returns (o: R.Outcome)
    requires RunFrom(ip, threshold, clock, n, run, evs)
    requires ExchangedAt(run, evs, i, k, dst, dstip, systemNow, serverThreshold, t)
    ensures R.OutcomesFor(run[i + 13].client.outcomes, k) == [o]
    ensures dst < |run[i + 11].servers| && k !in run[i + 11].servers[dst].table.entries
    ensures o.Reported? && o.result.kind != R.FAILURE && Names(o.result, k, dstip, systemNow)
    ensures R.SentinelSafe(t.pingCqe, t.pongCqe) ==>
              Measured(o.result, k, dstip, systemNow, run[i].client.clock + t.wait1 + t.wait2,
                       t.pingCqe, t.recv, t.pongCqe, (t.completion - t.arrival) % MODULO)
  {
    RunFromIsRun(ip, threshold, clock, n, run, evs);
    ExchangeSends(run, evs, i, k, dst, dstip, systemNow, serverThreshold, t);
    o := ExchangeEnds(run, evs, i, k, dst, dstip, systemNow, serverThreshold, t);
    ExchangeRecords(run, evs, i, k, dst, dstip, systemNow, serverThreshold, t);
    OutcomeOfRecord(run, evs, i, k, i + 13, o);
    OnlyResult(run, evs, i + 13, k, o);
    ArrivedResult(o, k, dstip, systemNow, run[i].client.clock + t.wait1 + t.wait2, t);
  }
}
