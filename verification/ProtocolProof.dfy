/** What every step of the ping protocol keeps, for each ping on its own. */
module ProtocolProof {
  import opened TimeDelta
  import opened ExpiringTable
  import opened PingId
  import opened Protocol
  import R = RdmaPingTable

  // -------------------------------------------------------------------- invariant

  function CountIn(q: seq<Taken>, k: nat): nat {
    if q == [] then 0 else (if q[0].id == k then 1 else 0) + CountIn(q[1..], k)
  }

  /** 1 if the sender has ping `k` in hand. */
  function InHand(x: Sender, k: nat): nat {
    if (x.Storing? || x.Posting?) && x.m.id == k then 1 else 0
  }

  /** 1 if the completer has yet to post the ACK of `k`. */
  function AckDue(c: Completer, k: nat): nat {
    if (c.Looking? || c.Acking?) && c.id == k then 1 else 0
  }

  function Seen(q: seq<R.Arrival>, p: R.Part): nat {
    if p in R.Seen(q) then 1 else 0
  }

  /** No two arrivals of a kind. */
  ghost predicate Apart(q: seq<R.Arrival>) {
    forall i, j :: 0 <= i < j < |q| ==> R.PartOf(q[i]) != R.PartOf(q[j])
  }

  /** A server's share of ping `k`: it is queued, in hand or answered at most as
      often as it was taken, its PONG completes at most as often as it was posted,
      and its ACK is posted at most once for a completion, with the delay from the
      arrival to that completion. */
  ghost predicate ServerPing(sv: Server, l: Ledger, k: nat) {
    && CountIn(sv.queue, k) + InHand(sv.sender, k) + l.pongs <= l.taken <= 1
    && (forall m :: m in sv.queue && m.id == k ==> m.time == l.arrival)
    && (InHand(sv.sender, k) == 1 ==> sv.sender.m.time == l.arrival)
    && (k in sv.table.entries ==> l.taken == 1 && sv.table.entries[k].value == l.arrival)
    && (if k == WRID_PONG_ACK then l.taken == 0 && l.completed == 0 else sv.posted[k] + l.completed <= l.pongs)
    && |l.acks| + AckDue(sv.completer, k) <= l.completed
    && (sv.completer.Looking? && sv.completer.id == k ==> sv.completer.completion == l.completion)
    && (sv.completer.Acking? && sv.completer.id == k ==>
          sv.completer.delay == DeltaModulo(l.arrival, l.completion, MODULO))
    && (l.acks != [] ==> l.acks[0] == DeltaModulo(l.arrival, l.completion, MODULO))
  }

  /** What of ping `k` is under way: each message at most as often as it was
      posted, counting what has been received. */
  ghost predicate FabricPing(fabric: multiset<Msg>, l: Ledger, k: nat) {
    && (forall j :: j != l.dst ==> fabric[Ping(k, j)] == 0)
    && fabric[Ping(k, l.dst)] + l.taken <= l.sent <= 1
    && fabric[Pong(k)] + Seen(l.arrivals, R.PONG) <= l.pongs <= 1
    && (forall d :: fabric[Ack(k, d)] > 0 ==> l.acks == [d] && fabric[Ack(k, d)] + Seen(l.arrivals, R.ACK) <= 1)
  }

  /** The client's table has kept exactly what it was told of ping `k`. */
  ghost predicate Kept(c: R.State, k: nat, q: seq<R.Arrival>) {
    && (k in c.table.entries ==> c.table.entries[k].value.arrivals == q)
    && (forall o :: o in c.outcomes && R.IdOf(o) == k ==> o.arrivals <= q)
  }

  ghost predicate ClientPing(c: R.State, unsent: seq<nat>, sending: multiset<nat>, l: Ledger, k: nat) {
    && Apart(l.arrivals)
    && sending[k] + Seen(l.arrivals, R.PING_CQE) <= l.sent
    && (k in unsent ==> l.sent == 0)
    && Kept(c, k, l.arrivals)
    && (forall d: nat :: R.Ack(d) in l.arrivals ==> l.acks == [d])
  }

  /** The part of the ledger that concerns server `j`. */
  function HeldAt(ledger: map<nat, Ledger>, j: nat, k: nat): Ledger {
    if k in ledger && ledger[k].dst == j then ledger[k] else Blank(0)
  }

  ghost predicate ServersPing(servers: seq<Server>, ledger: map<nat, Ledger>, k: nat) {
    forall j :: 0 <= j < |servers| ==> ServerPing(servers[j], HeldAt(ledger, j, k), k)
  }

  ghost predicate PingOk(s: State, k: nat) {
    && FabricPing(s.fabric, LedgerOf(s, k), k)
    && ClientPing(s.client, s.unsent, s.sending, LedgerOf(s, k), k)
    && ServersPing(s.servers, s.ledger, k)
  }

  /** The ids in use are those counted out so far. */
  ghost predicate IdsOk(s: State) {
    && s.ip > 0 && s.uid <= MODULO && |s.unsent| <= 1
    && (forall k :: k in s.ledger ==> s.ip * MODULO <= k < s.ip * MODULO + s.uid && s.ledger[k].dst < |s.servers|)
    && (forall k :: k in s.unsent ==> k in s.ledger)
  }

  ghost predicate Inv(s: State) {
    R.Inv(s.client) && IdsOk(s) && forall k: nat :: PingOk(s, k)
  }

  // ------------------------------------------------------------- steps of a server

  lemma {:induction false} CountAppend(q: seq<Taken>, m: Taken, k: nat)
    ensures CountIn(q + [m], k) == CountIn(q, k) + if m.id == k then 1 else 0
  {
    if q == [] {
      assert q + [m] == [m];
    } else {
      CountAppend(q[1..], m, k);
      assert (q + [m])[1..] == q[1..] + [m];
    }
  }

  lemma {:induction false} CountMember(q: seq<Taken>, m: Taken)
    requires m in q
    ensures CountIn(q, m.id) > 0
  {
    if q[0].id != m.id {
      CountMember(q[1..], m);
    }
  }

  /** Expiry only removes. */
  lemma {:induction false} ExpireShrinks<V>(t: Table<V>, now: int, threshold: int)
    ensures forall k :: k in Expire(t, now, threshold).entries ==>
              k in t.entries && Expire(t, now, threshold).entries[k] == t.entries[k]
    decreases |t.keyList|
  {
    if t.keyList != [] {
      var k := t.keyList[0];
      if k !in t.entries {
        ExpireShrinks(Table(t.entries, t.keyList[1..]), now, threshold);
      } else if ElapsedMs(now, t.entries[k].timestamp) >= threshold {
        ExpireShrinks(Table(t.entries - {k}, t.keyList[1..]), now, threshold);
      }
    }
  }

  lemma TakeKeeps(sv: Server, l: Ledger, k: nat, id: nat, time: nat, room: bool, r: Ledger)
    requires ServerPing(sv, l, k)
    requires if id == k then k != WRID_PONG_ACK && l.taken == 0 && r == l.(taken := 1, arrival := time) else r == l
    ensures ServerPing(Take(sv, id, time, room), r, k)
  {
    CountAppend(sv.queue, Taken(id, time), k);
    forall m | m in sv.queue && m.id == k
      ensures m.time == r.arrival
    {
      CountMember(sv.queue, m);
    }
  }

  lemma DequeueKeeps(sv: Server, l: Ledger, k: nat)
    requires ServerPing(sv, l, k)
    ensures ServerPing(Dequeue(sv), l, k)
  {
  }

  lemma StoreKeeps(sv: Server, l: Ledger, k: nat, threshold: int, now1: nat, now2: nat)
    requires ServerPing(sv, l, k)
    ensures ServerPing(Store(sv, threshold, now1, now2), l, k)
  {
    ExpireShrinks(sv.table, now1, threshold);
  }

  lemma PostPongKeeps(sv: Server, l: Ledger, k: nat, ok: bool, r: Ledger)
    requires ServerPing(sv, l, k)
    requires if sv.sender.Posting? && ok && sv.sender.m.id == k then r == l.(pongs := l.pongs + 1) else r == l
    ensures ServerPing(PostPong(sv, ok), r, k)
  {
  }

  lemma SendDoneKeeps(sv: Server, l: Ledger, k: nat, wrId: nat, time: nat, ok: bool, r: Ledger)
    requires ServerPing(sv, l, k)
    requires if wrId in sv.posted && sv.completer == Polling && ok && wrId != WRID_PONG_ACK && wrId == k
             then r == l.(completed := l.completed + 1, completion := time) else r == l
    ensures ServerPing(SendDone(sv, wrId, time, ok), r, k)
  {
  }

  lemma LookKeeps(sv: Server, l: Ledger, k: nat)
    requires ServerPing(sv, l, k)
    ensures ServerPing(Look(sv), l, k)
  {
  }

  lemma PostAckKeeps(sv: Server, l: Ledger, k: nat, ok: bool, r: Ledger)
    requires ServerPing(sv, l, k)
    requires if sv.completer.Acking? && ok && sv.completer.id == k then r == l.(acks := l.acks + [sv.completer.delay])
             else r == l
    ensures ServerPing(PostAck(sv, ok), r, k)
  {
  }

  lemma DropKeeps(sv: Server, l: Ledger, k: nat)
    requires ServerPing(sv, l, k)
    ensures ServerPing(Drop(sv), l, k)
  {
  }

  // ------------------------------------------------------------- the client's table

  lemma KeptOutcome(was: R.State, r: R.State, k: nat, q: seq<R.Arrival>)
    requires Kept(was, k, q)
    requires forall o :: o in r.outcomes ==> o in was.outcomes || (R.IdOf(o) == k ==> o.arrivals <= q)
    requires k in r.table.entries ==> k in was.table.entries && r.table.entries[k] == was.table.entries[k]
    ensures Kept(r, k, q)
  {
  }

  lemma ExpiredWithin(c: R.State, now: nat, k: nat, q: seq<R.Arrival>)
    requires Ordered(c.table) && R.EntriesOk(c.table) && Kept(c, k, q)
    ensures forall o :: o in R.ExpiredOutcomes(Expired(c.table, now, c.threshold)) && R.IdOf(o) == k ==> o.arrivals <= q
  {
    var gone := R.ExpiredOutcomes(Expired(c.table, now, c.threshold));
    ExpiredIsFront(c.table, now, c.threshold);
    forall j | 0 <= j < |gone|
      ensures R.IdOf(gone[j]) == k ==> gone[j].arrivals <= q
    {
      R.ExpiredOk(c.table, now, c.threshold, j);
    }
  }

  lemma KeptExpiry(c: R.State, now: nat, r: R.State, k: nat, q: seq<R.Arrival>)
    requires R.Inv(c) && Kept(c, k, q) && r == R.Expiry(c, now)
    ensures Kept(r, k, q)
  {
    ExpireShrinks(c.table, now, c.threshold);
    ExpiredWithin(c, now, k, q);
    KeptOutcome(c, r, k, q);
  }

  lemma KeptAdd(c: R.State, id: nat, dstip: nat, systemNow: nat, wait: nat, r: R.State, k: nat, q: seq<R.Arrival>)
    requires Kept(c, k, q) && (id == k ==> q == []) && r == R.AddNew(c, id, id, dstip, systemNow, wait)
    ensures Kept(r, k, q)
  {
  }

  lemma KeptInsert(c: R.State, id: nat, dstip: nat, systemNow: nat, wait1: nat, wait2: nat, k: nat, q: seq<R.Arrival>)
    requires R.Inv(c) && Kept(c, k, q) && (id == k ==> q == [])
    ensures Kept(R.Next(c, R.Insert(id, id, dstip, systemNow, wait1, wait2)), k, q)
  {
    var m := R.Expiry(c, c.clock + wait1);
    KeptExpiry(c, c.clock + wait1, m, k, q);
    KeptAdd(m, id, dstip, systemNow, wait2, R.AddNew(m, id, id, dstip, systemNow, wait2), k, q);
  }

  lemma KeptStore(c: R.State, id: nat, i: R.Info, r: R.State, k: nat, q: seq<R.Arrival>, a: R.Arrival)
    requires Kept(c, k, q) && id in c.table.entries && i.pingid == id && r == R.Store(c, id, i)
    requires i.arrivals == c.table.entries[id].value.arrivals + [a]
    ensures Kept(r, k, if id == k then q + [a] else q)
  {
    if i.bitmap == R.RECV_ALL {
      forall o | o in r.outcomes && R.IdOf(o) == k
        ensures o.arrivals <= if id == k then q + [a] else q
      {
        assert o in c.outcomes || o == R.Completed(i);
      }
    }
  }

  lemma KeptArrive(c: R.State, id: nat, a: R.Arrival, k: nat, q: seq<R.Arrival>)
    requires R.Inv(c) && Kept(c, k, q)
    ensures Kept(R.Next(c, R.Arrive(id, a)), k, if id == k then q + [a] else q)
  {
    if id in c.table.entries {
      var i := R.Apply(c.table.entries[id].value, a);
      R.Arrived(id, c.table.entries[id], a);
      KeptStore(c, id, i, R.Store(c, id, i), k, q, a);
    }
  }

  lemma ApartAppend(q: seq<R.Arrival>, a: R.Arrival)
    requires Apart(q) && Seen(q, R.PartOf(a)) == 0
    ensures Apart(q + [a])
    ensures forall p :: Seen(q + [a], p) == if p == R.PartOf(a) then 1 else Seen(q, p)
  {
    R.SeenOne(q, a);
    forall i | 0 <= i < |q|
      ensures R.PartOf(q[i]) != R.PartOf(a)
    {
      assert q[i] in q;
    }
  }

  // ------------------------------------------------------- steps of client and fabric

  /** The client is told `a` of ping `id`; `r` is the ledger of `k` after that. */
  lemma ToldKeeps(c: R.State, unsent: seq<nat>, sending: multiset<nat>, l: Ledger, k: nat, id: nat, a: R.Arrival,
                  r: Ledger)
    requires R.Inv(c) && ClientPing(c, unsent, sending, l, k)
    requires if id == k then r == l.(arrivals := l.arrivals + [a]) else r == l
    requires id == k ==> Seen(l.arrivals, R.PartOf(a)) == 0
    requires id == k && a.Cqe? ==> sending[k] + 1 <= l.sent
    requires id == k && a.Ack? ==> l.acks == [a.delay]
    ensures ClientPing(R.Next(c, R.Arrive(id, a)), unsent, sending, r, k)
  {
    KeptArrive(c, id, a, k, l.arrivals);
    if id == k {
      ApartAppend(l.arrivals, a);
    }
  }

  /** One message less. */
  lemma FabricLess(fabric: multiset<Msg>, l: Ledger, k: nat, msg: Msg)
    requires FabricPing(fabric, l, k)
    ensures FabricPing(fabric - multiset{msg}, l, k)
  {
  }

  lemma FabricReceive(fabric: multiset<Msg>, l: Ledger, k: nat, msg: Msg, a: R.Arrival, r: Ledger)
    requires FabricPing(fabric, l, k) && msg in fabric && !msg.Ping? && Apart(l.arrivals)
    requires a.Pong? == msg.Pong? && a.Ack? == msg.Ack? && (msg.Ack? ==> a.delay == msg.delay)
    requires if msg.id == k then r == l.(arrivals := l.arrivals + [a]) else r == l
    ensures FabricPing(fabric - multiset{msg}, r, k)
    ensures msg.id == k ==> Seen(l.arrivals, R.PartOf(a)) == 0
  {
    if msg.id == k {
      ApartAppend(l.arrivals, a);
    }
  }

  lemma FabricCqe(fabric: multiset<Msg>, l: Ledger, k: nat, time: nat)
    requires FabricPing(fabric, l, k) && Apart(l.arrivals) && Seen(l.arrivals, R.PING_CQE) == 0
    ensures FabricPing(fabric, l.(arrivals := l.arrivals + [R.Cqe(time)]), k)
  {
    ApartAppend(l.arrivals, R.Cqe(time));
  }

  lemma FabricPost(fabric: multiset<Msg>, l: Ledger, k: nat, id: nat, dst: nat, r: Ledger)
    requires FabricPing(fabric, l, k)
    requires if id == k then l.sent == 0 && dst == l.dst && r == l.(sent := 1) else r == l
    ensures FabricPing(fabric + multiset{Ping(id, dst)}, r, k)
  {
  }

  lemma FabricTake(fabric: multiset<Msg>, l: Ledger, k: nat, id: nat, j: nat, time: nat, r: Ledger)
    requires FabricPing(fabric, l, k) && Ping(id, j) in fabric
    requires if id == k then r == l.(taken := l.taken + 1, arrival := time) else r == l
    ensures FabricPing(fabric - multiset{Ping(id, j)}, r, k)
    ensures id == k ==> l.dst == j && l.taken == 0
  {
  }

  lemma FabricPong(fabric: multiset<Msg>, l: Ledger, k: nat, id: nat, r: Ledger)
    requires FabricPing(fabric, l, k)
    requires if id == k then l.pongs == 0 && r == l.(pongs := l.pongs + 1) else r == l
    ensures FabricPing(fabric + multiset{Pong(id)}, r, k)
  {
  }

  /** No ACK is under way or received before the first is posted. */
  lemma FabricAck(fabric: multiset<Msg>, l: Ledger, k: nat, id: nat, delay: nat, r: Ledger)
    requires FabricPing(fabric, l, k)
    requires if id == k then l.acks == [] && Seen(l.arrivals, R.ACK) == 0 && r == l.(acks := [delay]) else r == l
    ensures FabricPing(fabric + multiset{Ack(id, delay)}, r, k)
  {
  }

  // ------------------------------------------------------------- steps of the system

  /** Server `j` moves to `sv` and the ledger to `ledger`; the rest is as before. */
  lemma ServersMove(servers: seq<Server>, was: map<nat, Ledger>, k: nat, j: nat, sv: Server, ledger: map<nat, Ledger>)
    requires j < |servers| && ServersPing(servers, was, k) && ServerPing(sv, HeldAt(ledger, j, k), k)
    requires forall i :: i != j ==> HeldAt(ledger, i, k) == HeldAt(was, i, k)
    ensures ServersPing(servers[j := sv], ledger, k)
  {
  }

  /** Steps of a server that neither the fabric nor the ledger notices. */
  lemma InnerKeeps(s: State, j: nat, ev: Event, k: nat)
    requires PingOk(s, k) && j < |s.servers|
    requires ev.SenderDequeue? || ev.SenderStore? || ev.CompleterLook? || ev.CompleterDrop?
    ensures PingOk(AtServer(s, j, ev), k)
  {
    var sv, l := s.servers[j], HeldAt(s.ledger, j, k);
    match ev
    case SenderDequeue(_) =>
      DequeueKeeps(sv, l, k);
      ServersMove(s.servers, s.ledger, k, j, Dequeue(sv), s.ledger);
    case SenderStore(_, threshold, now1, now2) =>
      StoreKeeps(sv, l, k, threshold, now1, now2);
      ServersMove(s.servers, s.ledger, k, j, Store(sv, threshold, now1, now2), s.ledger);
    case CompleterLook(_) =>
      LookKeeps(sv, l, k);
      ServersMove(s.servers, s.ledger, k, j, Look(sv), s.ledger);
    case CompleterDrop(_) =>
      DropKeeps(sv, l, k);
      ServersMove(s.servers, s.ledger, k, j, Drop(sv), s.ledger);
  }

  /** Whatever a server holds of a ping, the ping was sent to it. */
  lemma HeldIsHere(s: State, j: nat, id: nat)
    requires PingOk(s, id) && j < |s.servers|
    requires InHand(s.servers[j].sender, id) == 1 || AckDue(s.servers[j].completer, id) == 1 ||
             (id != WRID_PONG_ACK && id in s.servers[j].posted) || Ping(id, j) in s.fabric ||
             CountIn(s.servers[j].queue, id) > 0 || id in s.servers[j].table.entries
    ensures id in s.ledger && s.ledger[id].dst == j && LedgerOf(s, id) == HeldAt(s.ledger, j, id) == s.ledger[id]
  {
    assert ServerPing(s.servers[j], HeldAt(s.ledger, j, id), id);
  }

  lemma ServerTakeKeeps(s: State, j: nat, ev: Event, k: nat)
    requires PingOk(s, k) && j < |s.servers| && ev.ServerTake? && PingOk(s, ev.id) &&
             (ev.id == k ==> k != WRID_PONG_ACK)
    ensures PingOk(AtServer(s, j, ev), k)
  {
    if Ping(ev.id, j) in s.fabric {
      HeldIsHere(s, j, ev.id);
      var r, sv := AtServer(s, j, ev), s.servers[j];
      FabricTake(s.fabric, LedgerOf(s, k), k, ev.id, j, ev.time, LedgerOf(r, k));
      TakeKeeps(sv, HeldAt(s.ledger, j, k), k, ev.id, ev.time, ev.room, HeldAt(r.ledger, j, k));
      ServersMove(s.servers, s.ledger, k, j, Take(sv, ev.id, ev.time, ev.room), r.ledger);
    }
  }

  lemma SenderPostKeeps(s: State, j: nat, ev: Event, k: nat)
    requires PingOk(s, k) && j < |s.servers| && ev.SenderPost?
    requires s.servers[j].sender.Posting? ==> PingOk(s, s.servers[j].sender.m.id)
    ensures PingOk(AtServer(s, j, ev), k)
  {
    var r, sv := AtServer(s, j, ev), s.servers[j];
    if sv.sender.Posting? && ev.ok {
      var id := sv.sender.m.id;
      HeldIsHere(s, j, id);
      assert ServerPing(sv, HeldAt(s.ledger, j, id), id);
      FabricPong(s.fabric, LedgerOf(s, k), k, id, LedgerOf(r, k));
    }
    PostPongKeeps(sv, HeldAt(s.ledger, j, k), k, ev.ok, HeldAt(r.ledger, j, k));
    ServersMove(s.servers, s.ledger, k, j, PostPong(sv, ev.ok), r.ledger);
  }

  lemma SendCompletionKeeps(s: State, j: nat, ev: Event, k: nat)
    requires PingOk(s, k) && j < |s.servers| && ev.SendCompletion? && PingOk(s, ev.wrId)
    ensures PingOk(AtServer(s, j, ev), k)
  {
    var r, sv := AtServer(s, j, ev), s.servers[j];
    if ev.wrId in sv.posted && ev.wrId != WRID_PONG_ACK {
      HeldIsHere(s, j, ev.wrId);
    }
    SendDoneKeeps(sv, HeldAt(s.ledger, j, k), k, ev.wrId, ev.time, ev.ok, HeldAt(r.ledger, j, k));
    ServersMove(s.servers, s.ledger, k, j, SendDone(sv, ev.wrId, ev.time, ev.ok), r.ledger);
  }

  lemma CompleterAckKeeps(s: State, j: nat, ev: Event, k: nat)
    requires PingOk(s, k) && j < |s.servers| && ev.CompleterAck?
    requires s.servers[j].completer.Acking? ==> PingOk(s, s.servers[j].completer.id)
    ensures PingOk(AtServer(s, j, ev), k)
  {
    var r, sv := AtServer(s, j, ev), s.servers[j];
    if sv.completer.Acking? && ev.ok {
      var id, delay := sv.completer.id, sv.completer.delay;
      HeldIsHere(s, j, id);
      assert ServerPing(sv, HeldAt(s.ledger, j, id), id);
      NoAckSeen(s, id);
      FabricAck(s.fabric, LedgerOf(s, k), k, id, delay, LedgerOf(r, k));
    }
    PostAckKeeps(sv, HeldAt(s.ledger, j, k), k, ev.ok, HeldAt(r.ledger, j, k));
    ServersMove(s.servers, s.ledger, k, j, PostAck(sv, ev.ok), r.ledger);
  }

  lemma NoAckSeen(s: State, id: nat)
    requires PingOk(s, id) && LedgerOf(s, id).acks == []
    ensures Seen(LedgerOf(s, id).arrivals, R.ACK) == 0
  {
    var q := LedgerOf(s, id).arrivals;
    forall d: nat
      ensures R.Ack(d) !in q
    {
    }
    assert forall a :: a in q && a.Ack? ==> R.Ack(a.delay) in q;
  }

  /** The client is told of ping `id`; the message or completion is already gone
      from `m`. */
  lemma ToldState(m: State, id: nat, a: R.Arrival, k: nat)
    requires R.Inv(m.client) && id in m.ledger
    requires ClientPing(m.client, m.unsent, m.sending, LedgerOf(m, k), k) && ServersPing(m.servers, m.ledger, k)
    requires FabricPing(m.fabric, LedgerOf(Told(m, id, a), k), k)
    requires id == k ==> Seen(LedgerOf(m, k).arrivals, R.PartOf(a)) == 0
    requires id == k && a.Cqe? ==> m.sending[k] + 1 <= LedgerOf(m, k).sent
    requires id == k && a.Ack? ==> LedgerOf(m, k).acks == [a.delay]
    ensures PingOk(Told(m, id, a), k)
  {
    var r := Told(m, id, a);
    ToldKeeps(m.client, m.unsent, m.sending, LedgerOf(m, k), k, id, a, LedgerOf(r, k));
    forall j | 0 <= j < |m.servers|
      ensures ServerPing(r.servers[j], HeldAt(r.ledger, j, k), k)
    {
      assert ServerPing(m.servers[j], HeldAt(m.ledger, j, k), k);
      Unheard(m.servers[j], HeldAt(m.ledger, j, k), HeldAt(r.ledger, j, k), k);
    }
  }

  /** A server does not depend on what the client has sent or been told. */
  lemma Unheard(sv: Server, l: Ledger, r: Ledger, k: nat)
    requires ServerPing(sv, l, k)
    requires r == l || r == l.(arrivals := r.arrivals) || r == l.(sent := r.sent) || r == l.(dst := r.dst)
    ensures ServerPing(sv, r, k)
  {
  }

  lemma CompletedKeeps(s: State, id: nat, time: nat, ok: bool, k: nat)
    requires R.Inv(s.client) && PingOk(s, k) && PingOk(s, id)
    ensures PingOk(Completed(s, id, time, ok), k)
  {
    if id in s.sending {
      var m := s.(sending := s.sending - multiset{id});
      if ok {
        if id == k {
          FabricCqe(s.fabric, LedgerOf(s, k), k, time);
        }
        ToldState(m, id, R.Cqe(time), k);
      }
    }
  }

  lemma ReceiveKeeps(s: State, msg: Msg, recv: nat, cqe: nat, k: nat)
    requires R.Inv(s.client) && PingOk(s, k) && PingOk(s, msg.id)
    ensures PingOk(Receive(s, msg, recv, cqe), k)
  {
    if msg in s.fabric && !msg.Ping? {
      var m := s.(fabric := s.fabric - multiset{msg});
      var a := if msg.Pong? then R.Pong(recv, cqe) else R.Ack(msg.delay);
      FabricReceive(s.fabric, LedgerOf(s, k), k, msg, a, LedgerOf(Told(m, msg.id, a), k));
      ToldState(m, msg.id, a, k);
    }
  }

  lemma PostKeeps(s: State, ok: bool, k: nat)
    requires PingOk(s, k) && IdsOk(s)
    ensures PingOk(Post(s, ok), k)
  {
    if s.unsent != [] && ok {
      var id, r := s.unsent[0], Post(s, ok);
      assert id in s.unsent;
      FabricPost(s.fabric, LedgerOf(s, k), k, id, LedgerOf(s, id).dst, LedgerOf(r, k));
      forall j | 0 <= j < |s.servers|
        ensures ServerPing(r.servers[j], HeldAt(r.ledger, j, k), k)
      {
        assert ServerPing(s.servers[j], HeldAt(s.ledger, j, k), k);
        Unheard(s.servers[j], HeldAt(s.ledger, j, k), HeldAt(r.ledger, j, k), k);
      }
    }
  }

  lemma RecordKeeps(s: State, ev: Event, k: nat)
    requires R.Inv(s.client) && PingOk(s, k) && IdsOk(s) && ev.ClientRecord?
    ensures PingOk(Next(s, ev), k)
  {
    if s.unsent == [] && s.uid < MODULO && ev.dst < |s.servers| {
      var r := Next(s, ev);
      PingidIsSum(s.ip, s.uid);
      assert NextId(s) !in s.ledger;
      KeptInsert(s.client, NextId(s), ev.dstip, ev.systemNow, ev.wait1, ev.wait2, k, LedgerOf(s, k).arrivals);
      forall j | 0 <= j < |s.servers|
        ensures ServerPing(r.servers[j], HeldAt(r.ledger, j, k), k)
      {
        assert ServerPing(s.servers[j], HeldAt(s.ledger, j, k), k);
        Unheard(s.servers[j], HeldAt(s.ledger, j, k), HeldAt(r.ledger, j, k), k);
      }
    }
  }

  lemma LoseKeeps(s: State, msg: Msg, k: nat)
    requires PingOk(s, k)
    ensures PingOk(s.(fabric := s.fabric - multiset{msg}), k)
  {
    FabricLess(s.fabric, LedgerOf(s, k), k, msg);
  }
}
