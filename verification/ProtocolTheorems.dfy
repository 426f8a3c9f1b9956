/** What holds over every run of the ping protocol. */
module ProtocolTheorems {
  import opened TimeDelta
  import opened PingId
  import opened Protocol
  import opened ProtocolProof
  import R = RdmaPingTable

  // ---------------------------------------------------------------- every run

  /** An event that changes the ledger concerns a ping that is in it. */
  ghost predicate Known(s: State, ev: Event) {
    match ev
    case ClientCompletion(id, _, _) => id in s.sending ==> id in s.ledger
    case ClientReceive(msg, _, _) => msg in s.fabric ==> msg.id in s.ledger
    case ServerTake(j, id, _, _) => Ping(id, j) in s.fabric ==> id in s.ledger
    case SenderPost(j, _) =>
      j < |s.servers| && s.servers[j].sender.Posting? ==> s.servers[j].sender.m.id in s.ledger
    case SendCompletion(j, wrId, _, _) =>
      j < |s.servers| && wrId in s.servers[j].posted && wrId != WRID_PONG_ACK ==> wrId in s.ledger
    case CompleterAck(j, _) =>
      j < |s.servers| && s.servers[j].completer.Acking? ==> s.servers[j].completer.id in s.ledger
    case _ => true
  }

  lemma HeldIsKnown(s: State, j: nat, id: nat)
    requires Inv(s) && j < |s.servers|
    requires InHand(s.servers[j].sender, id) == 1 || AckDue(s.servers[j].completer, id) == 1 ||
             (id != WRID_PONG_ACK && id in s.servers[j].posted)
    ensures id in s.ledger
  {
    assert PingOk(s, id);
    HeldIsHere(s, j, id);
  }

  lemma EventIsKnown(s: State, ev: Event)
    requires Inv(s)
    ensures Known(s, ev)
  {
    match ev
    case ClientCompletion(id, _, _) => assert PingOk(s, id);
    case ClientReceive(msg, _, _) => assert PingOk(s, msg.id);
    case ServerTake(_, id, _, _) => assert PingOk(s, id);
    case SenderPost(j, _) =>
      if j < |s.servers| && s.servers[j].sender.Posting? {
        HeldIsKnown(s, j, s.servers[j].sender.m.id);
      }
    case SendCompletion(j, wrId, _, _) =>
      if j < |s.servers| && wrId in s.servers[j].posted && wrId != WRID_PONG_ACK {
        HeldIsKnown(s, j, wrId);
      }
    case CompleterAck(j, _) =>
      if j < |s.servers| && s.servers[j].completer.Acking? {
        HeldIsKnown(s, j, s.servers[j].completer.id);
      }
    case _ =>
  }

  ghost predicate SameIds(s: State, r: State) {
    && r.ledger.Keys == s.ledger.Keys && (forall k :: k in s.ledger ==> r.ledger[k].dst == s.ledger[k].dst)
    && |r.servers| == |s.servers| && r.unsent == s.unsent && r.ip == s.ip && r.uid == s.uid
  }

  lemma SameIdsOk(s: State, r: State)
    requires IdsOk(s) && SameIds(s, r)
    ensures IdsOk(r)
  {
  }

  /** Another server, and the same ping with its destination as before. */
  lemma OnePingMoves(s: State, r: State, j: nat, id: nat)
    requires id in s.ledger && j < |s.servers|
    requires r == s.(servers := r.servers, ledger := r.ledger, fabric := r.fabric)
    requires |r.servers| == |s.servers|
    requires r.ledger == s.ledger || (id in r.ledger && r.ledger == s.ledger[id := r.ledger[id]] &&
                                      r.ledger[id].dst == s.ledger[id].dst)
    ensures SameIds(s, r) && r.client == s.client
  {
  }

  ghost predicate OfServer(ev: Event) {
    !ev.ClientRecord? && !ev.ClientPost? && !ev.ClientCompletion? && !ev.ClientReceive? && !ev.Lose?
  }

  /** A server's step adds no ping to the ledger and moves none. */
  lemma ServerIdsKept(s: State, j: nat, ev: Event, r: State)
    requires OfServer(ev) && Known(s, ev) && j < |s.servers| && ev.j == j && r == AtServer(s, j, ev)
    ensures SameIds(s, r) && r.client == s.client
  {
    var sv := s.servers[j];
    if ev.ServerTake? && Ping(ev.id, j) in s.fabric {
      OnePingMoves(s, r, j, ev.id);
    } else if ev.SenderPost? && sv.sender.Posting? {
      OnePingMoves(s, r, j, sv.sender.m.id);
    } else if ev.SendCompletion? && ev.wrId in sv.posted && ev.wrId != WRID_PONG_ACK {
      OnePingMoves(s, r, j, ev.wrId);
    } else if ev.CompleterAck? && sv.completer.Acking? {
      OnePingMoves(s, r, j, sv.completer.id);
    }
  }

  lemma RecordIds(s: State, dst: nat, dstip: nat, systemNow: nat, wait1: nat, wait2: nat, r: State)
    requires IdsOk(s) && r == Record(s, dst, dstip, systemNow, wait1, wait2)
    ensures IdsOk(r)
  {
    if s.uid < MODULO {
      PingidIsSum(s.ip, s.uid);
    }
  }

  lemma PostIds(s: State, ok: bool, r: State)
    requires IdsOk(s) && r == Post(s, ok)
    ensures IdsOk(r)
  {
    if s.unsent != [] {
      assert s.unsent[0] in s.unsent;
    }
  }

  lemma ToldIds(s: State, id: nat, a: R.Arrival, r: State)
    requires IdsOk(s) && id in s.ledger && r == Told(s, id, a)
    ensures IdsOk(r)
  {
  }

  lemma IdsKept(s: State, ev: Event)
    requires IdsOk(s) && Known(s, ev)
    ensures IdsOk(Next(s, ev))
  {
    match ev
    case ClientRecord(dst, dstip, systemNow, wait1, wait2) =>
      RecordIds(s, dst, dstip, systemNow, wait1, wait2, Next(s, ev));
    case ClientPost(ok) => PostIds(s, ok, Next(s, ev));
    case ClientCompletion(id, time, ok) =>
      if id in s.sending && ok {
        ToldIds(s.(sending := s.sending - multiset{id}), id, R.Cqe(time), Next(s, ev));
      }
    case ClientReceive(msg, recv, cqe) =>
      if msg in s.fabric && !msg.Ping? {
        ToldIds(s.(fabric := s.fabric - multiset{msg}), msg.id,
                if msg.Pong? then R.Pong(recv, cqe) else R.Ack(msg.delay), Next(s, ev));
      }
    case Lose(_) =>
    case _ =>
      if ev.j < |s.servers| {
        ServerIdsKept(s, ev.j, ev, Next(s, ev));
        SameIdsOk(s, Next(s, ev));
      }
  }

  lemma ClientKept(s: State, ev: Event)
    requires R.Inv(s.client)
    ensures R.Inv(Next(s, ev).client)
  {
    if ev.ClientRecord? {
      R.NextKeepsInv(s.client, R.Insert(NextId(s), NextId(s), ev.dstip, ev.systemNow, ev.wait1, ev.wait2));
    } else if ev.ClientCompletion? {
      R.NextKeepsInv(s.client, R.Arrive(ev.id, R.Cqe(ev.time)));
    } else if ev.ClientReceive? && !ev.msg.Ping? {
      var a := if ev.msg.Pong? then R.Pong(ev.recv, ev.cqe) else R.Ack(ev.msg.delay);
      R.NextKeepsInv(s.client, R.Arrive(ev.msg.id, a));
    }
  }

  lemma PingKept(s: State, ev: Event, k: nat)
    requires Inv(s)
    ensures PingOk(Next(s, ev), k)
  {
    assert PingOk(s, k);
    match ev
    case ClientRecord(_, _, _, _, _) => RecordKeeps(s, ev, k);
    case ClientPost(ok) => PostKeeps(s, ok, k);
    case ClientCompletion(id, time, ok) =>
      assert PingOk(s, id);
      CompletedKeeps(s, id, time, ok, k);
    case ClientReceive(msg, recv, cqe) =>
      assert PingOk(s, msg.id);
      ReceiveKeeps(s, msg, recv, cqe, k);
    case Lose(msg) => LoseKeeps(s, msg, k);
    case _ => ServerEventKept(s, ev, k);
  }

  lemma ServerEventKept(s: State, ev: Event, k: nat)
    requires Inv(s) && !ev.ClientRecord? && !ev.ClientPost? && !ev.ClientCompletion? && !ev.ClientReceive? && !ev.Lose?
    ensures PingOk(Next(s, ev), k)
  {
    assert PingOk(s, k);
    if ev.j < |s.servers| {
      ServerPingKept(s, ev.j, ev, k);
    }
  }

  lemma ServerPingKept(s: State, j: nat, ev: Event, k: nat)
    requires Inv(s) && j < |s.servers|
    ensures PingOk(AtServer(s, j, ev), k)
  {
    assert PingOk(s, k);
    match ev
    case ServerTake(_, id, _, _) =>
      assert PingOk(s, id);
      if Ping(id, j) in s.fabric {
        HeldIsHere(s, j, id);
        ServerTakeKeeps(s, j, ev, k);
      }
    case SenderPost(_, _) =>
      if s.servers[j].sender.Posting? {
        assert PingOk(s, s.servers[j].sender.m.id);
      }
      SenderPostKeeps(s, j, ev, k);
    case SendCompletion(_, wrId, _, _) =>
      assert PingOk(s, wrId);
      SendCompletionKeeps(s, j, ev, k);
    case CompleterAck(_, _) =>
      if s.servers[j].completer.Acking? {
        assert PingOk(s, s.servers[j].completer.id);
      }
      CompleterAckKeeps(s, j, ev, k);
    case _ =>
      if ev.SenderDequeue? || ev.SenderStore? || ev.CompleterLook? || ev.CompleterDrop? {
        InnerKeeps(s, j, ev, k);
      }
  }

  lemma NextKeepsInv(s: State, ev: Event)
    requires Inv(s)
    ensures Inv(Next(s, ev))
  {
    EventIsKnown(s, ev);
    IdsKept(s, ev);
    ClientKept(s, ev);
    forall k: nat
      ensures PingOk(Next(s, ev), k)
    {
      PingKept(s, ev, k);
    }
  }

  lemma {:induction false} RunKeepsInv(s: State, evs: seq<Event>)
    requires Inv(s)
    ensures Inv(Run(s, evs))
  {
    if evs != [] {
      RunKeepsInv(s, evs[..|evs| - 1]);
      NextKeepsInv(Run(s, evs[..|evs| - 1]), evs[|evs| - 1]);
    }
  }

  lemma StartInv(ip: nat, threshold: int, clock: nat, n: nat)
    requires ip > 0
    ensures Inv(Start(ip, threshold, clock, n))
  {
  }

  // ------------------------------------------------------------------- theorems

  /** At every moment of every run, and for each ping: the server takes it at most
      once, posts its PONG only after taking it, and its ACK only after its PONG's
      send has completed; at most one of each; and the ACK carries the time from
      the arrival to that completion, modulo 2^32. */
  lemma AtMostOnceInOrder(ip: nat, threshold: int, clock: nat, n: nat, evs: seq<Event>, k: nat)
    requires ip > 0
    ensures var s := Run(Start(ip, threshold, clock, n), evs);
            k in s.ledger ==>
              var l := s.ledger[k];
              && |l.acks| <= l.completed <= l.pongs <= l.taken <= l.sent <= 1
              && (l.acks != [] ==> l.acks == [DeltaModulo(l.arrival, l.completion, MODULO)])
  {
    StartInv(ip, threshold, clock, n);
    RunKeepsInv(Start(ip, threshold, clock, n), evs);
    OncePerPing(Run(Start(ip, threshold, clock, n), evs), k);
  }

  lemma OncePerPing(s: State, k: nat)
    requires IdsOk(s) && PingOk(s, k)
    ensures k in s.ledger ==>
              var l := s.ledger[k];
              && |l.acks| <= l.completed <= l.pongs <= l.taken <= l.sent <= 1
              && (l.acks != [] ==> l.acks == [DeltaModulo(l.arrival, l.completion, MODULO)])
  {
    if k in s.ledger {
      assert ServerPing(s.servers[s.ledger[k].dst], HeldAt(s.ledger, s.ledger[k].dst, k), k);
    }
  }

  /** End to end: a result SUCCESS or WEIRD for a ping means that its server took
      the PING exactly once, posted one PONG and one ACK, the ACK after the PONG's
      send completed, and that the server delay reported is that server's time
      from arrival to completion, modulo 2^32. */
  lemma ResultMeansRoundTrip(ip: nat, threshold: int, clock: nat, n: nat, evs: seq<Event>, o: R.Outcome)
    requires ip > 0 && o in Run(Start(ip, threshold, clock, n), evs).client.outcomes
    requires o.Reported? && o.result.kind != R.FAILURE
    ensures var s := Run(Start(ip, threshold, clock, n), evs);
            && o.result.pingid in s.ledger
            && var l := s.ledger[o.result.pingid];
            && l.sent == l.taken == l.pongs == l.completed == 1
            && l.acks == [o.result.server]
            && o.result.server == DeltaModulo(l.arrival, l.completion, MODULO)
  {
    StartInv(ip, threshold, clock, n);
    RunKeepsInv(Start(ip, threshold, clock, n), evs);
    ResultMeans(Run(Start(ip, threshold, clock, n), evs), o);
  }

  lemma ResultMeans(s: State, o: R.Outcome)
    requires Inv(s) && o in s.client.outcomes && o.Reported? && o.result.kind != R.FAILURE
    ensures && o.result.pingid in s.ledger
            && var l := s.ledger[o.result.pingid];
            && l.sent == l.taken == l.pongs == l.completed == 1
            && l.acks == [o.result.server]
            && o.result.server == DeltaModulo(l.arrival, l.completion, MODULO)
  {
    var k := o.result.pingid;
    assert PingOk(s, k) && R.IdOf(o) == k;
    assert R.Ack(o.result.server) in LedgerOf(s, k).arrivals;
    OncePerPing(s, k);
  }

  lemma OnlyThreeParts(a: R.Part, b: R.Part, c: R.Part, d: R.Part)
    ensures a == b || a == c || a == d || b == c || b == d || c == d
  {
  }

  /** Arrivals of different kinds are at most three, and three are one of each. */
  lemma ApartAtMostThree(q: seq<R.Arrival>)
    requires Apart(q)
    ensures |q| <= 3 && (|q| == 3 ==> R.OnceEach(q))
  {
    if |q| > 3 {
      OnlyThreeParts(R.PartOf(q[0]), R.PartOf(q[1]), R.PartOf(q[2]), R.PartOf(q[3]));
    }
  }

  /** No ping is ever dropped as corrupted or overlaid. */
  lemma NeverCorrupted(ip: nat, threshold: int, clock: nat, n: nat, evs: seq<Event>, o: R.Outcome)
    requires ip > 0 && o in Run(Start(ip, threshold, clock, n), evs).client.outcomes
    ensures o.Reported?
  {
    var s := Run(Start(ip, threshold, clock, n), evs);
    StartInv(ip, threshold, clock, n);
    RunKeepsInv(Start(ip, threshold, clock, n), evs);
    NotSilent(s, o);
  }

  lemma NotSilent(s: State, o: R.Outcome)
    requires Inv(s) && o in s.client.outcomes
    ensures o.Reported?
  {
    var k := R.IdOf(o);
    assert PingOk(s, k);
    assert Apart(o.arrivals);
    ApartAtMostThree(o.arrivals);
    assert R.OutcomeOk(o);
  }

  // ---------------------------------------------- one outcome for each ping sent

  /** Every ping recorded was inserted, once. */
  ghost predicate Accounted(s: State) {
    R.Conserved(s.client) && forall k: nat :: s.client.inserted[k] == if k in s.ledger then 1 else 0
  }

  lemma NewIdIsAbsent(c: R.State, id: nat)
    requires R.Inv(c) && R.Conserved(c) && c.inserted[id] == 0
    ensures id !in c.table.entries
  {
    R.InvCounts(c, id);
  }

  lemma InsertCounts(c: R.State, id: nat, dstip: nat, systemNow: nat, wait1: nat, wait2: nat)
    requires R.Inv(c) && id !in c.table.entries
    ensures R.Next(c, R.Insert(id, id, dstip, systemNow, wait1, wait2)).inserted == c.inserted + multiset{id}
  {
    ExpireShrinks(c.table, c.clock + wait1, c.threshold);
  }

  lemma OneMoreAccounted(s: State, id: nat, r: State)
    requires Accounted(s) && id !in s.ledger && R.Conserved(r.client) &&
             r.client.inserted == s.client.inserted + multiset{id}
    requires r.ledger.Keys == s.ledger.Keys + {id}
    ensures Accounted(r)
  {
  }

  lemma RecordAccounted(s: State, ev: Event, r: State)
    requires R.Inv(s.client) && IdsOk(s) && Accounted(s) && ev.ClientRecord?
    requires r == Record(s, ev.dst, ev.dstip, ev.systemNow, ev.wait1, ev.wait2)
    ensures Accounted(r)
  {
    if s.unsent == [] && s.uid < MODULO && ev.dst < |s.servers| {
      var id := NextId(s);
      PingidIsSum(s.ip, s.uid);
      assert id !in s.ledger;
      NewIdIsAbsent(s.client, id);
      InsertCounts(s.client, id, ev.dstip, ev.systemNow, ev.wait1, ev.wait2);
      R.InvIsKeyed(s.client);
      R.NextConserves(s.client, R.Insert(id, id, ev.dstip, ev.systemNow, ev.wait1, ev.wait2), r.client);
      OneMoreAccounted(s, id, r);
    }
  }

  lemma TellAccounted(s: State, id: nat, a: R.Arrival)
    requires R.Inv(s.client) && Accounted(s) && id in s.ledger
    ensures Accounted(Told(s, id, a))
  {
    R.InvIsKeyed(s.client);
    R.NextConserves(s.client, R.Arrive(id, a), Told(s, id, a).client);
  }

  lemma NextAccounted(s: State, ev: Event)
    requires R.Inv(s.client) && IdsOk(s) && Known(s, ev) && Accounted(s)
    ensures Accounted(Next(s, ev))
  {
    match ev
    case ClientRecord(_, _, _, _, _) => RecordAccounted(s, ev, Next(s, ev));
    case ClientPost(_) =>
      if s.unsent != [] {
        assert s.unsent[0] in s.unsent;
      }
    case ClientCompletion(id, time, ok) =>
      if id in s.sending && ok {
        TellAccounted(s.(sending := s.sending - multiset{id}), id, R.Cqe(time));
      }
    case ClientReceive(msg, recv, cqe) =>
      if msg in s.fabric && !msg.Ping? {
        TellAccounted(s.(fabric := s.fabric - multiset{msg}), msg.id,
                      if msg.Pong? then R.Pong(recv, cqe) else R.Ack(msg.delay));
      }
    case Lose(_) =>
    case _ =>
      if ev.j < |s.servers| {
        ServerIdsKept(s, ev.j, ev, Next(s, ev));
      }
  }

  lemma {:induction false} RunAccounted(s: State, evs: seq<Event>)
    requires Inv(s) && Accounted(s)
    ensures Accounted(Run(s, evs))
  {
    if evs != [] {
      RunAccounted(s, evs[..|evs| - 1]);
      RunKeepsInv(s, evs[..|evs| - 1]);
      EventIsKnown(Run(s, evs[..|evs| - 1]), evs[|evs| - 1]);
      NextAccounted(Run(s, evs[..|evs| - 1]), evs[|evs| - 1]);
    }
  }

  /** At every moment of every run, each ping recorded is waiting in the table or
      has had exactly one result, not both; and nothing else has. */
  lemma OneResultPerPing(ip: nat, threshold: int, clock: nat, n: nat, evs: seq<Event>, k: nat)
    requires ip > 0
    ensures var s := Run(Start(ip, threshold, clock, n), evs);
            |R.OutcomesFor(s.client.outcomes, k)| + (if k in s.client.table.entries then 1 else 0)
            == if k in s.ledger then 1 else 0
  {
    var s0 := Start(ip, threshold, clock, n);
    StartInv(ip, threshold, clock, n);
    RunKeepsInv(s0, evs);
    RunAccounted(s0, evs);
    R.InvCounts(Run(s0, evs).client, k);
  }
}
