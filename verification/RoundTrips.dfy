/** What the client reports of a ping, told in the events of a whole run: which events
    the numbers of a result were read from. */
module RoundTrips {
  import opened TimeDelta
  import opened PingId
  import opened Protocol
  import opened ProtocolProof
  import opened ProtocolTheorems
  import opened PingResults
  import R = RdmaPingTable

  // ------------------------------------------------------------------ telling events

  /** The client records ping `k`. */
  predicate Records(s: State, ev: Event, k: nat) {
    ev.ClientRecord? && s.unsent == [] && s.uid < MODULO && ev.dst < |s.servers| && k == MakePingid(s.ip, s.uid)
  }

  /** The send of its PING completes successfully. */
  predicate Completes(s: State, ev: Event, k: nat) {
    ev.ClientCompletion? && ev.id == k && ev.ok && k in s.sending
  }

  predicate DeliversPong(s: State, ev: Event, k: nat) {
    ev.ClientReceive? && ev.msg == Pong(k) && Pong(k) in s.fabric
  }

  predicate DeliversAck(s: State, ev: Event, k: nat) {
    ev.ClientReceive? && ev.msg.Ack? && ev.msg.id == k && ev.msg in s.fabric
  }

  /** Server `ev.j` receives its PING. */
  predicate Takes(s: State, ev: Event, k: nat) {
    ev.ServerTake? && ev.id == k && ev.j < |s.servers| && Ping(k, ev.j) in s.fabric
  }

  /** The send of its PONG completes successfully at server `ev.j`. */
  predicate SendsPong(s: State, ev: Event, k: nat) {
    && ev.SendCompletion? && ev.wrId == k && ev.ok && k != WRID_PONG_ACK && ev.j < |s.servers|
    && s.servers[ev.j].completer == Polling && k in s.servers[ev.j].posted
  }

  /** What the client hears of ping `k`. */
  function HeardBy(s: State, ev: Event, k: nat): seq<R.Arrival> {
    if Completes(s, ev, k) then [R.Cqe(ev.time)]
    else if DeliversPong(s, ev, k) then [R.Pong(ev.recv, ev.cqe)]
    else if DeliversAck(s, ev, k) then [R.Ack(ev.msg.delay)]
    else []
  }

  // ------------------------------------------------------------- what a step records

  /** What a step adds to ping `k`'s ledger. */
  ghost predicate Noted(s: State, ev: Event, k: nat, l: Ledger, r: Ledger) {
    && r.dst == l.dst && r.arrivals == l.arrivals + HeardBy(s, ev, k)
    && (if Takes(s, ev, k) then r.taken == l.taken + 1 && r.arrival == ev.time && ev.j == l.dst
        else r.taken == l.taken && r.arrival == l.arrival)
    && (if SendsPong(s, ev, k) then r.completed == l.completed + 1 && r.completion == ev.time && ev.j == l.dst
        else r.completed == l.completed && r.completion == l.completion)
  }

  lemma ToldLedger(m: State, id: nat, a: R.Arrival, k: nat)
    requires id in m.ledger
    ensures LedgerOf(Told(m, id, a), k) ==
            if id == k then LedgerOf(m, k).(arrivals := LedgerOf(m, k).arrivals + [a]) else LedgerOf(m, k)
  {
  }

  lemma CompletionLedger(s: State, ev: Event, k: nat, z: State)
    requires ev.ClientCompletion? && Known(s, ev) && z == Completed(s, ev.id, ev.time, ev.ok)
    ensures Noted(s, ev, k, LedgerOf(s, k), LedgerOf(z, k))
  {
    if ev.id in s.sending && ev.ok {
      ToldLedger(s.(sending := s.sending - multiset{ev.id}), ev.id, R.Cqe(ev.time), k);
    }
  }

  lemma ReceiveLedger(s: State, ev: Event, k: nat, z: State)
    requires ev.ClientReceive? && Known(s, ev) && z == Receive(s, ev.msg, ev.recv, ev.cqe)
    ensures Noted(s, ev, k, LedgerOf(s, k), LedgerOf(z, k))
  {
    if ev.msg in s.fabric && !ev.msg.Ping? {
      ToldLedger(s.(fabric := s.fabric - multiset{ev.msg}), ev.msg.id,
                 if ev.msg.Pong? then R.Pong(ev.recv, ev.cqe) else R.Ack(ev.msg.delay), k);
    }
  }

  lemma SentLedger(s: State, ev: Event, k: nat, z: State)
    requires IdsOk(s) && (ev.ClientRecord? || ev.ClientPost? || ev.Lose?) && k in s.ledger && z == Next(s, ev)
    ensures Noted(s, ev, k, LedgerOf(s, k), LedgerOf(z, k))
  {
    if ev.ClientRecord? && s.uid < MODULO {
      PingidIsSum(s.ip, s.uid);
    }
  }

  lemma TakeLedger(s: State, j: nat, ev: Event, k: nat, z: State)
    requires ev.ServerTake? && ev.j == j < |s.servers| && z == AtServer(s, j, ev)
    requires Takes(s, ev, k) ==> LedgerOf(s, k).dst == j
    ensures Noted(s, ev, k, LedgerOf(s, k), LedgerOf(z, k))
  {
  }

  lemma PongLedger(s: State, j: nat, ev: Event, k: nat, z: State)
    requires ev.SendCompletion? && ev.j == j < |s.servers| && z == AtServer(s, j, ev)
    requires SendsPong(s, ev, k) ==> LedgerOf(s, k).dst == j
    ensures Noted(s, ev, k, LedgerOf(s, k), LedgerOf(z, k))
  {
  }

  lemma QuietLedger(s: State, j: nat, ev: Event, k: nat, z: State)
    requires OfServer(ev) && !ev.ServerTake? && !ev.SendCompletion? && ev.j == j < |s.servers|
    requires z == AtServer(s, j, ev)
    ensures Noted(s, ev, k, LedgerOf(s, k), LedgerOf(z, k))
  {
  }

  lemma ServerLedger(s: State, j: nat, ev: Event, k: nat, z: State)
    requires Inv(s) && OfServer(ev) && ev.j == j < |s.servers| && z == AtServer(s, j, ev)
    ensures Noted(s, ev, k, LedgerOf(s, k), LedgerOf(z, k))
  {
    if Takes(s, ev, k) || SendsPong(s, ev, k) {
      assert PingOk(s, k);
      HeldIsHere(s, j, k);
    }
    if ev.ServerTake? {
      TakeLedger(s, j, ev, k, z);
    } else if ev.SendCompletion? {
      PongLedger(s, j, ev, k, z);
    } else {
      QuietLedger(s, j, ev, k, z);
    }
  }

  lemma NextLedger(s: State, ev: Event, k: nat, z: State)
    requires Inv(s) && k in s.ledger && z == Next(s, ev)
    ensures Noted(s, ev, k, LedgerOf(s, k), LedgerOf(z, k))
  {
    EventIsKnown(s, ev);
    if ev.ClientCompletion? {
      CompletionLedger(s, ev, k, z);
    } else if ev.ClientReceive? {
      ReceiveLedger(s, ev, k, z);
    } else if !OfServer(ev) {
      SentLedger(s, ev, k, z);
    } else if ev.j < |s.servers| {
      ServerLedger(s, ev.j, ev, k, z);
    }
  }

  lemma LedgerKept(s: State, ev: Event, k: nat)
    requires k in s.ledger
    ensures k in Next(s, ev).ledger
  {
  }

  lemma ServerAddsNone(s: State, ev: Event, k: nat)
    requires Known(s, ev)
    ensures OfServer(ev) && k in Next(s, ev).ledger ==> k in s.ledger
  {
    if OfServer(ev) && ev.j < |s.servers| {
      ServerIdsKept(s, ev.j, ev, Next(s, ev));
    }
  }

  lemma NewPing(s: State, ev: Event, k: nat)
    requires IdsOk(s) && Known(s, ev) && k !in s.ledger && k in Next(s, ev).ledger
    ensures Records(s, ev, k) && LedgerOf(Next(s, ev), k) == Blank(ev.dst)
  {
    ServerAddsNone(s, ev, k);
  }

  // --------------------------------------------------------------- the client's table

  lemma SameTracked(c: R.State, k: nat, f: R.Info, t: int, q: seq<R.Arrival>)
    requires R.Inv(c) && Tracked(c, k, 0, f, t, q)
    ensures Tracked(c, k, 0, f, t, q + [])
  {
    assert q + [] == q;
  }

  lemma ArriveTracked(c: R.State, id: nat, a: R.Arrival, r: R.State, k: nat, f: R.Info, t: int, q: seq<R.Arrival>,
                      p: seq<R.Arrival>)
    requires R.Inv(c) && Tracked(c, k, 0, f, t, q) && f.arrivals == []
    requires r == R.Next(c, R.Arrive(id, a)) && p == q + (if id == k then [a] else [])
    ensures Tracked(r, k, 0, f, t, p)
  {
    NextTracked(c, R.Arrive(id, a), r, k, 0, f, t, q);
  }

  lemma InsertTracked(c: R.State, id: nat, dstip: nat, systemNow: nat, wait1: nat, wait2: nat, k: nat, f: R.Info,
                      t: int, q: seq<R.Arrival>)
    requires R.Inv(c) && Tracked(c, k, 0, f, t, q) && f.arrivals == []
    ensures Tracked(R.Next(c, R.Insert(id, id, dstip, systemNow, wait1, wait2)), k, 0, f, t, q + [])
  {
    var ev := R.Insert(id, id, dstip, systemNow, wait1, wait2);
    NextTracked(c, ev, R.Next(c, ev), k, 0, f, t, q);
  }

  /** The client is told of `id`. */
  lemma ToldTracked(m: State, id: nat, a: R.Arrival, z: State, k: nat, f: R.Info, t: int, q: seq<R.Arrival>,
                    p: seq<R.Arrival>)
    requires R.Inv(m.client) && Tracked(m.client, k, 0, f, t, q) && f.arrivals == []
    requires z == Told(m, id, a) && p == q + (if id == k then [a] else [])
    ensures Tracked(z.client, k, 0, f, t, p)
  {
    ArriveTracked(m.client, id, a, z.client, k, f, t, q, p);
  }

  /** The client is not told of anything. */
  predicate Quiet(s: State, ev: Event) {
    match ev
    case ClientCompletion(id, _, ok) => id !in s.sending || !ok
    case ClientReceive(msg, _, _) => msg !in s.fabric || msg.Ping?
    case _ => false
  }

  lemma CompletionTracked(s: State, ev: Event, z: State, k: nat, f: R.Info, t: int, q: seq<R.Arrival>)
    requires R.Inv(s.client) && Tracked(s.client, k, 0, f, t, q) && f.arrivals == []
    requires ev.ClientCompletion? && !Quiet(s, ev) && z == Completed(s, ev.id, ev.time, ev.ok)
    ensures Tracked(z.client, k, 0, f, t, q + HeardBy(s, ev, k))
  {
    ToldTracked(s.(sending := s.sending - multiset{ev.id}), ev.id, R.Cqe(ev.time), z, k, f, t, q,
                q + HeardBy(s, ev, k));
  }

  lemma PongTracked(s: State, ev: Event, z: State, k: nat, f: R.Info, t: int, q: seq<R.Arrival>)
    requires R.Inv(s.client) && Tracked(s.client, k, 0, f, t, q) && f.arrivals == []
    requires ev.ClientReceive? && ev.msg.Pong? && !Quiet(s, ev) && z == Receive(s, ev.msg, ev.recv, ev.cqe)
    ensures Tracked(z.client, k, 0, f, t, q + HeardBy(s, ev, k))
  {
    ToldTracked(s.(fabric := s.fabric - multiset{ev.msg}), ev.msg.id, R.Pong(ev.recv, ev.cqe), z, k, f, t, q,
                q + HeardBy(s, ev, k));
  }

  lemma AckTracked(s: State, ev: Event, z: State, k: nat, f: R.Info, t: int, q: seq<R.Arrival>)
    requires R.Inv(s.client) && Tracked(s.client, k, 0, f, t, q) && f.arrivals == []
    requires ev.ClientReceive? && ev.msg.Ack? && !Quiet(s, ev) && z == Receive(s, ev.msg, ev.recv, ev.cqe)
    ensures Tracked(z.client, k, 0, f, t, q + HeardBy(s, ev, k))
  {
    ToldTracked(s.(fabric := s.fabric - multiset{ev.msg}), ev.msg.id, R.Ack(ev.msg.delay), z, k, f, t, q,
                q + HeardBy(s, ev, k));
  }

  lemma ServerLeavesClient(s: State, ev: Event, z: State)
    requires Known(s, ev) && z == Next(s, ev) && OfServer(ev)
    ensures z.client == s.client
  {
    if ev.j < |s.servers| {
      ServerIdsKept(s, ev.j, ev, z);
    }
  }

  /** Nothing for the client in a server's step, a post or a loss. */
  lemma ClientAlone(s: State, ev: Event, z: State, k: nat)
    requires Known(s, ev) && z == Next(s, ev)
    requires Quiet(s, ev) || ev.ClientPost? || ev.Lose? || OfServer(ev)
    ensures z.client == s.client && HeardBy(s, ev, k) == []
  {
    if OfServer(ev) {
      ServerLeavesClient(s, ev, z);
    }
  }

  lemma ClientTracked(s: State, ev: Event, z: State, k: nat, f: R.Info, t: int, q: seq<R.Arrival>)
    requires Inv(s) && z == Next(s, ev) && Tracked(s.client, k, 0, f, t, q) && f.arrivals == []
    ensures Tracked(z.client, k, 0, f, t, q + HeardBy(s, ev, k))
  {
    if ev.ClientRecord? {
      RecordKeepsTracked(s, ev, z, k, f, t, q);
    } else if ev.ClientCompletion? && !Quiet(s, ev) {
      CompletionTracked(s, ev, z, k, f, t, q);
    } else if ev.ClientReceive? && !Quiet(s, ev) && ev.msg.Pong? {
      PongTracked(s, ev, z, k, f, t, q);
    } else if ev.ClientReceive? && !Quiet(s, ev) {
      AckTracked(s, ev, z, k, f, t, q);
    } else {
      EventIsKnown(s, ev);
      ClientAlone(s, ev, z, k);
      SameTracked(s.client, k, f, t, q);
    }
  }

  lemma RecordKeepsTracked(s: State, ev: Event, z: State, k: nat, f: R.Info, t: int, q: seq<R.Arrival>)
    requires R.Inv(s.client) && Tracked(s.client, k, 0, f, t, q) && f.arrivals == []
    requires ev.ClientRecord? && z == Record(s, ev.dst, ev.dstip, ev.systemNow, ev.wait1, ev.wait2)
    ensures Tracked(z.client, k, 0, f, t, q + HeardBy(s, ev, k))
  {
    SameTracked(s.client, k, f, t, q);
    InsertTracked(s.client, NextId(s), ev.dstip, ev.systemNow, ev.wait1, ev.wait2, k, f, t, q);
  }

  lemma NextPingTracked(s: State, ev: Event, z: State, k: nat, f: R.Info, t: int)
    requires Inv(s) && k in s.ledger && z == Next(s, ev) && f.arrivals == []
    requires Tracked(s.client, k, 0, f, t, LedgerOf(s, k).arrivals)
    ensures Tracked(z.client, k, 0, f, t, LedgerOf(z, k).arrivals)
  {
    NextLedger(s, ev, k, z);
    ClientTracked(s, ev, z, k, f, t, LedgerOf(s, k).arrivals);
  }

  /** No outcome is there for a ping not yet recorded, and the insert adds it. */
  lemma FirstTracked(c: R.State, k: nat, dstip: nat, systemNow: nat, wait1: nat, wait2: nat, now: nat, r: R.State)
    requires R.Inv(c) && R.Conserved(c) && c.inserted[k] == 0 && now == c.clock + wait1 + wait2
    requires r == R.Next(c, R.Insert(k, k, dstip, systemNow, wait1, wait2))
    ensures Tracked(r, k, 0, R.FreshInfo(k, dstip, systemNow, now), now, [])
  {
    var ev := R.Insert(k, k, dstip, systemNow, wait1, wait2);
    R.InvCounts(c, k);
    AbsentStep(c, ev, r, k);
    InsertAdds(c, k, dstip, systemNow, wait1, wait2, now, r);
  }

  lemma RecordTracked(s: State, ev: Event, z: State, k: nat, now: nat)
    requires Inv(s) && Accounted(s) && Records(s, ev, k) && z == Next(s, ev)
    requires now == s.client.clock + ev.wait1 + ev.wait2
    ensures k in z.ledger && LedgerOf(z, k).arrivals == []
    ensures Tracked(z.client, k, 0, R.FreshInfo(k, ev.dstip, ev.systemNow, now), now, [])
  {
    PingidIsSum(s.ip, s.uid);
    assert k !in s.ledger;
    FirstTracked(s.client, k, ev.dstip, ev.systemNow, ev.wait1, ev.wait2, now, z.client);
  }

  // ------------------------------------------------------------------------- runs

  ghost predicate Begins(s: State) {
    Inv(s) && Accounted(s) && s.ledger == map[]
  }

  lemma StartBegins(ip: nat, threshold: int, clock: nat, n: nat, s: State)
    requires ip > 0 && s == Start(ip, threshold, clock, n)
    ensures Begins(s)
  {
    StartInv(ip, threshold, clock, n);
  }

  ghost predicate StepAt(run: seq<State>, evs: seq<Event>, i: int)
    requires |run| == |evs| + 1 && 0 <= i < |evs|
  {
    run[i + 1] == Next(run[i], evs[i])
  }

  /** The states of a run, each before the event of its number. */
  ghost predicate IsRun(run: seq<State>, evs: seq<Event>) {
    && |run| == |evs| + 1 && Begins(run[0])
    && forall i :: 0 <= i < |evs| ==> StepAt(run, evs, i)
  }

  ghost predicate AllWell(s: State) { Inv(s) && Accounted(s) }

  lemma StepSound(s: State, ev: Event, z: State)
    requires AllWell(s) && z == Next(s, ev)
    ensures AllWell(z)
  {
    NextKeepsInv(s, ev);
    EventIsKnown(s, ev);
    NextAccounted(s, ev);
  }

  /** What every step from `i` on keeps. */
  lemma {:induction false} Carried(holds: State -> bool, run: seq<State>, i: nat, j: nat)
    requires i <= j < |run| && holds(run[i])
    requires forall x :: i <= x < j && holds(run[x]) ==> holds(run[x + 1])
    ensures holds(run[j])
  {
    if i < j {
      Carried(holds, run, i, j - 1);
      assert holds(run[j - 1 + 1]);
    }
  }

  lemma Sound(run: seq<State>, evs: seq<Event>, i: nat)
    requires IsRun(run, evs) && i <= |evs|
    ensures AllWell(run[i])
  {
    var holds := s => AllWell(s);
    forall x | 0 <= x < i && holds(run[x])
      ensures holds(run[x + 1])
    {
      assert StepAt(run, evs, x);
      StepSound(run[x], evs[x], run[x + 1]);
    }
    Carried(holds, run, 0, i);
  }

  // ------------------------------------------------------ which events it comes from

  lemma {:induction false} RecordOf(run: seq<State>, evs: seq<Event>, j: nat, k: nat) returns (i: nat)
    requires IsRun(run, evs) && j <= |evs| && k in run[j].ledger
    ensures i < j && Records(run[i], evs[i], k)
  {
    i := j - 1;
    Sound(run, evs, i);
    assert StepAt(run, evs, i);
    if k in run[i].ledger {
      i := RecordOf(run, evs, i, k);
    } else {
      EventIsKnown(run[i], evs[i]);
      NewPing(run[i], evs[i], k);
    }
  }

  /** One step back in the ledger of `k`. */
  lemma StepBack(run: seq<State>, evs: seq<Event>, i: nat, k: nat)
    requires IsRun(run, evs) && i < |evs| && k in run[i + 1].ledger
    ensures var s, z := run[i], run[i + 1];
            (k in s.ledger && Noted(s, evs[i], k, LedgerOf(s, k), LedgerOf(z, k))) ||
            (k !in s.ledger && LedgerOf(z, k) == Blank(LedgerOf(z, k).dst))
  {
    Sound(run, evs, i);
    assert StepAt(run, evs, i);
    if k in run[i].ledger {
      NextLedger(run[i], evs[i], k, run[i + 1]);
    } else {
      EventIsKnown(run[i], evs[i]);
      NewPing(run[i], evs[i], k);
    }
  }

  lemma {:induction false} HearingOf(run: seq<State>, evs: seq<Event>, j: nat, k: nat, a: R.Arrival) returns (i: nat)
    requires IsRun(run, evs) && j <= |evs| && k in run[j].ledger && a in LedgerOf(run[j], k).arrivals
    ensures i < j && HeardBy(run[i], evs[i], k) == [a]
  {
    i := j - 1;
    StepBack(run, evs, i, k);
    if k in run[i].ledger && a in LedgerOf(run[i], k).arrivals {
      i := HearingOf(run, evs, i, k, a);
    }
  }

  lemma {:induction false} TakingOf(run: seq<State>, evs: seq<Event>, j: nat, k: nat) returns (i: nat)
    requires IsRun(run, evs) && j <= |evs| && k in run[j].ledger && LedgerOf(run[j], k).taken > 0
    ensures i < j && Takes(run[i], evs[i], k)
    ensures evs[i].time == LedgerOf(run[j], k).arrival && evs[i].j == LedgerOf(run[j], k).dst
  {
    i := j - 1;
    StepBack(run, evs, i, k);
    if !Takes(run[i], evs[i], k) {
      i := TakingOf(run, evs, i, k);
    }
  }

  lemma {:induction false} SendingOf(run: seq<State>, evs: seq<Event>, j: nat, k: nat) returns (i: nat)
    requires IsRun(run, evs) && j <= |evs| && k in run[j].ledger && LedgerOf(run[j], k).completed > 0
    ensures i < j && SendsPong(run[i], evs[i], k)
    ensures evs[i].time == LedgerOf(run[j], k).completion && evs[i].j == LedgerOf(run[j], k).dst
  {
    i := j - 1;
    StepBack(run, evs, i, k);
    if !SendsPong(run[i], evs[i], k) {
      i := SendingOf(run, evs, i, k);
    }
  }

  // ----------------------------------------------------------------- each event once

  predicate Larger(l: Ledger, r: Ledger) {
    l.arrivals <= r.arrivals && l.taken <= r.taken && l.completed <= r.completed && l.dst == r.dst
  }

  lemma LargerStill(l: Ledger, m: Ledger, r: Ledger)
    requires Larger(l, m) && Larger(m, r)
    ensures Larger(l, r)
  {
  }

  lemma NotedLarger(s: State, ev: Event, k: nat, l: Ledger, r: Ledger)
    requires Noted(s, ev, k, l, r)
    ensures Larger(l, r)
  {
  }

  lemma {:induction false} LedgerGrows(run: seq<State>, evs: seq<Event>, i: nat, j: nat, k: nat)
    requires IsRun(run, evs) && i <= j <= |evs| && k in run[i].ledger
    ensures k in run[j].ledger && Larger(LedgerOf(run[i], k), LedgerOf(run[j], k))
  {
    if i < j {
      LedgerGrows(run, evs, i, j - 1, k);
      Onward(run, evs, j - 1, k);
      NotedLarger(run[j - 1], evs[j - 1], k, LedgerOf(run[j - 1], k), LedgerOf(run[j], k));
      LargerStill(LedgerOf(run[i], k), LedgerOf(run[j - 1], k), LedgerOf(run[j], k));
    }
  }

  lemma Onward(run: seq<State>, evs: seq<Event>, i: nat, k: nat)
    requires IsRun(run, evs) && i < |evs| && k in run[i].ledger
    ensures k in run[i + 1].ledger
    ensures Noted(run[i], evs[i], k, LedgerOf(run[i], k), LedgerOf(run[i + 1], k))
  {
    Sound(run, evs, i);
    assert StepAt(run, evs, i);
    NextLedger(run[i], evs[i], k, run[i + 1]);
    LedgerKept(run[i], evs[i], k);
  }

  ghost predicate Concerns(s: State, ev: Event, k: nat) {
    HeardBy(s, ev, k) != [] || Takes(s, ev, k) || SendsPong(s, ev, k)
  }

  /** An event that concerns `k` finds it in the ledger. */
  lemma Concerned(s: State, ev: Event, k: nat)
    requires Inv(s) && Concerns(s, ev, k)
    ensures k in s.ledger
  {
    EventIsKnown(s, ev);
  }

  lemma ConcernedAt(run: seq<State>, evs: seq<Event>, i: nat, k: nat)
    requires IsRun(run, evs) && i < |evs| && Concerns(run[i], evs[i], k)
    ensures k in run[i].ledger
  {
    Sound(run, evs, i);
    Concerned(run[i], evs[i], k);
  }

  /** From an event on that concerns `k` and notes it in the ledger. */
  lemma ConcernedOnward(run: seq<State>, evs: seq<Event>, i: nat, j: nat, k: nat)
    requires IsRun(run, evs) && i < j <= |evs| && Concerns(run[i], evs[i], k)
    ensures Noted(run[i], evs[i], k, LedgerOf(run[i], k), LedgerOf(run[i + 1], k))
    ensures k in run[j].ledger && Larger(LedgerOf(run[i + 1], k), LedgerOf(run[j], k))
  {
    ConcernedAt(run, evs, i, k);
    Onward(run, evs, i, k);
    LedgerGrows(run, evs, i + 1, j, k);
  }

  lemma ApartOnce(p: seq<R.Arrival>, q: seq<R.Arrival>, a: R.Arrival, b: R.Arrival)
    requires p + [a] <= q && Apart(q + [b])
    ensures R.PartOf(a) != R.PartOf(b)
  {
    assert q[|p|] == a;
    assert (q + [b])[|p|] == a && (q + [b])[|q|] == b;
  }

  lemma ApartAt(run: seq<State>, evs: seq<Event>, j: nat, k: nat)
    requires IsRun(run, evs) && j <= |evs|
    ensures Apart(LedgerOf(run[j], k).arrivals)
  {
    Sound(run, evs, j);
    assert PingOk(run[j], k);
  }

  lemma HeardTwice(s: State, ev: Event, l: Ledger, l': Ledger, r: State, ev': Event, m: Ledger, m': Ledger, k: nat,
                   a: R.Arrival, b: R.Arrival)
    requires Noted(s, ev, k, l, l') && Larger(l', m) && Noted(r, ev', k, m, m') && Apart(m'.arrivals)
    requires HeardBy(s, ev, k) == [a] && HeardBy(r, ev', k) == [b]
    ensures R.PartOf(a) != R.PartOf(b)
  {
    ApartOnce(l.arrivals, m.arrivals, a, b);
  }

  /** In any run, a ping's completion, its PONG and its ACK are each heard at most once. */
  lemma HeardOnce(run: seq<State>, evs: seq<Event>, k: nat, i: nat, j: nat, a: R.Arrival, b: R.Arrival)
    requires IsRun(run, evs) && i < j < |evs|
    requires HeardBy(run[i], evs[i], k) == [a] && HeardBy(run[j], evs[j], k) == [b]
    ensures R.PartOf(a) != R.PartOf(b)
  {
    var s, r := run[i], run[j];
    ConcernedOnward(run, evs, i, j, k);
    ConcernedOnward(run, evs, j, j + 1, k);
    ApartAt(run, evs, j + 1, k);
    HeardTwice(s, evs[i], LedgerOf(s, k), LedgerOf(run[i + 1], k), r, evs[j], LedgerOf(r, k),
               LedgerOf(run[j + 1], k), k, a, b);
  }

  lemma ServedAtMostOnce(run: seq<State>, evs: seq<Event>, j: nat, k: nat)
    requires IsRun(run, evs) && j <= |evs| && k in run[j].ledger
    ensures LedgerOf(run[j], k).taken <= 1 && LedgerOf(run[j], k).completed <= 1
  {
    Sound(run, evs, j);
    OncePerPing(run[j], k);
  }

  lemma ServedTwice(s: State, ev: Event, l: Ledger, l': Ledger, r: State, ev': Event, m: Ledger, m': Ledger, k: nat)
    requires Noted(s, ev, k, l, l') && Larger(l', m) && Noted(r, ev', k, m, m') && m'.taken <= 1 && m'.completed <= 1
    ensures !(Takes(s, ev, k) && Takes(r, ev', k)) && !(SendsPong(s, ev, k) && SendsPong(r, ev', k))
  {
  }

  /** The server takes a ping, and sees its PONG sent, at most once. */
  lemma AtServerOnce(run: seq<State>, evs: seq<Event>, k: nat, i: nat, j: nat)
    requires IsRun(run, evs) && i < j < |evs|
    ensures !(Takes(run[i], evs[i], k) && Takes(run[j], evs[j], k))
    ensures !(SendsPong(run[i], evs[i], k) && SendsPong(run[j], evs[j], k))
  {
    var s, r := run[i], run[j];
    if Concerns(s, evs[i], k) && Concerns(r, evs[j], k) {
      ConcernedOnward(run, evs, i, j, k);
      ConcernedOnward(run, evs, j, j + 1, k);
      ServedAtMostOnce(run, evs, j + 1, k);
      ServedTwice(s, evs[i], LedgerOf(s, k), LedgerOf(run[i + 1], k), r, evs[j], LedgerOf(r, k),
                  LedgerOf(run[j + 1], k), k);
    }
  }

  lemma RecordsNew(s: State, ev: Event, k: nat)
    requires IdsOk(s) && Records(s, ev, k)
    ensures k !in s.ledger && k in Next(s, ev).ledger
  {
    PingidIsSum(s.ip, s.uid);
  }

  lemma RecordedOnce(run: seq<State>, evs: seq<Event>, k: nat, i: nat, j: nat)
    requires IsRun(run, evs) && i < j < |evs| && Records(run[i], evs[i], k)
    ensures !Records(run[j], evs[j], k)
  {
    Sound(run, evs, i);
    assert StepAt(run, evs, i);
    RecordsNew(run[i], evs[i], k);
    LedgerGrows(run, evs, i + 1, j, k);
    if Records(run[j], evs[j], k) {
      Sound(run, evs, j);
      RecordsNew(run[j], evs[j], k);
    }
  }

  // -------------------------------------------------------------- what results say

  /** The table has followed ping `k` from its insert on. */
  ghost predicate PingTracked(z: State, k: nat, f: R.Info, t: int) {
    k in z.ledger && Tracked(z.client, k, 0, f, t, LedgerOf(z, k).arrivals)
  }

  lemma StepTracked(s: State, ev: Event, z: State, k: nat, f: R.Info, t: int)
    requires AllWell(s) && PingTracked(s, k, f, t) && z == Next(s, ev) && f.arrivals == []
    ensures PingTracked(z, k, f, t)
  {
    LedgerKept(s, ev, k);
    NextPingTracked(s, ev, z, k, f, t);
  }

  lemma TrackedSince(run: seq<State>, evs: seq<Event>, i: nat, j: nat, k: nat, f: R.Info, t: int)
    requires IsRun(run, evs) && i <= j <= |evs| && PingTracked(run[i], k, f, t) && f.arrivals == []
    ensures PingTracked(run[j], k, f, t)
  {
    var holds := s => PingTracked(s, k, f, t);
    forall x | i <= x < j && holds(run[x])
      ensures holds(run[x + 1])
    {
      Sound(run, evs, x);
      assert StepAt(run, evs, x);
      StepTracked(run[x], evs[x], run[x + 1], k, f, t);
    }
    Carried(holds, run, i, j);
  }

  lemma RecordStarts(s: State, ev: Event, z: State, k: nat, now: nat)
    requires AllWell(s) && Records(s, ev, k) && z == Next(s, ev)
    requires now == s.client.clock + ev.wait1 + ev.wait2
    ensures PingTracked(z, k, R.FreshInfo(k, ev.dstip, ev.systemNow, now), now)
  {
    RecordTracked(s, ev, z, k, now);
  }

  /** The one outcome of `k`. */
  lemma OnlyOutcome(z: State, k: nat, o: R.Outcome)
    requires AllWell(z) && o in z.client.outcomes && R.IdOf(o) == k
    ensures R.OutcomesFor(z.client.outcomes, k) == [o] && k in z.ledger
  {
    R.InvCounts(z.client, k);
    AtMostOneIs(z.client.outcomes, k, o);
  }

  lemma AtMostOneIs(q: seq<R.Outcome>, k: nat, o: R.Outcome)
    requires o in q && R.IdOf(o) == k
    ensures |R.OutcomesFor(q, k)| >= 1 && (|R.OutcomesFor(q, k)| == 1 ==> R.OutcomesFor(q, k) == [o])
  {
    IsAmong(q, k, o);
  }

  lemma {:induction false} IsAmong(q: seq<R.Outcome>, k: nat, o: R.Outcome)
    requires o in q && R.IdOf(o) == k
    ensures o in R.OutcomesFor(q, k)
  {
    if o in q[..|q| - 1] {
      IsAmong(q[..|q| - 1], k, o);
    }
  }

  lemma OutcomeTells(z: State, k: nat, f: R.Info, t: int, o: R.Outcome)
    requires AllWell(z) && o in z.client.outcomes && R.IdOf(o) == k == f.pingid && f.networkDelay == 0
    requires PingTracked(z, k, f, t)
    ensures o.arrivals <= LedgerOf(z, k).arrivals
    ensures Tells(o, k, f.dstip, f.timePingSend, f.clientDelay)
  {
    OnlyOutcome(z, k, o);
    TrackedTells(z.client, k, 0, f, t, LedgerOf(z, k).arrivals);
  }

  /** The steady clock when event `i` recorded a ping. */
  function SentAt(s: State, ev: Event): nat
    requires ev.ClientRecord?
  {
    s.client.clock + ev.wait1 + ev.wait2
  }

  /** The outcome of a ping recorded by event `i`. */
  lemma OutcomeOfRecord(run: seq<State>, evs: seq<Event>, i: nat, k: nat, j: nat, o: R.Outcome)
    requires IsRun(run, evs) && i < j <= |evs| && Records(run[i], evs[i], k)
    requires o in run[j].client.outcomes && R.IdOf(o) == k
    ensures o.arrivals <= LedgerOf(run[j], k).arrivals
    ensures Tells(o, k, evs[i].dstip, evs[i].systemNow, SentAt(run[i], evs[i]))
  {
    var now := SentAt(run[i], evs[i]);
    var f := R.FreshInfo(k, evs[i].dstip, evs[i].systemNow, now);
    Sound(run, evs, i);
    assert StepAt(run, evs, i);
    RecordStarts(run[i], evs[i], run[i + 1], k, now);
    TrackedSince(run, evs, i + 1, j, k, f, now);
    Sound(run, evs, j);
    OutcomeTells(run[j], k, f, now, o);
  }

  // -------------------------------------------------------------------- theorems

  ghost predicate RunFrom(ip: nat, threshold: int, clock: nat, n: nat, run: seq<State>, evs: seq<Event>) {
    && ip > 0 && |run| == |evs| + 1 && run[0] == Start(ip, threshold, clock, n)
    && forall i :: 0 <= i < |evs| ==> StepAt(run, evs, i)
  }

  lemma RunFromIsRun(ip: nat, threshold: int, clock: nat, n: nat, run: seq<State>, evs: seq<Event>)
    requires RunFrom(ip, threshold, clock, n, run, evs)
    ensures IsRun(run, evs)
  {
    StartBegins(ip, threshold, clock, n, run[0]);
  }

  /** The events a result is read from, by number. */
  datatype Sources = Sources(record: nat, completion: nat, pong: nat, ack: nat, take: nat, send: nat)

  /** The record of ping `k`, the completion of its PING, the receipt of its PONG and of
      its ACK by the client, and at the server it was sent to the receipt of its PING and
      the completion of its PONG, all before `j`. */
  ghost predicate SourcesOf(run: seq<State>, evs: seq<Event>, j: nat, k: nat, e: Sources)
    requires |run| == |evs| + 1 && j <= |evs|
  {
    && e.record < j && Records(run[e.record], evs[e.record], k)
    && e.completion < j && Completes(run[e.completion], evs[e.completion], k)
    && e.pong < j && DeliversPong(run[e.pong], evs[e.pong], k)
    && e.ack < j && DeliversAck(run[e.ack], evs[e.ack], k)
    && e.take < j && Takes(run[e.take], evs[e.take], k)
    && e.send < j && SendsPong(run[e.send], evs[e.send], k)
    && evs[e.take].j == evs[e.send].j == evs[e.record].dst
  }

  /** One of each. */
  lemma ThreeArrivals(q: seq<R.Arrival>) returns (pingCqe: nat, recv: nat, pongCqe: nat, delay: nat)
    requires R.OnceEach(q)
    ensures R.Cqe(pingCqe) in q && R.Pong(recv, pongCqe) in q && R.Ack(delay) in q
  {
    R.OnceEachSeen(q);
    assert R.PING_CQE in R.Seen(q) && R.PONG in R.Seen(q) && R.ACK in R.Seen(q);
    var a :| a in q && R.PartOf(a) == R.PING_CQE;
    var b :| b in q && R.PartOf(b) == R.PONG;
    var c :| c in q && R.PartOf(c) == R.ACK;
    pingCqe, recv, pongCqe, delay := a.time, b.recv, b.cqe, c.delay;
  }

  /** Where the server's delay comes from. */
  lemma ServerSources(run: seq<State>, evs: seq<Event>, j: nat, k: nat, delay: nat) returns (take: nat, send: nat)
    requires IsRun(run, evs) && j <= |evs| && k in run[j].ledger && R.Ack(delay) in LedgerOf(run[j], k).arrivals
    ensures take < j && Takes(run[take], evs[take], k) && send < j && SendsPong(run[send], evs[send], k)
    ensures evs[take].j == evs[send].j == LedgerOf(run[j], k).dst
    ensures delay == (evs[send].time - evs[take].time) % MODULO
  {
    Sound(run, evs, j);
    AckMeans(run[j], k, delay);
    take := TakingOf(run, evs, j, k);
    send := SendingOf(run, evs, j, k);
    DeltaIsDifference(evs[take].time, evs[send].time, MODULO);
  }

  lemma AckMeans(s: State, k: nat, delay: nat)
    requires Inv(s) && k in s.ledger && R.Ack(delay) in LedgerOf(s, k).arrivals
    ensures var l := LedgerOf(s, k);
            l.taken > 0 && l.completed > 0 && delay == DeltaModulo(l.arrival, l.completion, MODULO)
  {
    assert PingOk(s, k);
    OncePerPing(s, k);
  }

  lemma RecordOfLedger(run: seq<State>, evs: seq<Event>, j: nat, k: nat) returns (i: nat)
    requires IsRun(run, evs) && j <= |evs| && k in run[j].ledger
    ensures i < j && Records(run[i], evs[i], k) && evs[i].dst == LedgerOf(run[j], k).dst
  {
    i := RecordOf(run, evs, j, k);
    Sound(run, evs, i);
    assert StepAt(run, evs, i);
    RecordsNew(run[i], evs[i], k);
    EventIsKnown(run[i], evs[i]);
    NewPing(run[i], evs[i], k);
    LedgerGrows(run, evs, i + 1, j, k);
  }

  /** The record that an outcome answers. */
  lemma RecordSource(run: seq<State>, evs: seq<Event>, j: nat, k: nat, o: R.Outcome) returns (i: nat)
    requires IsRun(run, evs) && j <= |evs| && o in run[j].client.outcomes && R.IdOf(o) == k
    ensures i < j && Records(run[i], evs[i], k) && evs[i].dst == LedgerOf(run[j], k).dst
    ensures k in run[j].ledger && o.arrivals <= LedgerOf(run[j], k).arrivals
    ensures Tells(o, k, evs[i].dstip, evs[i].systemNow, SentAt(run[i], evs[i]))
  {
    Sound(run, evs, j);
    OnlyOutcome(run[j], k, o);
    i := RecordOfLedger(run, evs, j, k);
    OutcomeOfRecord(run, evs, i, k, j, o);
  }

  /** The events in which the client heard the three arrivals `q`. */
  lemma HearingSources(run: seq<State>, evs: seq<Event>, j: nat, k: nat, q: seq<R.Arrival>, server: nat)
      returns (completion: nat, pong: nat, ack: nat)
    requires IsRun(run, evs) && j <= |evs| && k in run[j].ledger && q <= LedgerOf(run[j], k).arrivals
    requires R.OnceEach(q) && R.Ack(server) in q
    ensures completion < j && Completes(run[completion], evs[completion], k)
    ensures pong < j && DeliversPong(run[pong], evs[pong], k)
    ensures ack < j && DeliversAck(run[ack], evs[ack], k) && evs[ack].msg.delay == server
    ensures R.Cqe(evs[completion].time) in q && R.Pong(evs[pong].recv, evs[pong].cqe) in q
  {
    var x, recv, cqe, delay := ThreeArrivals(q);
    completion := HearingOf(run, evs, j, k, R.Cqe(x));
    pong := HearingOf(run, evs, j, k, R.Pong(recv, cqe));
    ack := HearingOf(run, evs, j, k, R.Ack(server));
  }

  lemma TellsMeasured(o: R.Outcome, k: nat, dstip: nat, systemNow: nat, sent: nat,
                      pingCqe: nat, recv: nat, pongCqe: nat)
    requires Tells(o, k, dstip, systemNow, sent) && o.Reported? && o.result.kind != R.FAILURE
    requires R.Cqe(pingCqe) in o.arrivals && R.Pong(recv, pongCqe) in o.arrivals
    ensures Names(o.result, k, dstip, systemNow) && R.OnceEach(o.arrivals) && R.Ack(o.result.server) in o.arrivals
    ensures R.SentinelSafe(pingCqe, pongCqe) ==>
              Measured(o.result, k, dstip, systemNow, sent, pingCqe, recv, pongCqe, o.result.server)
  {
  }

  /** Over every run: a result SUCCESS or WEIRD names its ping as it was recorded. Its
      numbers are read from six events: the client's clock at the record, the completion
      of the PING, the receipt and the completion of the PONG, and the delay that the ACK
      brought, which is the time from the PING's receipt at the server to the completion
      of the PONG there. */
  lemma ResultIsMeasured(ip: nat, threshold: int, clock: nat, n: nat, run: seq<State>, evs: seq<Event>, j: nat,
                         o: R.Outcome)
      returns (e: Sources)
    requires RunFrom(ip, threshold, clock, n, run, evs) && j <= |evs|
    requires o in run[j].client.outcomes && o.Reported? && o.result.kind != R.FAILURE
    ensures SourcesOf(run, evs, j, o.result.pingid, e)
    ensures o.result.dstip == evs[e.record].dstip && o.result.timePingSend == evs[e.record].systemNow
    ensures o.result.server == evs[e.ack].msg.delay == (evs[e.send].time - evs[e.take].time) % MODULO
    ensures R.SentinelSafe(evs[e.completion].time, evs[e.pong].cqe) ==>
              Measured(o.result, o.result.pingid, evs[e.record].dstip, evs[e.record].systemNow,
                       SentAt(run[e.record], evs[e.record]), evs[e.completion].time,
                       evs[e.pong].recv, evs[e.pong].cqe, evs[e.ack].msg.delay)
  {
    RunFromIsRun(ip, threshold, clock, n, run, evs);
    var k := o.result.pingid;
    var record := RecordSource(run, evs, j, k, o);
    var completion, pong, ack := HearingSources(run, evs, j, k, o.arrivals, o.result.server);
    var take, send := ServerSources(run, evs, j, k, o.result.server);
    TellsMeasured(o, k, evs[record].dstip, evs[record].systemNow, SentAt(run[record], evs[record]),
                  evs[completion].time, evs[pong].recv, evs[pong].cqe);
    e := Sources(record, completion, pong, ack, take, send);
  }

  /** Those events are the only ones of their kinds. */
  lemma SourcesAreOnly(ip: nat, threshold: int, clock: nat, n: nat, run: seq<State>, evs: seq<Event>, j: nat, k: nat,
                       e: Sources, e': Sources)
    requires RunFrom(ip, threshold, clock, n, run, evs) && j <= |evs|
    requires SourcesOf(run, evs, j, k, e) && SourcesOf(run, evs, j, k, e')
    ensures e == e'
  {
    RunFromIsRun(ip, threshold, clock, n, run, evs);
    SameRecord(run, evs, k, e.record, e'.record);
    SameHearing(run, evs, k, e.completion, e'.completion);
    SameHearing(run, evs, k, e.pong, e'.pong);
    SameHearing(run, evs, k, e.ack, e'.ack);
    SameServing(run, evs, k, e.take, e'.take);
    SameServing(run, evs, k, e.send, e'.send);
  }

  lemma SameRecord(run: seq<State>, evs: seq<Event>, k: nat, i: nat, j: nat)
    requires IsRun(run, evs) && i < |evs| && j < |evs|
    ensures Records(run[i], evs[i], k) && Records(run[j], evs[j], k) ==> i == j
  {
    if i != j && Records(run[i], evs[i], k) && Records(run[j], evs[j], k) {
      RecordedOnce(run, evs, k, if i < j then i else j, if i < j then j else i);
    }
  }

  lemma SameHearing(run: seq<State>, evs: seq<Event>, k: nat, i: nat, j: nat)
    requires IsRun(run, evs) && i < |evs| && j < |evs|
    ensures Completes(run[i], evs[i], k) && Completes(run[j], evs[j], k) ==> i == j
    ensures DeliversPong(run[i], evs[i], k) && DeliversPong(run[j], evs[j], k) ==> i == j
    ensures DeliversAck(run[i], evs[i], k) && DeliversAck(run[j], evs[j], k) ==> i == j
  {
    var a, b := HeardBy(run[i], evs[i], k), HeardBy(run[j], evs[j], k);
    if |a| == 1 && |b| == 1 && i != j {
      HeardOnce(run, evs, k, if i < j then i else j, if i < j then j else i,
                if i < j then a[0] else b[0], if i < j then b[0] else a[0]);
    }
  }

  lemma SameServing(run: seq<State>, evs: seq<Event>, k: nat, i: nat, j: nat)
    requires IsRun(run, evs) && i < |evs| && j < |evs|
    ensures Takes(run[i], evs[i], k) && Takes(run[j], evs[j], k) ==> i == j
    ensures SendsPong(run[i], evs[i], k) && SendsPong(run[j], evs[j], k) ==> i == j
  {
    if i != j {
      AtServerOnce(run, evs, k, if i < j then i else j, if i < j then j else i);
    }
  }

  /** A FAILURE names its ping as it was recorded, and no numbers. */
  lemma FailureIsUnanswered(ip: nat, threshold: int, clock: nat, n: nat, run: seq<State>, evs: seq<Event>, j: nat,
                            o: R.Outcome)
      returns (i: nat)
    requires RunFrom(ip, threshold, clock, n, run, evs) && j <= |evs|
    requires o in run[j].client.outcomes && o.Reported? && o.result.kind == R.FAILURE
    ensures i < j && Records(run[i], evs[i], o.result.pingid)
    ensures Unanswered(o.result, o.result.pingid, evs[i].dstip, evs[i].systemNow) && |o.arrivals| < 3
  {
    RunFromIsRun(ip, threshold, clock, n, run, evs);
    i := RecordSource(run, evs, j, o.result.pingid, o);
  }

  // ------------------------------------------------------------------ stopped threads

  /** How many PONGs and ACKs of ping `k` were posted. */
  function PongsOf(s: State, k: nat): nat { LedgerOf(s, k).pongs }

  function AcksOf(s: State, k: nat): nat { |LedgerOf(s, k).acks| }

  /** Pings `k` that were sent to server `j`, now or later. */
  predicate SentTo(s: State, k: nat, j: nat) { k in s.ledger ==> s.ledger[k].dst == j }

  predicate Stopped(s: State, j: nat, sender: bool) {
    j < |s.servers| && if sender then s.servers[j].sender.SenderDead? else s.servers[j].completer.CompleterDead?
  }

  lemma StoppedAtServer(s: State, i: nat, ev: Event, z: State, j: nat, sender: bool)
    requires Stopped(s, j, sender) && OfServer(ev) && ev.j == i < |s.servers| && z == AtServer(s, i, ev)
    ensures Stopped(z, j, sender)
  {
  }

  lemma StoppedStays(s: State, ev: Event, z: State, j: nat, sender: bool)
    requires Stopped(s, j, sender) && z == Next(s, ev)
    ensures Stopped(z, j, sender)
  {
    if OfServer(ev) && ev.j < |s.servers| {
      StoppedAtServer(s, ev.j, ev, z, j, sender);
    }
  }

  /** Who posts for `k` is the server it was sent to. */
  lemma PostsAtServer(s: State, i: nat, ev: Event, z: State, k: nat)
    requires OfServer(ev) && ev.j == i < |s.servers| && z == AtServer(s, i, ev)
    ensures PongsOf(z, k) != PongsOf(s, k) ==> s.servers[i].sender.Posting? && InHand(s.servers[i].sender, k) == 1
    ensures AcksOf(z, k) != AcksOf(s, k) ==> s.servers[i].completer.Acking? && AckDue(s.servers[i].completer, k) == 1
  {
  }

  ghost predicate SamePosts(s: State, z: State, k: nat) {
    PongsOf(z, k) == PongsOf(s, k) && AcksOf(z, k) == AcksOf(s, k)
  }

  lemma RecordPostsNone(s: State, dst: nat, dstip: nat, systemNow: nat, wait1: nat, wait2: nat, z: State, k: nat)
    requires IdsOk(s) && z == Record(s, dst, dstip, systemNow, wait1, wait2)
    ensures SamePosts(s, z, k)
  {
    if s.uid < MODULO {
      PingidIsSum(s.ip, s.uid);
    }
  }

  lemma PingPostsNone(s: State, ok: bool, z: State, k: nat)
    requires z == Post(s, ok)
    ensures SamePosts(s, z, k)
  {
  }

  lemma CompletionPostsNone(s: State, id: nat, time: nat, ok: bool, z: State, k: nat)
    requires z == Completed(s, id, time, ok)
    ensures SamePosts(s, z, k)
  {
  }

  lemma ReceivePostsNone(s: State, msg: Msg, recv: nat, cqe: nat, z: State, k: nat)
    requires z == Receive(s, msg, recv, cqe)
    ensures SamePosts(s, z, k)
  {
  }

  lemma PostsElsewhere(s: State, ev: Event, z: State, k: nat)
    requires IdsOk(s) && !OfServer(ev) && z == Next(s, ev)
    ensures SamePosts(s, z, k)
  {
    match ev
    case ClientRecord(dst, dstip, systemNow, wait1, wait2) =>
      RecordPostsNone(s, dst, dstip, systemNow, wait1, wait2, z, k);
    case ClientPost(ok) => PingPostsNone(s, ok, z, k);
    case ClientCompletion(id, time, ok) => CompletionPostsNone(s, id, time, ok, z, k);
    case ClientReceive(msg, recv, cqe) => ReceivePostsNone(s, msg, recv, cqe, z, k);
    case _ =>
  }

  lemma StoppedPostsNone(s: State, ev: Event, z: State, j: nat, k: nat)
    requires Inv(s) && z == Next(s, ev) && SentTo(s, k, j)
    ensures Stopped(s, j, true) ==> PongsOf(z, k) == PongsOf(s, k)
    ensures Stopped(s, j, false) ==> AcksOf(z, k) == AcksOf(s, k)
  {
    if !OfServer(ev) {
      PostsElsewhere(s, ev, z, k);
    } else if ev.j < |s.servers| {
      PostsAtServer(s, ev.j, ev, z, k);
      assert PingOk(s, k);
      if PongsOf(z, k) != PongsOf(s, k) || AcksOf(z, k) != AcksOf(s, k) {
        HeldIsHere(s, ev.j, k);
      }
    }
  }

  ghost predicate SameCount(s: State, z: State, k: nat, sender: bool) {
    if sender then PongsOf(z, k) == PongsOf(s, k) else AcksOf(z, k) == AcksOf(s, k)
  }

  lemma StoppedStep(s: State, ev: Event, z: State, j: nat, k: nat, sender: bool)
    requires Inv(s) && z == Next(s, ev) && Stopped(s, j, sender) && SentTo(s, k, j)
    ensures Stopped(z, j, sender) && SameCount(s, z, k, sender)
  {
    StoppedStays(s, ev, z, j, sender);
    StoppedPostsNone(s, ev, z, j, k);
  }

  /** `k` was sent to `j` all along. */
  lemma SentToBefore(run: seq<State>, evs: seq<Event>, i: nat, x: nat, k: nat, j: nat)
    requires IsRun(run, evs) && i <= x <= |evs| && SentTo(run[x], k, j)
    ensures SentTo(run[i], k, j)
  {
    if k in run[i].ledger {
      LedgerGrows(run, evs, i, x, k);
    }
  }

  lemma StoppedAt(run: seq<State>, evs: seq<Event>, i: nat, j: nat, k: nat, sender: bool)
    requires IsRun(run, evs) && i < |evs| && Stopped(run[i], j, sender) && SentTo(run[i], k, j)
    ensures Stopped(run[i + 1], j, sender) && SameCount(run[i], run[i + 1], k, sender)
  {
    Sound(run, evs, i);
    assert StepAt(run, evs, i);
    StoppedStep(run[i], evs[i], run[i + 1], j, k, sender);
  }

  lemma {:induction false} StoppedSince(run: seq<State>, evs: seq<Event>, i: nat, x: nat, j: nat, k: nat, sender: bool)
    requires IsRun(run, evs) && i <= x <= |evs| && Stopped(run[i], j, sender) && SentTo(run[x], k, j)
    ensures Stopped(run[x], j, sender) && SameCount(run[i], run[x], k, sender)
  {
    if i < x {
      SentToBefore(run, evs, x - 1, x, k, j);
      StoppedSince(run, evs, i, x - 1, j, k, sender);
      StoppedAt(run, evs, x - 1, j, k, sender);
    }
  }

  /** A server whose post of a PONG failed posts no PONG from then on, and one whose post
      of an ACK failed no ACK, in the rest of the run and for any ping sent to it. */
  lemma FailedPostIsTheLast(ip: nat, threshold: int, clock: nat, n: nat, run: seq<State>, evs: seq<Event>,
                            i: nat, x: nat, j: nat, k: nat)
    requires RunFrom(ip, threshold, clock, n, run, evs) && i < x <= |evs| && j < |run[i].servers|
    requires SentTo(run[x], k, j)
    ensures evs[i] == SenderPost(j, false) && run[i].servers[j].sender.Posting? ==>
              PongsOf(run[x], k) == PongsOf(run[i], k)
    ensures evs[i] == CompleterAck(j, false) && run[i].servers[j].completer.Acking? ==>
              AcksOf(run[x], k) == AcksOf(run[i], k)
  {
    RunFromIsRun(ip, threshold, clock, n, run, evs);
    assert StepAt(run, evs, i);
    if evs[i] == SenderPost(j, false) && run[i].servers[j].sender.Posting? {
      StoppedSince(run, evs, i + 1, x, j, k, true);
    }
    if evs[i] == CompleterAck(j, false) && run[i].servers[j].completer.Acking? {
      StoppedSince(run, evs, i + 1, x, j, k, false);
    }
  }
}
