/** The client's table of outstanding RDMA pings: each waits for the PING's send
    completion, the PONG and the ACK, in any order, and then yields one result;
    or it expires. */
module RdmaPingTable {
  import opened Bits
  import opened Common
  import opened TimeDelta
  import opened ExpiringTable

  datatype Arrival = Cqe(time: nat) | Pong(recv: nat, cqe: nat) | Ack(delay: nat)

  /** The bits of the receive bitmap. */
  datatype Part = PING_CQE | PONG | ACK

  const RECV_ALL: set<Part> := {PING_CQE, PONG, ACK}

  function PartOf(a: Arrival): Part {
    match a
    case Cqe(_) => PING_CQE
    case Pong(_, _) => PONG
    case Ack(_) => ACK
  }

  /** `arrivals` is history: what has arrived for this ping, in order. */
  datatype Info = Info(
    pingid: nat,
    dstip: nat,
    timePingSend: nat,
    clientDelay: nat,
    networkDelay: nat,
    serverDelay: nat,
    recvCnt: nat,
    bitmap: set<Part>,
    arrivals: seq<Arrival>)

  datatype Kind = SUCCESS | WEIRD | FAILURE

  datatype Result = Result(pingid: nat, dstip: nat, timePingSend: nat, client: nat, network: nat, server: nat,
                           kind: Kind)

  /** How a ping leaves the table: with a result offered to the queue, or without
      one because it was corrupted or overlaid. */
  datatype Outcome =
    | Reported(result: Result, arrivals: seq<Arrival>)
    | Silent(pingid: nat, arrivals: seq<Arrival>)

  /** `inserted` holds the ids of successful inserts; `clock` is the steady clock when the
      table last read it. */
  datatype State = State(table: Table<Info>, threshold: int, clock: nat, inserted: multiset<nat>,
                         outcomes: seq<Outcome>)

  /** An insert reads the clock twice, `wait1` after the previous reading and
      `wait2` after that. */
  datatype Event =
    | Insert(key: nat, pingid: nat, dstip: nat, systemNow: nat, wait1: nat, wait2: nat)
    | Arrive(key: nat, arrival: Arrival)

  // ------------------------------------------------------------------ one ping

  function FreshInfo(pingid: nat, dstip: nat, systemNow: nat, steadyNow: nat): Info {
    Info(pingid, dstip, systemNow, steadyNow, 0, 0, 0, {}, [])
  }

  /** The three `update_` methods, up to their call of `logging`. */
  function Apply(i: Info, a: Arrival): Info {
    Times(i, a).(bitmap := i.bitmap + {PartOf(a)}, recvCnt := i.recvCnt + 1, arrivals := i.arrivals + [a])
  }

  function Times(i: Info, a: Arrival): Info {
    match a
    case Cqe(x) =>
      i.(networkDelay := if i.networkDelay == 0 then x else DeltaModulo(x, i.networkDelay, MODULO))
    case Pong(recv, cqe) =>
      i.(clientDelay := DeltaModulo(i.clientDelay, recv, MODULO),
         networkDelay := if i.networkDelay != 0 then DeltaModulo(i.networkDelay, cqe, MODULO) else cqe)
    case Ack(delay) => i.(serverDelay := delay)
  }

  function Replay(i: Info, q: seq<Arrival>): Info {
    if q == [] then i else Apply(Replay(i, q[..|q| - 1]), q[|q| - 1])
  }

  /** The result of a ping for which all three have arrived. */
  function ResultOf(i: Info): Result {
    Result(i.pingid, i.dstip, i.timePingSend,
           Sub64(i.clientDelay % WORD, i.networkDelay % WORD),
           if i.networkDelay > i.serverDelay then i.networkDelay - i.serverDelay else i.networkDelay,
           i.serverDelay,
           if i.networkDelay <= i.serverDelay then WEIRD else SUCCESS)
  }

  /** How `logging` lets a complete ping go. */
  function Completed(i: Info): Outcome {
    if i.recvCnt != 3 then Silent(i.pingid, i.arrivals) else Reported(ResultOf(i), i.arrivals)
  }

  /** How expiry lets a ping go. */
  function ExpiredOutcome(i: Info): Outcome {
    if i.recvCnt >= 3 then Silent(i.pingid, i.arrivals)
    else Reported(Result(i.pingid, i.dstip, i.timePingSend, 0, 0, 0, FAILURE), i.arrivals)
  }

  function ExpiredOutcomes(q: seq<Info>): (r: seq<Outcome>)
    ensures |r| == |q| && forall k :: 0 <= k < |q| ==> r[k] == ExpiredOutcome(q[k])
  {
    seq(|q|, k requires 0 <= k < |q| => ExpiredOutcome(q[k]))
  }

  // ------------------------------------------------------------------- the table

  /** Expiry at the clock reading `now`. */
  function Expiry(s: State, now: nat): State {
    s.(table := Expire(s.table, now, s.threshold), clock := now,
       outcomes := s.outcomes + ExpiredOutcomes(Expired(s.table, now, s.threshold)))
  }

  function Added(s: State, key: nat, pingid: nat, dstip: nat, systemNow: nat, now: nat): State {
    s.(table := Append(s.table, key, FreshInfo(pingid, dstip, systemNow, now), now), clock := now,
       inserted := s.inserted + multiset{key})
  }

  /** An id already there is left alone. */
  function AddNew(s: State, key: nat, pingid: nat, dstip: nat, systemNow: nat, wait: nat): State {
    if key in s.table.entries then s else Added(s, key, pingid, dstip, systemNow, s.clock + wait)
  }

  /** Stores the updated entry, then `logging`. */
  function Store(s: State, key: nat, i: Info): State
    requires key in s.table.entries
  {
    var t := Update(s.table, key, i);
    if i.bitmap == RECV_ALL
    then s.(table := Remove(t, i.pingid), outcomes := s.outcomes + [Completed(i)])
    else s.(table := t)
  }

  function Next(s: State, ev: Event): State {
    match ev
    case Insert(key, pingid, dstip, systemNow, wait1, wait2) =>
      AddNew(Expiry(s, s.clock + wait1), key, pingid, dstip, systemNow, wait2)
    case Arrive(key, a) =>
      if key in s.table.entries then Store(s, key, Apply(s.table.entries[key].value, a)) else s
  }

  function Run(s: State, evs: seq<Event>): State {
    if evs == [] then s else Next(Run(s, evs[..|evs| - 1]), evs[|evs| - 1])
  }

  function Start(threshold: int, clock: nat): State {
    State(Table(map[], []), threshold, clock, multiset{}, [])
  }

  /** The callers pass the message's ping id as the key. */
  ghost predicate WellKeyed(ev: Event) { ev.Insert? ==> ev.key == ev.pingid }

  // -------------------------------------------------------------------- invariant

  function Seen(q: seq<Arrival>): set<Part> {
    set a | a in q :: PartOf(a)
  }

  /** An entry is what its arrivals made of the fresh one, and is not complete. */
  ghost predicate EntryOk(k: nat, e: Entry<Info>) {
    && e.timestamp >= 0
    && e.value == Replay(FreshInfo(k, e.value.dstip, e.value.timePingSend, e.timestamp), e.value.arrivals)
    && e.value.bitmap != RECV_ALL
  }

  /** One completion, one PONG and one ACK. */
  predicate OnceEach(q: seq<Arrival>) {
    |q| == 3 && PartOf(q[0]) != PartOf(q[1]) && PartOf(q[0]) != PartOf(q[2]) && PartOf(q[1]) != PartOf(q[2])
  }

  /** SUCCESS or WEIRD only when each of the three arrived exactly once, and with
      the delay the ACK brought; FAILURE only with fewer than three arrivals; no
      result only with three or more that are not one of each. */
  predicate OutcomeOk(o: Outcome) {
    match o
    case Reported(r, q) => if r.kind == FAILURE then |q| < 3 else OnceEach(q) && Ack(r.server) in q
    case Silent(_, q) => |q| >= 3 && !OnceEach(q)
  }

  ghost predicate EntriesOk(t: Table<Info>) {
    forall k :: k in t.entries ==> EntryOk(k, t.entries[k])
  }

  ghost predicate OutcomesOk(q: seq<Outcome>) {
    forall o :: o in q ==> OutcomeOk(o)
  }

  function IdOf(o: Outcome): nat { if o.Reported? then o.result.pingid else o.pingid }

  function IdsOf(q: seq<Outcome>): (r: seq<nat>)
    ensures |r| == |q| && forall i :: 0 <= i < |q| ==> r[i] == IdOf(q[i])
  {
    seq(|q|, i requires 0 <= i < |q| => IdOf(q[i]))
  }

  /** Each insert of an id is still in the table or has its one outcome. */
  ghost predicate Conserved(s: State) {
    s.inserted == multiset(s.table.keyList) + multiset(IdsOf(s.outcomes))
  }

  ghost predicate Inv(s: State) {
    && Ordered(s.table) && Past(s.table, s.clock)
    && EntriesOk(s.table)
    && OutcomesOk(s.outcomes)
  }

  lemma SeenOne(q: seq<Arrival>, a: Arrival)
    ensures Seen(q + [a]) == Seen(q) + {PartOf(a)}
  {
    assert forall x :: x in q + [a] <==> x in q || x == a;
  }

  lemma {:induction false} ReplayFacts(i: Info, q: seq<Arrival>)
    ensures var r := Replay(i, q);
            && r.arrivals == i.arrivals + q && r.recvCnt == i.recvCnt + |q| && r.bitmap == i.bitmap + Seen(q)
            && r.pingid == i.pingid && r.dstip == i.dstip && r.timePingSend == i.timePingSend
  {
    if q != [] {
      var p := q[..|q| - 1];
      ReplayFacts(i, p);
      assert q == p + [q[|q| - 1]];
      SeenOne(p, q[|q| - 1]);
      assert i.arrivals + q == i.arrivals + p + [q[|q| - 1]];
    }
  }

  lemma ReplayOne(i: Info, q: seq<Arrival>, a: Arrival)
    ensures Replay(i, q + [a]) == Apply(Replay(i, q), a)
  {
    assert (q + [a])[..|q + [a]| - 1] == q;
  }

  /** Once an ACK has arrived, the server delay is one that an ACK brought. */
  lemma {:induction false} ReplayServer(i: Info, q: seq<Arrival>)
    requires ACK in Seen(q)
    ensures Ack(Replay(i, q).serverDelay) in q
  {
    var p, a := q[..|q| - 1], q[|q| - 1];
    if !a.Ack? {
      assert q == p + [a];
      SeenOne(p, a);
      ReplayServer(i, p);
    }
  }

  lemma OnceEachSeen(q: seq<Arrival>)
    requires OnceEach(q)
    ensures Seen(q) == RECV_ALL
  {
    assert q[0] in q && q[1] in q && q[2] in q;
    assert {PartOf(q[0]), PartOf(q[1]), PartOf(q[2])} == RECV_ALL;
  }

  /** The whole bitmap takes three arrivals, and three only when each is of its
      own kind. */
  lemma CompleteTakesThree(q: seq<Arrival>)
    requires Seen(q) == RECV_ALL
    ensures |q| >= 3 && (|q| == 3 ==> OnceEach(q))
  {
    assert PING_CQE in Seen(q) && PONG in Seen(q) && ACK in Seen(q);
    var i :| 0 <= i < |q| && PartOf(q[i]) == PING_CQE;
    var j :| 0 <= j < |q| && PartOf(q[j]) == PONG;
    var k :| 0 <= k < |q| && PartOf(q[k]) == ACK;
  }

  lemma ReplayedFacts(f: Info, q: seq<Arrival>, i: Info)
    requires i == Replay(f, q) && f.arrivals == [] && f.bitmap == {} && f.recvCnt == 0
    ensures i.pingid == f.pingid && i.arrivals == q && i.recvCnt == |q| && i.bitmap == Seen(q)
    ensures i.dstip == f.dstip && i.timePingSend == f.timePingSend
    ensures ACK in i.bitmap ==> Ack(i.serverDelay) in q
  {
    ReplayFacts(f, q);
    if ACK in Seen(q) {
      ReplayServer(f, q);
    }
  }

  /** The entry after one more arrival. */
  lemma Arrived(k: nat, e: Entry<Info>, a: Arrival)
    requires EntryOk(k, e)
    ensures var i := Apply(e.value, a);
            && i.pingid == k && i.recvCnt == |i.arrivals| && i.bitmap == Seen(i.arrivals)
            && i == Replay(FreshInfo(k, i.dstip, i.timePingSend, e.timestamp), i.arrivals)
            && (ACK in i.bitmap ==> Ack(i.serverDelay) in i.arrivals)
  {
    var f := FreshInfo(k, e.value.dstip, e.value.timePingSend, e.timestamp);
    ReplayOne(f, e.value.arrivals, a);
    ReplayedFacts(f, e.value.arrivals, e.value);
    ReplayedFacts(f, e.value.arrivals + [a], Apply(e.value, a));
  }

  lemma CompletedOk(i: Info)
    requires i.recvCnt == |i.arrivals| && i.bitmap == Seen(i.arrivals) == RECV_ALL && Ack(i.serverDelay) in i.arrivals
    ensures OutcomeOk(Completed(i))
  {
    CompleteTakesThree(i.arrivals);
  }

  lemma ArriveKeepsInv(s: State, key: nat, a: Arrival)
    requires Inv(s)
    ensures Inv(Next(s, Arrive(key, a)))
  {
    if key in s.table.entries {
      var i := Apply(s.table.entries[key].value, a);
      Arrived(key, s.table.entries[key], a);
      if i.bitmap == RECV_ALL {
        CompletedOk(i);
      }
      StoreKeepsInv(s, key, i, Next(s, Arrive(key, a)));
    }
  }

  lemma StoreKeepsInv(s: State, key: nat, i: Info, r: State)
    requires Inv(s) && key in s.table.entries && i.pingid == key
    requires i.bitmap == RECV_ALL ==> OutcomeOk(Completed(i))
    requires i.bitmap != RECV_ALL ==> EntryOk(key, s.table.entries[key].(value := i))
    requires r == Store(s, key, i)
    ensures Inv(r)
  {
    var t := Update(s.table, key, i);
    UpdateKeepsOrdered(s.table, key, i);
    if i.bitmap == RECV_ALL {
      RemoveKeepsOrdered(t, key);
    }
  }

  lemma ExpiredOne(k: nat, e: Entry<Info>)
    requires EntryOk(k, e)
    ensures OutcomeOk(ExpiredOutcome(e.value)) && e.value.pingid == k
  {
    ReplayFacts(FreshInfo(k, e.value.dstip, e.value.timePingSend, e.timestamp), e.value.arrivals);
    if OnceEach(e.value.arrivals) {
      OnceEachSeen(e.value.arrivals);
    }
  }

  /** Those that expire have well-formed outcomes, for the ids they had. */
  lemma ExpiredOk(t: Table<Info>, now: nat, threshold: int, j: nat)
    requires Ordered(t) && EntriesOk(t) && j < Leaving(t, now, threshold)
    ensures j < |t.keyList|
    ensures var o := ExpiredOutcome(Expired(t, now, threshold)[j]); OutcomeOk(o) && IdOf(o) == t.keyList[j]
  {
    ExpiredIsFront(t, now, threshold);
    ExpiredOne(t.keyList[j], t.entries[t.keyList[j]]);
  }

  lemma ExpiredAllOk(t: Table<Info>, now: nat, threshold: int)
    requires Ordered(t) && EntriesOk(t)
    ensures OutcomesOk(ExpiredOutcomes(Expired(t, now, threshold)))
  {
    forall j | 0 <= j < Leaving(t, now, threshold)
      ensures OutcomeOk(ExpiredOutcomes(Expired(t, now, threshold))[j])
    {
      ExpiredOk(t, now, threshold, j);
    }
  }

  lemma ExpireKeepsInv(s: State, now: nat, r: State)
    requires Inv(s) && s.clock <= now && r == Expiry(s, now)
    ensures Inv(r)
  {
    ExpireIsFullScan(s.table, now, s.threshold);
    ExpiredAllOk(s.table, now, s.threshold);
  }

  lemma Either(m: State, r: State, same: bool)
    requires Inv(m) && (same ==> r == m) && (!same ==> Inv(r))
    ensures Inv(r)
  {
  }

  lemma AppendKeepsInv(m: State, key: nat, dstip: nat, systemNow: nat, now: nat, r: State)
    requires Inv(m) && key !in m.table.entries && m.clock <= now
    requires r == Added(m, key, key, dstip, systemNow, now)
    ensures Inv(r)
  {
    AppendKeepsOrdered(m.table, key, FreshInfo(key, dstip, systemNow, now), now);
  }

  lemma AddKeepsInv(m: State, key: nat, dstip: nat, systemNow: nat, wait: nat, r: State)
    requires Inv(m) && r == AddNew(m, key, key, dstip, systemNow, wait)
    ensures Inv(r)
  {
    if key !in m.table.entries {
      AppendKeepsInv(m, key, dstip, systemNow, m.clock + wait, r);
    }
    Either(m, r, key in m.table.entries);
  }

  lemma InsertKeepsInv(s: State, ev: Event, m: State, r: State)
    requires Inv(s) && ev.Insert? && WellKeyed(ev)
    requires m == Expiry(s, s.clock + ev.wait1) && r == AddNew(m, ev.key, ev.key, ev.dstip, ev.systemNow, ev.wait2)
    ensures Inv(r)
  {
    ExpireKeepsInv(s, s.clock + ev.wait1, m);
    AddKeepsInv(m, ev.key, ev.dstip, ev.systemNow, ev.wait2, r);
  }

  lemma NextKeepsInv(s: State, ev: Event)
    requires Inv(s) && WellKeyed(ev)
    ensures Inv(Next(s, ev))
  {
    if ev.Insert? {
      InsertKeepsInv(s, ev, Expiry(s, s.clock + ev.wait1), Next(s, ev));
    } else {
      ArriveKeepsInv(s, ev.key, ev.arrival);
    }
  }

  lemma {:induction false} RunKeepsInv(s: State, evs: seq<Event>)
    requires Inv(s) && forall ev :: ev in evs ==> WellKeyed(ev)
    ensures Inv(Run(s, evs))
  {
    if evs != [] {
      RunKeepsInv(s, evs[..|evs| - 1]);
      NextKeepsInv(Run(s, evs[..|evs| - 1]), evs[|evs| - 1]);
    }
  }

  /** The states some run reaches. */
  ghost predicate Reachable(s: State) {
    exists clock: nat, evs: seq<Event> :: Reaches(clock, evs, s)
  }

  ghost predicate Reaches(clock: nat, evs: seq<Event>, s: State) {
    (forall ev :: ev in evs ==> WellKeyed(ev)) && s == Run(Start(s.threshold, clock), evs)
  }

  lemma ReachableStart(threshold: int, clock: nat)
    ensures Reachable(Start(threshold, clock))
  {
    assert Reaches(clock, [], Start(threshold, clock));
  }

  /** An insert in its two halves, expiry and adding. */
  lemma InsertSteps(s: State, ev: Event, m: State, r: State)
    requires Reachable(s) && ev.Insert? && m == Expiry(s, s.clock + ev.wait1)
    requires r == AddNew(m, ev.key, ev.pingid, ev.dstip, ev.systemNow, ev.wait2)
    ensures r == Next(s, ev) && (WellKeyed(ev) ==> Reachable(r))
  {
    InsertIsNext(s, ev, m, r);
    if WellKeyed(ev) {
      ReachableNext(s, ev);
    }
  }

  lemma InsertIsNext(s: State, ev: Event, m: State, r: State)
    requires ev.Insert? && m == Expiry(s, s.clock + ev.wait1)
    requires r == AddNew(m, ev.key, ev.pingid, ev.dstip, ev.systemNow, ev.wait2)
    ensures r == Next(s, ev)
  {
  }

  lemma ReachableNext(s: State, ev: Event)
    requires Reachable(s) && WellKeyed(ev)
    ensures Reachable(Next(s, ev))
  {
    var clock: nat, evs: seq<Event> :| Reaches(clock, evs, s);
    assert (evs + [ev])[..|evs + [ev]| - 1] == evs;
    ClockMoves(s, ev);
    assert Reaches(clock, evs + [ev], Next(s, ev));
  }

  // -------------------------------------------------------------- conservation

  lemma FrontLeaves(keys: seq<nat>, n: nat, outcomes: seq<Outcome>, gone: seq<Outcome>)
    requires |gone| == n <= |keys| && IdsOf(gone) == keys[..n]
    ensures multiset(keys) + multiset(IdsOf(outcomes)) == multiset(keys[n..]) + multiset(IdsOf(outcomes + gone))
  {
    assert IdsOf(outcomes + gone) == IdsOf(outcomes) + keys[..n];
    assert keys == keys[..n] + keys[n..];
  }

  /** Each entry stands under its own ping id. */
  ghost predicate Keyed(t: Table<Info>) {
    Ordered(t) && forall k :: k in t.entries ==> t.entries[k].value.pingid == k
  }

  lemma InvIsKeyed(s: State)
    requires Inv(s)
    ensures Keyed(s.table)
  {
    forall k | k in s.table.entries
      ensures s.table.entries[k].value.pingid == k
    {
      Arrived(k, s.table.entries[k], Ack(0));
    }
  }

  lemma ExpireConserves(t: Table<Info>, now: nat, threshold: int, outcomes: seq<Outcome>)
    requires Keyed(t)
    ensures multiset(t.keyList) + multiset(IdsOf(outcomes)) ==
            multiset(Expire(t, now, threshold).keyList) +
            multiset(IdsOf(outcomes + ExpiredOutcomes(Expired(t, now, threshold))))
  {
    var n, gone := Leaving(t, now, threshold), ExpiredOutcomes(Expired(t, now, threshold));
    ExpiredIsFront(t, now, threshold);
    assert IdsOf(gone) == t.keyList[..n];
    FrontLeaves(t.keyList, n, outcomes, gone);
  }

  lemma CompleteConserves(t: Table<Info>, key: nat, outcomes: seq<Outcome>, o: Outcome)
    requires Ordered(t) && key in t.entries && IdOf(o) == key
    ensures multiset(t.keyList) + multiset(IdsOf(outcomes)) ==
            multiset(Remove(t, key).keyList) + multiset(IdsOf(outcomes + [o]))
  {
    WithoutOne(t.keyList, key);
    assert IdsOf(outcomes + [o]) == IdsOf(outcomes) + [key];
  }

  lemma ExpiryConserves(s: State, now: nat, r: State)
    requires Keyed(s.table) && Conserved(s) && r == Expiry(s, now)
    ensures Conserved(r)
  {
    ExpireConserves(s.table, now, s.threshold, s.outcomes);
  }

  lemma AddConserves(m: State, key: nat, pingid: nat, dstip: nat, systemNow: nat, wait: nat, r: State)
    requires Conserved(m) && r == AddNew(m, key, pingid, dstip, systemNow, wait)
    ensures Conserved(r)
  {
  }

  lemma StoreConserves(s: State, key: nat, i: Info, r: State)
    requires Ordered(s.table) && Conserved(s) && key in s.table.entries && i.pingid == key && r == Store(s, key, i)
    ensures Conserved(r)
  {
    if i.bitmap == RECV_ALL {
      UpdateKeepsOrdered(s.table, key, i);
      CompleteConserves(Update(s.table, key, i), key, s.outcomes, Completed(i));
    }
  }

  lemma ArriveConserves(s: State, key: nat, a: Arrival, r: State)
    requires Keyed(s.table) && Conserved(s) && key in s.table.entries &&
             r == Store(s, key, Apply(s.table.entries[key].value, a))
    ensures Conserved(r)
  {
    assert s.table.entries[key].value.pingid == key;
    StoreConserves(s, key, Apply(s.table.entries[key].value, a), r);
  }

  lemma ArrivalConserves(s: State, ev: Event, r: State)
    requires Keyed(s.table) && Conserved(s) && ev.Arrive? && r == Next(s, ev)
    ensures Conserved(r)
  {
    if ev.key in s.table.entries {
      ArriveConserves(s, ev.key, ev.arrival, r);
    } else {
      assert r == s;
    }
  }

  lemma InsertParts(s: State, ev: Event, m: State, r: State)
    requires ev.Insert? && m == Expiry(s, s.clock + ev.wait1) && r == Next(s, ev)
    ensures r == AddNew(m, ev.key, ev.pingid, ev.dstip, ev.systemNow, ev.wait2)
  {
  }

  lemma InsertConserves(s: State, ev: Event, m: State, r: State)
    requires Keyed(s.table) && Conserved(s) && ev.Insert? && m == Expiry(s, s.clock + ev.wait1) && r == Next(s, ev)
    ensures Conserved(r)
  {
    ExpiryConserves(s, s.clock + ev.wait1, m);
    InsertParts(s, ev, m, r);
    AddConserves(m, ev.key, ev.pingid, ev.dstip, ev.systemNow, ev.wait2, r);
  }

  lemma NextConserves(s: State, ev: Event, r: State)
    requires Keyed(s.table) && Conserved(s) && r == Next(s, ev)
    ensures Conserved(r)
  {
    match ev
    case Insert(_, _, _, _, _, _) => InsertConserves(s, ev, Expiry(s, s.clock + ev.wait1), r);
    case Arrive(_, _) => ArrivalConserves(s, ev, r);
  }

  lemma {:induction false} RunConserves(s: State, evs: seq<Event>)
    requires Inv(s) && Conserved(s) && forall ev :: ev in evs ==> WellKeyed(ev)
    ensures Conserved(Run(s, evs))
  {
    if evs != [] {
      RunConserves(s, evs[..|evs| - 1]);
      RunKeepsInv(s, evs[..|evs| - 1]);
      InvIsKeyed(Run(s, evs[..|evs| - 1]));
      NextConserves(Run(s, evs[..|evs| - 1]), evs[|evs| - 1], Run(s, evs));
    }
  }

  function CountKind(q: seq<Outcome>, kind: Kind): nat {
    if q == [] then 0
    else CountKind(q[..|q| - 1], kind) + if q[|q| - 1].Reported? && q[|q| - 1].result.kind == kind then 1 else 0
  }

  function CountSilent(q: seq<Outcome>): nat {
    if q == [] then 0 else CountSilent(q[..|q| - 1]) + if q[|q| - 1].Silent? then 1 else 0
  }

  function OutcomesFor(q: seq<Outcome>, k: nat): seq<Outcome> {
    if q == [] then []
    else OutcomesFor(q[..|q| - 1], k) + if IdOf(q[|q| - 1]) == k then [q[|q| - 1]] else []
  }

  lemma {:induction false} CountsAddUp(q: seq<Outcome>)
    ensures |q| == CountKind(q, SUCCESS) + CountKind(q, WEIRD) + CountKind(q, FAILURE) + CountSilent(q)
  {
    if q != [] {
      CountsAddUp(q[..|q| - 1]);
    }
  }

  lemma {:induction false} CountFor(q: seq<Outcome>, k: nat)
    ensures multiset(IdsOf(q))[k] == |OutcomesFor(q, k)|
  {
    if q != [] {
      CountFor(q[..|q| - 1], k);
      assert IdsOf(q) == IdsOf(q[..|q| - 1]) + [IdOf(q[|q| - 1])];
    }
  }

  /** Over every run, and for each id: every insert of it has had one outcome, a
      result or a silent removal, or is still in the table; in total, the inserts
      are the entries plus the outcomes of each kind. */
  lemma PingsConserved(threshold: int, clock: nat, evs: seq<Event>, k: nat)
    requires forall ev :: ev in evs ==> WellKeyed(ev)
    ensures var s := Run(Start(threshold, clock), evs);
            && s.inserted[k] == |OutcomesFor(s.outcomes, k)| + (if k in s.table.entries then 1 else 0)
            && |s.inserted| == |s.table.entries| + CountKind(s.outcomes, SUCCESS) + CountKind(s.outcomes, WEIRD)
                               + CountKind(s.outcomes, FAILURE) + CountSilent(s.outcomes)
  {
    RunKeepsInv(Start(threshold, clock), evs);
    RunConserves(Start(threshold, clock), evs);
    InvCounts(Run(Start(threshold, clock), evs), k);
  }

  lemma InvCounts(s: State, k: nat)
    requires Ordered(s.table) && Conserved(s)
    ensures s.inserted[k] == |OutcomesFor(s.outcomes, k)| + if k in s.table.entries then 1 else 0
    ensures |s.inserted| == |s.table.entries| + CountKind(s.outcomes, SUCCESS) + CountKind(s.outcomes, WEIRD)
                            + CountKind(s.outcomes, FAILURE) + CountSilent(s.outcomes)
  {
    CountsAddUp(s.outcomes);
    CountFor(s.outcomes, k);
    DistinctCount(s.table.keyList, k);
    SizeOfTable(s.table);
  }

  /** Every state some run reaches is sound and has every ping accounted for. */
  lemma ReachableInv(s: State)
    requires Reachable(s)
    ensures Inv(s) && Conserved(s)
  {
    var clock: nat, evs: seq<Event> :| Reaches(clock, evs, s);
    RunKeepsInv(Start(s.threshold, clock), evs);
    RunConserves(Start(s.threshold, clock), evs);
  }

  /** At no point of an expiry, in any run, does the front of the list name an id the
      map lacks: the ids that left before it are others. */
  lemma FrontNeverLacks(threshold: int, clock: nat, evs: seq<Event>, n: nat)
    requires forall ev :: ev in evs ==> WellKeyed(ev)
    requires n < |Run(Start(threshold, clock), evs).table.keyList|
    ensures var t := Run(Start(threshold, clock), evs).table;
            t.keyList[n] in t.entries && t.keyList[n] !in t.keyList[..n]
  {
    RunKeepsInv(Start(threshold, clock), evs);
    var t := Run(Start(threshold, clock), evs).table;
    assert t.keyList[n] in t.keyList;
  }

  /** Over every run: SUCCESS and WEIRD only when each of the three arrived exactly
      once, FAILURE only with fewer than three arrivals, no result only with three
      or more that are not one of each; and no entry at rest is complete. */
  lemma OutcomesMeanArrivals(threshold: int, clock: nat, evs: seq<Event>)
    requires forall ev :: ev in evs ==> WellKeyed(ev)
    ensures var s := Run(Start(threshold, clock), evs);
            && (forall o :: o in s.outcomes ==> OutcomeOk(o))
            && (forall k :: k in s.table.entries ==>
                  s.table.entries[k].value.bitmap == Seen(s.table.entries[k].value.arrivals) != RECV_ALL)
  {
    RunKeepsInv(Start(threshold, clock), evs);
    EntriesAtRest(Run(Start(threshold, clock), evs));
  }

  lemma EntriesAtRest(s: State)
    requires Inv(s)
    ensures forall k :: k in s.table.entries ==>
              s.table.entries[k].value.bitmap == Seen(s.table.entries[k].value.arrivals) != RECV_ALL
  {
    forall k | k in s.table.entries
      ensures s.table.entries[k].value.bitmap == Seen(s.table.entries[k].value.arrivals) != RECV_ALL
    {
      var e := s.table.entries[k];
      assert EntryOk(k, e);
      ReplayFacts(FreshInfo(k, e.value.dstip, e.value.timePingSend, e.timestamp), e.value.arrivals);
    }
  }

  // ------------------------------------------------------------ order independence

  /** The arrivals `ev` brings for `k`. */
  function ArrivalOf(ev: Event, k: nat): seq<Arrival> {
    if ev.Arrive? && ev.key == k then [ev.arrival] else []
  }

  function ArrivalsFor(evs: seq<Event>, k: nat): seq<Arrival> {
    if evs == [] then []
    else
      ArrivalsFor(evs[..|evs| - 1], k) + ArrivalOf(evs[|evs| - 1], k)
  }

  lemma {:induction false} OutcomesForAdd(p: seq<Outcome>, q: seq<Outcome>, k: nat)
    ensures OutcomesFor(p + q, k) == OutcomesFor(p, k) + OutcomesFor(q, k)
  {
    if q == [] {
      assert p + q == p;
    } else {
      OutcomesForAdd(p, q[..|q| - 1], k);
      assert (p + q)[..|p + q| - 1] == p + q[..|q| - 1];
    }
  }

  lemma {:induction false} NoOutcomesFor(q: seq<Outcome>, k: nat)
    requires forall o :: o in q ==> IdOf(o) != k
    ensures OutcomesFor(q, k) == []
  {
    if q != [] {
      NoOutcomesFor(q[..|q| - 1], k);
    }
  }

  /** The entry of `k` is as `e` after the arrivals `q`. */
  ghost predicate Follows(s: State, k: nat, e: Entry<Info>, q: seq<Arrival>) {
    k in s.table.entries && s.table.entries[k] == Entry(Replay(e.value, q), e.timestamp)
  }

  /** Expiry leaves an entry that is not stale alone, and reports others only. */
  lemma ExpirySparesFresh(s: State, now: nat, k: nat)
    requires Inv(s) && k in s.table.entries && !Stale(s.table.entries[k], now, s.threshold)
    ensures var r := Expiry(s, now);
            && k in r.table.entries && r.table.entries[k] == s.table.entries[k]
            && OutcomesFor(r.outcomes, k) == OutcomesFor(s.outcomes, k)
  {
    ExpireIsFullScan(s.table, now, s.threshold);
    ExpiredOthers(s.table, now, s.threshold, k);
    NoOutcomesFor(ExpiredOutcomes(Expired(s.table, now, s.threshold)), k);
    OutcomesForAdd(s.outcomes, ExpiredOutcomes(Expired(s.table, now, s.threshold)), k);
  }

  /** An id that stays is not among those that leave. */
  lemma ExpiredOthers(t: Table<Info>, now: nat, threshold: int, k: nat)
    requires Ordered(t) && EntriesOk(t) && k in t.entries && !Stale(t.entries[k], now, threshold)
    ensures forall o :: o in ExpiredOutcomes(Expired(t, now, threshold)) ==> IdOf(o) != k
  {
    var n, gone := Leaving(t, now, threshold), ExpiredOutcomes(Expired(t, now, threshold));
    ExpireIsFullScan(t, now, threshold);
    ExpiredIsFront(t, now, threshold);
    InBack(t.keyList, n, k, Expire(t, now, threshold));
    forall j | 0 <= j < |gone|
      ensures IdOf(gone[j]) != k
    {
      ExpiredOk(t, now, threshold, j);
    }
  }

  lemma InBack(q: seq<nat>, n: nat, k: nat, back: Table<Info>)
    requires Distinct(q) && n <= |q| && Ordered(back) && back.keyList == q[n..] && k in back.entries
    ensures k !in q[..n]
    ensures forall j :: 0 <= j < n ==> q[j] != k
  {
    assert k in back.keyList;
    var i :| 0 <= i < |q| - n && q[n..][i] == k;
    assert q[n + i] == k;
  }

  lemma ClockMoves(s: State, ev: Event)
    ensures s.clock <= Next(s, ev).clock && Next(s, ev).threshold == s.threshold
  {
  }

  /** Inserting another ping, or this one again, leaves its entry and its
      outcomes alone. */
  lemma InsertLeavesAlone(s: State, ev: Event, k: nat, m: State, r: State)
    requires Inv(s) && ev.Insert? && k in s.table.entries
    requires m == Expiry(s, s.clock + ev.wait1) && !Stale(s.table.entries[k], m.clock, s.threshold)
    requires r == AddNew(m, ev.key, ev.pingid, ev.dstip, ev.systemNow, ev.wait2)
    ensures k in r.table.entries && r.table.entries[k] == s.table.entries[k]
    ensures OutcomesFor(r.outcomes, k) == OutcomesFor(s.outcomes, k)
  {
    ExpirySparesFresh(s, s.clock + ev.wait1, k);
    AddLeavesAlone(m, ev.key, ev.pingid, ev.dstip, ev.systemNow, ev.wait2, k, r);
  }

  lemma AddLeavesAlone(m: State, key: nat, pingid: nat, dstip: nat, systemNow: nat, wait: nat, k: nat, r: State)
    requires k in m.table.entries && r == AddNew(m, key, pingid, dstip, systemNow, wait)
    ensures k in r.table.entries && r.table.entries[k] == m.table.entries[k] && r.outcomes == m.outcomes
  {
  }

  /** An event for another ping leaves this one and its outcomes alone. */
  lemma OthersLeaveAlone(s: State, ev: Event, k: nat)
    requires Inv(s) && WellKeyed(ev) && k in s.table.entries && (ev.Arrive? ==> ev.key != k)
    requires !Stale(s.table.entries[k], Next(s, ev).clock, s.threshold)
    ensures var r := Next(s, ev);
            && k in r.table.entries && r.table.entries[k] == s.table.entries[k]
            && OutcomesFor(r.outcomes, k) == OutcomesFor(s.outcomes, k)
  {
    if ev.Insert? {
      StaleMonotone2(s.table.entries[k].timestamp, s.clock + ev.wait1, Next(s, ev).clock);
      InsertLeavesAlone(s, ev, k, Expiry(s, s.clock + ev.wait1), Next(s, ev));
    } else if ev.key in s.table.entries {
      OtherArrives(s, ev.key, ev.arrival, k);
    }
  }

  lemma StaleMonotone2(timestamp: int, now: int, later: int)
    requires now <= later
    ensures ElapsedMs(now, timestamp) <= ElapsedMs(later, timestamp)
  {
  }

  lemma StoreLeavesOthers(s: State, key: nat, i: Info, k: nat)
    requires k in s.table.entries && key in s.table.entries && i.pingid == key != k
    ensures var r := Store(s, key, i);
            && k in r.table.entries && r.table.entries[k] == s.table.entries[k]
            && OutcomesFor(r.outcomes, k) == OutcomesFor(s.outcomes, k)
  {
    NoOutcomesFor([Completed(i)], k);
    OutcomesForAdd(s.outcomes, [Completed(i)], k);
  }

  lemma OtherArrives(s: State, key: nat, a: Arrival, k: nat)
    requires Inv(s) && k in s.table.entries && key in s.table.entries && key != k
    ensures var r := Next(s, Arrive(key, a));
            && k in r.table.entries && r.table.entries[k] == s.table.entries[k]
            && OutcomesFor(r.outcomes, k) == OutcomesFor(s.outcomes, k)
  {
    Arrived(key, s.table.entries[key], a);
    StoreLeavesOthers(s, key, Apply(s.table.entries[key].value, a), k);
  }

  /** An arrival for this ping updates it, or completes it with one outcome. */
  lemma OwnArrival(s: State, k: nat, a: Arrival)
    requires Inv(s) && k in s.table.entries
    ensures var r := Next(s, Arrive(k, a));
            var i := Apply(s.table.entries[k].value, a);
            if i.bitmap == RECV_ALL
            then k !in r.table.entries && OutcomesFor(r.outcomes, k) == OutcomesFor(s.outcomes, k) + [Completed(i)]
            else k in r.table.entries && r.table.entries[k] == Entry(i, s.table.entries[k].timestamp)
                 && r.outcomes == s.outcomes
  {
    var i := Apply(s.table.entries[k].value, a);
    Arrived(k, s.table.entries[k], a);
    if i.bitmap == RECV_ALL {
      assert IdOf(Completed(i)) == k;
      assert OutcomesFor([Completed(i)][..0], k) == [];
      OutcomesForAdd(s.outcomes, [Completed(i)], k);
    }
  }

  lemma FollowsOneMore(m: State, ev: Event, k: nat, e: Entry<Info>, q: seq<Arrival>)
    requires Inv(m) && WellKeyed(ev) && Follows(m, k, e, q)
    requires !Stale(e, Next(m, ev).clock, m.threshold)
    requires Replay(e.value, q + ArrivalOf(ev, k)).bitmap != RECV_ALL
    ensures Follows(Next(m, ev), k, e, q + ArrivalOf(ev, k))
    ensures OutcomesFor(Next(m, ev).outcomes, k) == OutcomesFor(m.outcomes, k)
  {
    if ev.Arrive? && ev.key == k {
      ReplayOne(e.value, q, ev.arrival);
      OwnArrival(m, k, ev.arrival);
    } else {
      assert q + ArrivalOf(ev, k) == q;
      OthersLeaveAlone(m, ev, k);
    }
  }

  lemma PrefixIncomplete(i: Info, q: seq<Arrival>, p: seq<Arrival>)
    requires Replay(i, q + p).bitmap != RECV_ALL && |p| <= 1
    ensures Replay(i, q).bitmap != RECV_ALL
  {
    ReplayFacts(i, q);
    if p == [] {
      assert q + p == q;
    } else {
      ReplayOne(i, q, p[0]);
      assert q + p == q + [p[0]];
    }
  }

  /** While it is fresh and not complete, a ping's entry is what its own arrivals
      make of it, whatever happens to other pings in between. */
  lemma {:induction false} EntryFollowsArrivals(s: State, evs: seq<Event>, k: nat, e: Entry<Info>)
    requires Inv(s) && (forall ev :: ev in evs ==> WellKeyed(ev))
    requires k in s.table.entries && s.table.entries[k] == e
    requires !Stale(e, Run(s, evs).clock, s.threshold)
    requires Replay(e.value, ArrivalsFor(evs, k)).bitmap != RECV_ALL
    ensures Follows(Run(s, evs), k, e, ArrivalsFor(evs, k))
    ensures OutcomesFor(Run(s, evs).outcomes, k) == OutcomesFor(s.outcomes, k)
    ensures Inv(Run(s, evs)) && Run(s, evs).threshold == s.threshold
  {
    if evs != [] {
      var prefix, ev := evs[..|evs| - 1], evs[|evs| - 1];
      var m := Run(s, prefix);
      ClockMoves(m, ev);
      StaleMonotone2(e.timestamp, m.clock, Run(s, evs).clock);
      PrefixIncomplete(e.value, ArrivalsFor(prefix, k), ArrivalOf(ev, k));
      EntryFollowsArrivals(s, prefix, k, e);
      NextKeepsInv(m, ev);
      FollowsOneMore(m, ev, k, e, ArrivalsFor(prefix, k));
    }
  }

  const HALF: nat := 0x8000_0000

  /** 0 stands for "not seen" in the network delay. Both orders of completion and
      PONG agree with the modular difference exactly when this holds. */
  predicate SentinelSafe(pingCqe: nat, pongCqe: nat) {
    (pingCqe != 0 || pongCqe < MODULO) && (pongCqe != 0 || pingCqe == 0 || pingCqe == HALF)
  }

  function NetworkAfter(q: seq<Arrival>): nat {
    Replay(FreshInfo(0, 0, 0, 0), q).networkDelay
  }

  lemma ReplayTwo(i: Info, a: Arrival, b: Arrival)
    ensures Replay(i, [a, b]) == Apply(Apply(i, a), b)
  {
    assert [] + [a] == [a] && [a] + [b] == [a, b];
    ReplayOne(i, [], a);
    ReplayOne(i, [a], b);
  }

  lemma ZeroDelta(t: nat)
    ensures DeltaModulo(0, t, MODULO) == t <==> t < MODULO
  {
    DeltaIsDifference(0, t, MODULO);
  }

  lemma BothOrders(pingCqe: nat, recv: nat, pongCqe: nat, one: seq<Arrival>, other: seq<Arrival>)
    requires one == [Cqe(pingCqe), Pong(recv, pongCqe)] && other == [Pong(recv, pongCqe), Cqe(pingCqe)]
    ensures NetworkAfter(one) == if pingCqe != 0 then DeltaModulo(pingCqe, pongCqe, MODULO) else pongCqe
    ensures NetworkAfter(other) == if pongCqe != 0 then DeltaModulo(pingCqe, pongCqe, MODULO) else pingCqe
  {
    var i := FreshInfo(0, 0, 0, 0);
    ReplayTwo(i, Cqe(pingCqe), Pong(recv, pongCqe));
    ReplayTwo(i, Pong(recv, pongCqe), Cqe(pingCqe));
  }

  /** Whether both orders of completion and PONG give the modular difference. */
  lemma SentinelSafeIff(pingCqe: nat, recv: nat, pongCqe: nat, one: seq<Arrival>, other: seq<Arrival>)
    requires one == [Cqe(pingCqe), Pong(recv, pongCqe)] && other == [Pong(recv, pongCqe), Cqe(pingCqe)]
    ensures SentinelSafe(pingCqe, pongCqe) <==>
            NetworkAfter(one) == DeltaModulo(pingCqe, pongCqe, MODULO) &&
            NetworkAfter(other) == DeltaModulo(pingCqe, pongCqe, MODULO)
  {
    BothOrders(pingCqe, recv, pongCqe, one, other);
    EdgeDeltas(pingCqe, pongCqe);
    SafeOrders(pingCqe, pongCqe, NetworkAfter(one), NetworkAfter(other), DeltaModulo(pingCqe, pongCqe, MODULO));
  }

  /** The delta back to 0 is the time itself for two times only. */
  lemma DeltaToZero(t: nat)
    ensures DeltaModulo(t, 0, MODULO) == t <==> t == 0 || t == HALF
  {
    if t < MODULO {
      SmallMod(t, MODULO);
      SmallMod(MODULO - t, MODULO);
    }
  }

  lemma EdgeDeltas(pingCqe: nat, pongCqe: nat)
    ensures pingCqe == 0 ==> (DeltaModulo(pingCqe, pongCqe, MODULO) == pongCqe <==> pongCqe < MODULO)
    ensures pongCqe == 0 ==> (DeltaModulo(pingCqe, pongCqe, MODULO) == pingCqe <==> pingCqe == 0 || pingCqe == HALF)
  {
    if pingCqe == 0 {
      ZeroDelta(pongCqe);
    }
    if pongCqe == 0 {
      DeltaToZero(pingCqe);
    }
  }

  lemma SafeOrders(pingCqe: nat, pongCqe: nat, one: nat, other: nat, d: nat)
    requires one == if pingCqe != 0 then d else pongCqe
    requires other == if pongCqe != 0 then d else pingCqe
    requires pingCqe == 0 ==> (d == pongCqe <==> pongCqe < MODULO)
    requires pongCqe == 0 ==> (d == pingCqe <==> pingCqe == 0 || pingCqe == HALF)
    ensures SentinelSafe(pingCqe, pongCqe) <==> one == d && other == d
  {
  }

  lemma SentinelMeans(pingCqe: nat, pongCqe: nat)
    requires SentinelSafe(pingCqe, pongCqe)
    ensures pingCqe == 0 ==> pongCqe == DeltaModulo(pingCqe, pongCqe, MODULO)
    ensures pongCqe == 0 ==> pingCqe == DeltaModulo(pingCqe, pongCqe, MODULO)
  {
    EdgeDeltas(pingCqe, pongCqe);
  }

  ghost predicate SameDelays(i: Info, j: Info) {
    i.clientDelay == j.clientDelay && i.networkDelay == j.networkDelay && i.serverDelay == j.serverDelay
  }

  lemma ApplySameDelays(i: Info, j: Info, a: Arrival)
    requires SameDelays(i, j)
    ensures SameDelays(Apply(i, a), Times(j, a))
  {
  }

  lemma ReplayThree(i: Info, q: seq<Arrival>)
    requires |q| == 3
    ensures SameDelays(Replay(i, q), Times(Times(Times(i, q[0]), q[1]), q[2]))
  {
    assert q == [q[0], q[1]] + [q[2]];
    ReplayTwo(i, q[0], q[1]);
    ReplayOne(i, [q[0], q[1]], q[2]);
    ApplySameDelays(i, i, q[0]);
    ApplySameDelays(Apply(i, q[0]), Times(i, q[0]), q[1]);
    ApplySameDelays(Apply(Apply(i, q[0]), q[1]), Times(Times(i, q[0]), q[1]), q[2]);
  }

  /** Completion and PONG commute on the network delay, the ACK with both. */
  lemma ThreeApplied(i: Info, a: Arrival, b: Arrival, c: Arrival, x: nat, recv: nat, p: nat, d: nat)
    requires i.networkDelay == 0 && PartOf(a) != PartOf(b) && PartOf(a) != PartOf(c) && PartOf(b) != PartOf(c)
    requires IsOne(a, x, recv, p, d) && IsOne(b, x, recv, p, d) && IsOne(c, x, recv, p, d)
    requires x == 0 ==> p == DeltaModulo(x, p, MODULO)
    requires p == 0 ==> x == DeltaModulo(x, p, MODULO)
    ensures var r := Times(Times(Times(i, a), b), c);
            && r.clientDelay == DeltaModulo(i.clientDelay, recv, MODULO)
            && r.networkDelay == DeltaModulo(x, p, MODULO)
            && r.serverDelay == d
  {
  }

  predicate IsOne(a: Arrival, x: nat, recv: nat, p: nat, d: nat) {
    a == Cqe(x) || a == Pong(recv, p) || a == Ack(d)
  }

  /** The times of a ping for which all three arrived, in any of the six orders. */
  lemma AnyOrderSameTimes(i: Info, q: seq<Arrival>, pingCqe: nat, recv: nat, pongCqe: nat, delay: nat)
    requires i.networkDelay == 0 && OnceEach(q) && SentinelSafe(pingCqe, pongCqe)
    requires Cqe(pingCqe) in q && Pong(recv, pongCqe) in q && Ack(delay) in q
    ensures var r := Replay(i, q);
            && r.clientDelay == DeltaModulo(i.clientDelay, recv, MODULO)
            && r.networkDelay == DeltaModulo(pingCqe, pongCqe, MODULO)
            && r.serverDelay == delay
  {
    assert q == [q[0], q[1], q[2]];
    ReplayThree(i, q);
    SentinelMeans(pingCqe, pongCqe);
    AreThese(q, pingCqe, recv, pongCqe, delay);
    ThreeApplied(i, q[0], q[1], q[2], pingCqe, recv, pongCqe, delay);
  }

  lemma AreThese(q: seq<Arrival>, x: nat, recv: nat, p: nat, d: nat)
    requires OnceEach(q) && Cqe(x) in q && Pong(recv, p) in q && Ack(d) in q
    ensures forall j :: 0 <= j < 3 ==> IsOne(q[j], x, recv, p, d)
  {
    var i :| 0 <= i < 3 && q[i] == Cqe(x);
    var j :| 0 <= j < 3 && q[j] == Pong(recv, p);
    var k :| 0 <= k < 3 && q[k] == Ack(d);
  }

  /** The result of a ping inserted at `e`. */
  function ResultFor(e: Entry<Info>, pingCqe: nat, recv: nat, pongCqe: nat, delay: nat): Result {
    ResultOf(e.value.(clientDelay := DeltaModulo(e.value.clientDelay, recv, MODULO),
                      networkDelay := DeltaModulo(pingCqe, pongCqe, MODULO),
                      serverDelay := delay))
  }

  /** Order independence: when completion, PONG and ACK each arrive once, in any
      order and between any events for other pings, before the ping goes stale,
      the last of them takes the ping out of the table with one result, the same
      for every order. */
  lemma SameResultInAnyOrder(s: State, evs: seq<Event>, k: nat, pingCqe: nat, recv: nat, pongCqe: nat, delay: nat)
    requires Inv(s) && (forall ev :: ev in evs ==> WellKeyed(ev))
    requires k in s.table.entries && s.table.entries[k].value.arrivals == []
    requires !Stale(s.table.entries[k], Run(s, evs).clock, s.threshold)
    requires evs != [] && evs[|evs| - 1].Arrive? && evs[|evs| - 1].key == k
    requires OnceEach(ArrivalsFor(evs, k)) && SentinelSafe(pingCqe, pongCqe)
    requires Cqe(pingCqe) in ArrivalsFor(evs, k) && Pong(recv, pongCqe) in ArrivalsFor(evs, k) &&
             Ack(delay) in ArrivalsFor(evs, k)
    ensures k !in Run(s, evs).table.entries
    ensures OutcomesFor(Run(s, evs).outcomes, k) ==
            OutcomesFor(s.outcomes, k) +
            [Reported(ResultFor(s.table.entries[k], pingCqe, recv, pongCqe, delay), ArrivalsFor(evs, k))]
  {
    var e, prefix, a := s.table.entries[k], evs[..|evs| - 1], evs[|evs| - 1].arrival;
    var q := ArrivalsFor(prefix, k);
    FreshEntry(k, e);
    TwoIncomplete(e.value, q);
    StaleMonotone2(e.timestamp, Run(s, prefix).clock, Run(s, evs).clock);
    EntryFollowsArrivals(s, prefix, k, e);
    OwnArrival(Run(s, prefix), k, a);
    ReplayOne(e.value, q, a);
    CompleteIsReported(e, q + [a], pingCqe, recv, pongCqe, delay);
  }

  lemma TwoIncomplete(i: Info, q: seq<Arrival>)
    requires |q| == 2 && i.bitmap == {}
    ensures Replay(i, q).bitmap != RECV_ALL
  {
    ReplayFacts(i, q);
    if Seen(q) == RECV_ALL {
      CompleteTakesThree(q);
    }
  }

  lemma CompleteIsReported(e: Entry<Info>, q: seq<Arrival>, pingCqe: nat, recv: nat, pongCqe: nat, delay: nat)
    requires e.value.networkDelay == 0 && e.value.bitmap == {} && e.value.arrivals == [] && e.value.recvCnt == 0
    requires OnceEach(q) && SentinelSafe(pingCqe, pongCqe)
    requires Cqe(pingCqe) in q && Pong(recv, pongCqe) in q && Ack(delay) in q
    ensures var i := Replay(e.value, q);
            i.bitmap == RECV_ALL && Completed(i) == Reported(ResultFor(e, pingCqe, recv, pongCqe, delay), q)
  {
    ReplayFacts(e.value, q);
    OnceEachSeen(q);
    AnyOrderSameTimes(e.value, q, pingCqe, recv, pongCqe, delay);
  }

  lemma FreshEntry(k: nat, e: Entry<Info>)
    requires EntryOk(k, e) && e.value.arrivals == []
    ensures e.value == FreshInfo(k, e.value.dstip, e.value.timePingSend, e.timestamp)
  {
  }

  // ------------------------------------------------- when the order does matter

  /** The network delay when the completion comes before the PONG, and after it. */
  function CqeFirst(pingCqe: nat, pongCqe: nat): nat {
    if pingCqe != 0 then DeltaModulo(pingCqe, pongCqe, MODULO) else pongCqe
  }

  function PongFirst(pingCqe: nat, pongCqe: nat): nat {
    if pongCqe != 0 then DeltaModulo(pingCqe, pongCqe, MODULO) else pingCqe
  }

  lemma OrdersAgreeIff(pingCqe: nat, pongCqe: nat, d: nat)
    requires d == DeltaModulo(pingCqe, pongCqe, MODULO)
    ensures CqeFirst(pingCqe, pongCqe) == PongFirst(pingCqe, pongCqe) <==> SentinelSafe(pingCqe, pongCqe)
  {
    EdgeDeltas(pingCqe, pongCqe);
  }

  lemma DelaysOfOrders(i: Info, pingCqe: nat, recv: nat, pongCqe: nat, delay: nat,
                       one: seq<Arrival>, other: seq<Arrival>)
    requires i.networkDelay == 0
    requires one == [Cqe(pingCqe), Pong(recv, pongCqe), Ack(delay)] &&
             other == [Pong(recv, pongCqe), Cqe(pingCqe), Ack(delay)]
    ensures Replay(i, one).networkDelay == CqeFirst(pingCqe, pongCqe) &&
            Replay(i, other).networkDelay == PongFirst(pingCqe, pongCqe)
    ensures Replay(i, one).clientDelay == Replay(i, other).clientDelay == DeltaModulo(i.clientDelay, recv, MODULO)
    ensures Replay(i, one).serverDelay == Replay(i, other).serverDelay == delay
  {
    ReplayThree(i, one);
    ReplayThree(i, other);
  }

  lemma SubtrahendMatters(a: nat, b: nat, c: nat)
    requires a < WORD && b < WORD && c < WORD
    ensures Sub64(a, b) == Sub64(a, c) <==> b == c
  {
  }

  lemma ResultsAgreeIff(i: Info, j: Info)
    requires i.networkDelay < WORD && j.networkDelay < WORD && i.clientDelay == j.clientDelay &&
             i.serverDelay == j.serverDelay
    requires i.pingid == j.pingid && i.dstip == j.dstip && i.timePingSend == j.timePingSend
    ensures ResultOf(i) == ResultOf(j) <==> i.networkDelay == j.networkDelay
  {
    SmallMod(i.networkDelay, WORD);
    SmallMod(j.networkDelay, WORD);
    SubtrahendMatters(i.clientDelay % WORD, i.networkDelay % WORD, j.networkDelay % WORD);
  }

  /** The converse of order independence: for 64-bit timestamps, completion before
      PONG and PONG before completion give the same result exactly when the
      sentinel does not get in the way. */
  lemma SameResultIff(i: Info, pingCqe: nat, recv: nat, pongCqe: nat, delay: nat,
                      one: seq<Arrival>, other: seq<Arrival>)
    requires i.networkDelay == 0 && pingCqe < WORD && pongCqe < WORD
    requires one == [Cqe(pingCqe), Pong(recv, pongCqe), Ack(delay)] &&
             other == [Pong(recv, pongCqe), Cqe(pingCqe), Ack(delay)]
    ensures ResultOf(Replay(i, one)) == ResultOf(Replay(i, other)) <==> SentinelSafe(pingCqe, pongCqe)
  {
    DelaysOfOrders(i, pingCqe, recv, pongCqe, delay, one, other);
    ReplayFacts(i, one);
    ReplayFacts(i, other);
    WordIsSquare(32);
    ResultsAgreeIff(Replay(i, one), Replay(i, other));
    OrdersAgreeIff(pingCqe, pongCqe, DeltaModulo(pingCqe, pongCqe, MODULO));
  }

  /** A PONG stamped 0 after a PING stamped 5: the order shows in the result. */
  lemma OrderShows(i: Info, recv: nat, delay: nat, one: seq<Arrival>, other: seq<Arrival>)
    requires i.networkDelay == 0
    requires one == [Cqe(5), Pong(recv, 0), Ack(delay)] && other == [Pong(recv, 0), Cqe(5), Ack(delay)]
    ensures ResultOf(Replay(i, one)) != ResultOf(Replay(i, other))
  {
    WordIsSquare(32);
    SameResultIff(i, 5, recv, 0, delay, one, other);
  }
}
