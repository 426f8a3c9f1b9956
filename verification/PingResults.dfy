/** What the result of a ping says, in terms of the insert that recorded it and of the
    arrivals it had: over every run of the table, each insert is followed to its
    outcome. */
module PingResults {
  import opened Bits
  import opened TimeDelta
  import opened ExpiringTable
  import opened RdmaPingTable

  // ------------------------------------------------------- what a result should say

  /** It is of the ping inserted as `k` for `dstip` at the system time `systemNow`. */
  predicate Names(r: Result, k: nat, dstip: nat, systemNow: nat) {
    r.pingid == k && r.dstip == dstip && r.timePingSend == systemNow
  }

  /** The ping was not answered in time. */
  predicate Unanswered(r: Result, k: nat, dstip: nat, systemNow: nat) {
    Names(r, k, dstip, systemNow) && r.kind == FAILURE && r.client == 0 && r.network == 0 && r.server == 0
  }

  /** The ping was inserted with the steady clock at `sent`, its PING completed at
      `pingCqe`, its PONG was received at `recv` with a completion stamped `pongCqe`, and
      its ACK claimed `delay`: the client saw the time from the insert to the receipt, the
      network and the server the time between the two completions, all modulo 2^32, and
      the client's share is what is left of the one after the other, wrapping in 64 bits. */
  predicate Measured(r: Result, k: nat, dstip: nat, systemNow: nat, sent: nat,
                     pingCqe: nat, recv: nat, pongCqe: nat, delay: nat) {
    var seen, flight := (recv - sent) % MODULO, (pongCqe - pingCqe) % MODULO;
    && Names(r, k, dstip, systemNow)
    && r.client == (if flight <= seen then seen - flight else seen - flight + WORD)
    && r.server == delay
    && r.kind == (if delay < flight then SUCCESS else WEIRD)
    && r.network == (if delay < flight then flight - delay else flight)
  }

  /** The outcome is what its own arrivals say of the insert. */
  ghost predicate Tells(o: Outcome, k: nat, dstip: nat, systemNow: nat, sent: nat) {
    && IdOf(o) == k
    && (o.Reported? && o.result.kind == FAILURE ==> |o.arrivals| < 3 && Unanswered(o.result, k, dstip, systemNow))
    && (o.Reported? && o.result.kind != FAILURE ==>
          && OnceEach(o.arrivals) && Names(o.result, k, dstip, systemNow) && Ack(o.result.server) in o.arrivals
          && forall pingCqe, recv, pongCqe, delay ::
               Cqe(pingCqe) in o.arrivals && Pong(recv, pongCqe) in o.arrivals && Ack(delay) in o.arrivals &&
               SentinelSafe(pingCqe, pongCqe) ==>
                 Measured(o.result, k, dstip, systemNow, sent, pingCqe, recv, pongCqe, delay))
  }

  // ------------------------------------------------------------ what a step does to `k`

  lemma {:induction false} OutcomesForMembers(q: seq<Outcome>, k: nat)
    ensures forall o :: o in OutcomesFor(q, k) ==> o in q && IdOf(o) == k
  {
    if q != [] {
      OutcomesForMembers(q[..|q| - 1], k);
    }
  }

  lemma OneOutcome(q: seq<Outcome>, k: nat, o: Outcome)
    requires |OutcomesFor(q, k)| == 1 && forall x :: x in q && IdOf(x) == k ==> x == o
    ensures OutcomesFor(q, k) == [o]
  {
    OutcomesForMembers(q, k);
    assert OutcomesFor(q, k)[0] in OutcomesFor(q, k);
  }

  lemma LeftIsFront(t: Table<Info>, now: nat, threshold: int, k: nat)
    requires Ordered(t) && EntriesOk(t) && k in t.entries && Stale(t.entries[k], now, threshold)
    ensures Leaving(t, now, threshold) <= |t.keyList| && k in t.keyList[..Leaving(t, now, threshold)]
  {
    ExpireIsFullScan(t, now, threshold);
    ExpiredIsFront(t, now, threshold);
    var n := Leaving(t, now, threshold);
    assert k !in Expire(t, now, threshold).keyList;
    assert t.keyList == t.keyList[..n] + t.keyList[n..];
    assert k in t.keyList;
  }

  lemma StaleLeavesOnce(t: Table<Info>, now: nat, threshold: int, k: nat)
    requires Ordered(t) && EntriesOk(t) && k in t.entries && Stale(t.entries[k], now, threshold)
    ensures OutcomesFor(ExpiredOutcomes(Expired(t, now, threshold)), k) == [ExpiredOutcome(t.entries[k].value)]
  {
    var n, gone := Leaving(t, now, threshold), ExpiredOutcomes(Expired(t, now, threshold));
    LeftIsFront(t, now, threshold, k);
    ExpiredIsFront(t, now, threshold);
    forall j | 0 <= j < |gone|
      ensures IdOf(gone[j]) == t.keyList[j] && (IdOf(gone[j]) == k ==> gone[j] == ExpiredOutcome(t.entries[k].value))
    {
      ExpiredOk(t, now, threshold, j);
    }
    assert IdsOf(gone) == t.keyList[..n];
    CountFor(gone, k);
    DistinctCount(t.keyList[..n], k);
    OneOutcome(gone, k, ExpiredOutcome(t.entries[k].value));
  }

  lemma NoneLeaves(t: Table<Info>, now: nat, threshold: int, k: nat)
    requires Ordered(t) && EntriesOk(t) && k !in t.entries
    ensures OutcomesFor(ExpiredOutcomes(Expired(t, now, threshold)), k) == []
  {
    var gone := ExpiredOutcomes(Expired(t, now, threshold));
    ExpiredIsFront(t, now, threshold);
    forall j | 0 <= j < |gone|
      ensures IdOf(gone[j]) != k
    {
      ExpiredOk(t, now, threshold, j);
    }
    NoOutcomesFor(gone, k);
  }

  /** `k` has an outcome more. */
  ghost predicate Gains(s: State, r: State, k: nat, o: Outcome) {
    OutcomesFor(r.outcomes, k) == OutcomesFor(s.outcomes, k) + [o]
  }

  /** `k` has the outcomes it had, and its entry, if it had one, is now `i`. */
  ghost predicate Stays(s: State, r: State, k: nat, i: Info) {
    && OutcomesFor(r.outcomes, k) == OutcomesFor(s.outcomes, k)
    && (k in s.table.entries ==> k in r.table.entries && r.table.entries[k] == s.table.entries[k].(value := i))
  }

  /** Expiry of an entry, or not. */
  lemma ExpiryStep(s: State, now: nat, r: State, k: nat)
    requires Inv(s) && r == Expiry(s, now) && k in s.table.entries
    ensures Stays(s, r, k, s.table.entries[k].value) || Gains(s, r, k, ExpiredOutcome(s.table.entries[k].value))
  {
    if Stale(s.table.entries[k], now, s.threshold) {
      StaleLeavesOnce(s.table, now, s.threshold, k);
      OutcomesForAdd(s.outcomes, ExpiredOutcomes(Expired(s.table, now, s.threshold)), k);
    } else {
      ExpirySparesFresh(s, now, k);
    }
  }

  lemma ExpiryOfOthers(s: State, now: nat, r: State, k: nat)
    requires Inv(s) && r == Expiry(s, now) && k !in s.table.entries
    ensures OutcomesFor(r.outcomes, k) == OutcomesFor(s.outcomes, k)
  {
    NoneLeaves(s.table, now, s.threshold, k);
    OutcomesForAdd(s.outcomes, ExpiredOutcomes(Expired(s.table, now, s.threshold)), k);
  }

  lemma AddStep(m: State, key: nat, pingid: nat, dstip: nat, systemNow: nat, wait: nat, r: State, k: nat)
    requires r == AddNew(m, key, pingid, dstip, systemNow, wait)
    ensures r.outcomes == m.outcomes
    ensures k in m.table.entries ==> k in r.table.entries && r.table.entries[k] == m.table.entries[k]
  {
  }

  lemma InsertStep(s: State, ev: Event, m: State, r: State, k: nat)
    requires Inv(s) && ev.Insert? && k in s.table.entries && m == Expiry(s, s.clock + ev.wait1)
    requires r == AddNew(m, ev.key, ev.pingid, ev.dstip, ev.systemNow, ev.wait2)
    ensures Stays(s, r, k, s.table.entries[k].value) || Gains(s, r, k, ExpiredOutcome(s.table.entries[k].value))
  {
    ExpiryStep(s, s.clock + ev.wait1, m, k);
    AddStep(m, ev.key, ev.pingid, ev.dstip, ev.systemNow, ev.wait2, r, k);
  }

  lemma ArrivalElsewhere(s: State, key: nat, a: Arrival, r: State, k: nat)
    requires Inv(s) && key != k && r == Next(s, Arrive(key, a))
    ensures OutcomesFor(r.outcomes, k) == OutcomesFor(s.outcomes, k)
    ensures k in s.table.entries ==> k in r.table.entries && r.table.entries[k] == s.table.entries[k]
  {
    if key in s.table.entries {
      var i := Apply(s.table.entries[key].value, a);
      Arrived(key, s.table.entries[key], a);
      NoOutcomesFor([Completed(i)], k);
      OutcomesForAdd(s.outcomes, [Completed(i)], k);
      StoreElsewhere(s, key, i, r, k);
    }
  }

  lemma StoreElsewhere(s: State, key: nat, i: Info, r: State, k: nat)
    requires key in s.table.entries && i.pingid == key != k && r == Store(s, key, i)
    ensures r.outcomes == s.outcomes || r.outcomes == s.outcomes + [Completed(i)]
    ensures k in s.table.entries ==> k in r.table.entries && r.table.entries[k] == s.table.entries[k]
  {
  }

  /** A step for an id that is in the table: its entry takes the arrival, if any, or
      leaves with an outcome. */
  lemma PresentStep(s: State, ev: Event, r: State, k: nat)
    requires Inv(s) && WellKeyed(ev) && r == Next(s, ev) && k in s.table.entries
    ensures var i := s.table.entries[k].value;
            if ev.Arrive? && ev.key == k
            then Stays(s, r, k, Apply(i, ev.arrival)) || Gains(s, r, k, Completed(Apply(i, ev.arrival)))
            else Stays(s, r, k, i) || Gains(s, r, k, ExpiredOutcome(i))
  {
    if ev.Insert? {
      InsertStep(s, ev, Expiry(s, s.clock + ev.wait1), r, k);
    } else if ev.key == k {
      OwnArrival(s, k, ev.arrival);
    } else {
      ArrivalElsewhere(s, ev.key, ev.arrival, r, k);
    }
  }

  /** A step for an id that is not there: no outcome for it. */
  lemma AbsentStep(s: State, ev: Event, r: State, k: nat)
    requires Inv(s) && WellKeyed(ev) && r == Next(s, ev) && k !in s.table.entries
    ensures OutcomesFor(r.outcomes, k) == OutcomesFor(s.outcomes, k)
  {
    if ev.Insert? {
      ExpiryOfOthers(s, s.clock + ev.wait1, Expiry(s, s.clock + ev.wait1), k);
    } else if ev.key != k {
      ArrivalElsewhere(s, ev.key, ev.arrival, r, k);
    }
  }

  // ------------------------------------------------------ following an insert to its end

  /** The outcome is what its arrivals made of the fresh entry `f`. */
  ghost predicate Made(o: Outcome, f: Info) {
    match o
    case Reported(r, q) => r == ResultOf(Replay(f, q)) || Unanswered(r, f.pingid, f.dstip, f.timePingSend)
    case Silent(_, _) => true
  }

  /** `f` was stored with the stamp `t` when `k` had had `m` outcomes, and `q` has arrived
      for `k` since: it is still there, with all of that, or it has the next outcome. */
  ghost predicate Tracked(s: State, k: nat, m: nat, f: Info, t: int, q: seq<Arrival>) {
    var all := OutcomesFor(s.outcomes, k);
    && |all| >= m
    && (|all| == m ==> k in s.table.entries && s.table.entries[k] == Entry(Replay(f, q), t))
    && (|all| > m ==> all[m].arrivals <= q && Made(all[m], f))
  }

  lemma Appended<T>(p: seq<T>, x: T, m: nat)
    requires m <= |p|
    ensures |p| > m ==> (p + [x])[m] == p[m]
    ensures |p| == m ==> (p + [x])[m] == x
  {
  }

  lemma StaysTracked(s: State, r: State, k: nat, m: nat, f: Info, t: int, q: seq<Arrival>, i: Info, p: seq<Arrival>)
    requires Tracked(s, k, m, f, t, q) && Stays(s, r, k, i) && q <= p
    requires |OutcomesFor(s.outcomes, k)| == m ==> i == Replay(f, p)
    ensures Tracked(r, k, m, f, t, p)
  {
  }

  lemma GainsTracked(s: State, r: State, k: nat, m: nat, f: Info, t: int, q: seq<Arrival>, o: Outcome, p: seq<Arrival>)
    requires Tracked(s, k, m, f, t, q) && Gains(s, r, k, o) && q <= p
    requires |OutcomesFor(s.outcomes, k)| == m ==> o.arrivals <= p && Made(o, f)
    ensures Tracked(r, k, m, f, t, p)
  {
    Appended(OutcomesFor(s.outcomes, k), o, m);
  }

  /** What completion or expiry makes of an entry. */
  lemma LeavesMade(f: Info, q: seq<Arrival>)
    requires f.arrivals == []
    ensures Made(Completed(Replay(f, q)), f) && Completed(Replay(f, q)).arrivals == q
    ensures Made(ExpiredOutcome(Replay(f, q)), f) && ExpiredOutcome(Replay(f, q)).arrivals == q
  {
    ReplayFacts(f, q);
  }

  lemma AbsentTracked(s: State, r: State, k: nat, m: nat, f: Info, t: int, q: seq<Arrival>, p: seq<Arrival>)
    requires Tracked(s, k, m, f, t, q) && k !in s.table.entries && q <= p
    requires OutcomesFor(r.outcomes, k) == OutcomesFor(s.outcomes, k)
    ensures Tracked(r, k, m, f, t, p)
  {
  }

  lemma ArrivalTracked(s: State, r: State, k: nat, m: nat, f: Info, t: int, q: seq<Arrival>, a: Arrival)
    requires Tracked(s, k, m, f, t, q) && k in s.table.entries && f.arrivals == []
    requires var i := Apply(s.table.entries[k].value, a); Stays(s, r, k, i) || Gains(s, r, k, Completed(i))
    ensures Tracked(r, k, m, f, t, q + [a])
  {
    var i := Apply(s.table.entries[k].value, a);
    ReplayOne(f, q, a);
    LeavesMade(f, q + [a]);
    if Stays(s, r, k, i) {
      StaysTracked(s, r, k, m, f, t, q, i, q + [a]);
    } else {
      GainsTracked(s, r, k, m, f, t, q, Completed(i), q + [a]);
    }
  }

  lemma OtherTracked(s: State, r: State, k: nat, m: nat, f: Info, t: int, q: seq<Arrival>)
    requires Tracked(s, k, m, f, t, q) && k in s.table.entries && f.arrivals == []
    requires var i := s.table.entries[k].value; Stays(s, r, k, i) || Gains(s, r, k, ExpiredOutcome(i))
    ensures Tracked(r, k, m, f, t, q)
  {
    var i := s.table.entries[k].value;
    LeavesMade(f, q);
    if Stays(s, r, k, i) {
      StaysTracked(s, r, k, m, f, t, q, i, q);
    } else {
      GainsTracked(s, r, k, m, f, t, q, ExpiredOutcome(i), q);
    }
  }

  lemma NextTracked(s: State, ev: Event, r: State, k: nat, m: nat, f: Info, t: int, q: seq<Arrival>)
    requires Inv(s) && WellKeyed(ev) && r == Next(s, ev) && Tracked(s, k, m, f, t, q) && f.arrivals == []
    ensures Tracked(r, k, m, f, t, q + ArrivalOf(ev, k))
  {
    if k !in s.table.entries {
      AbsentStep(s, ev, r, k);
      AbsentTracked(s, r, k, m, f, t, q, q + ArrivalOf(ev, k));
    } else {
      PresentStep(s, ev, r, k);
      if ev.Arrive? && ev.key == k {
        ArrivalTracked(s, r, k, m, f, t, q, ev.arrival);
      } else {
        OtherTracked(s, r, k, m, f, t, q);
        assert q + ArrivalOf(ev, k) == q;
      }
    }
  }

  lemma {:induction false} RunTracked(s: State, evs: seq<Event>, k: nat, m: nat, f: Info, t: int)
    requires Inv(s) && (forall ev :: ev in evs ==> WellKeyed(ev)) && Tracked(s, k, m, f, t, []) && f.arrivals == []
    ensures Tracked(Run(s, evs), k, m, f, t, ArrivalsFor(evs, k))
  {
    if evs != [] {
      var prefix := evs[..|evs| - 1];
      RunTracked(s, prefix, k, m, f, t);
      RunKeepsInv(s, prefix);
      NextTracked(Run(s, prefix), evs[|evs| - 1], Run(s, evs), k, m, f, t, ArrivalsFor(prefix, k));
    }
  }

  // ------------------------------------------------------------ from `Made` to the words

  lemma FreshTimes(f: Info, q: seq<Arrival>, pingCqe: nat, recv: nat, pongCqe: nat, delay: nat)
    requires f.networkDelay == 0 && OnceEach(q) && SentinelSafe(pingCqe, pongCqe)
    requires Cqe(pingCqe) in q && Pong(recv, pongCqe) in q && Ack(delay) in q
    ensures Measured(ResultOf(Replay(f, q)), f.pingid, f.dstip, f.timePingSend, f.clientDelay,
                     pingCqe, recv, pongCqe, delay)
  {
    ReplayFacts(f, q);
    AnyOrderSameTimes(f, q, pingCqe, recv, pongCqe, delay);
    DeltaIsDifference(f.clientDelay, recv, MODULO);
    DeltaIsDifference(pingCqe, pongCqe, MODULO);
    WordIsSquare(32);
    SmallMod(DeltaModulo(f.clientDelay, recv, MODULO), WORD);
    SmallMod(DeltaModulo(pingCqe, pongCqe, MODULO), WORD);
  }

  lemma MadeTells(o: Outcome, f: Info)
    requires Made(o, f) && OutcomeOk(o) && IdOf(o) == f.pingid && f.networkDelay == 0
    ensures Tells(o, f.pingid, f.dstip, f.timePingSend, f.clientDelay)
  {
    if o.Reported? && o.result.kind != FAILURE {
      ReplayFacts(f, o.arrivals);
      forall pingCqe, recv, pongCqe, delay |
        Cqe(pingCqe) in o.arrivals && Pong(recv, pongCqe) in o.arrivals && Ack(delay) in o.arrivals &&
        SentinelSafe(pingCqe, pongCqe)
        ensures Measured(o.result, f.pingid, f.dstip, f.timePingSend, f.clientDelay, pingCqe, recv, pongCqe, delay)
      {
        FreshTimes(f, o.arrivals, pingCqe, recv, pongCqe, delay);
      }
    }
  }

  /** What tracking an insert says of a state. */
  lemma TrackedTells(s: State, k: nat, m: nat, f: Info, t: int, q: seq<Arrival>)
    requires Inv(s) && Tracked(s, k, m, f, t, q) && f.pingid == k && f.networkDelay == 0
    ensures var all := OutcomesFor(s.outcomes, k);
            |all| > m ==> all[m].arrivals <= q && Tells(all[m], k, f.dstip, f.timePingSend, f.clientDelay)
  {
    var all := OutcomesFor(s.outcomes, k);
    if |all| > m {
      OutcomesForMembers(s.outcomes, k);
      assert all[m] in all;
      MadeTells(all[m], f);
    }
  }

  // -------------------------------------------------------------------- theorems

  /** An insert of `k` adds it: `k` is not there, or goes stale in that insert. */
  ghost predicate IsNew(s: State, k: nat, wait1: nat) {
    k in s.table.entries ==> Stale(s.table.entries[k], s.clock + wait1, s.threshold)
  }

  lemma NewIsAdded(m: State, k: nat, dstip: nat, systemNow: nat, wait: nat, now: nat, r: State)
    requires k !in m.table.entries && r == AddNew(m, k, k, dstip, systemNow, wait) && now == m.clock + wait
    ensures k in r.table.entries && r.table.entries[k] == Entry(FreshInfo(k, dstip, systemNow, now), now)
    ensures r.threshold == m.threshold
  {
  }

  lemma InsertAdds(s: State, k: nat, dstip: nat, systemNow: nat, wait1: nat, wait2: nat, now: nat, r: State)
    requires Inv(s) && IsNew(s, k, wait1) && now == s.clock + wait1 + wait2
    requires r == Next(s, Insert(k, k, dstip, systemNow, wait1, wait2))
    ensures k in r.table.entries && r.table.entries[k] == Entry(FreshInfo(k, dstip, systemNow, now), now)
    ensures r.threshold == s.threshold && Inv(r)
  {
    var ev, m := Insert(k, k, dstip, systemNow, wait1, wait2), Expiry(s, s.clock + wait1);
    ExpireIsFullScan(s.table, s.clock + wait1, s.threshold);
    InsertParts(s, ev, m, r);
    NewIsAdded(m, k, dstip, systemNow, wait2, now, r);
    NextKeepsInv(s, ev);
  }

  /** What has become in `z` of an insert of `k` after which the id had had the outcomes
      `was`, when `q` has arrived for it since: the entry is still there, with the values
      of that insert and with all of `q`, or the next outcome of the id is the one of this
      insert, with its values and no other arrivals. */
  ghost predicate Followed(z: State, was: seq<Outcome>, k: nat, dstip: nat, systemNow: nat, now: nat, q: seq<Arrival>) {
    var t, all := z.table, OutcomesFor(z.outcomes, k);
    && |all| >= |was|
    && (|all| == |was| ==>
          && k in t.entries && t.entries[k].timestamp == now
          && t.entries[k].value.pingid == k && t.entries[k].value.dstip == dstip
          && t.entries[k].value.timePingSend == systemNow && t.entries[k].value.arrivals == q)
    && (|all| > |was| ==> all[|was|].arrivals <= q && Tells(all[|was|], k, dstip, systemNow, now))
  }

  lemma TrackedFollowed(z: State, was: seq<Outcome>, k: nat, dstip: nat, systemNow: nat, now: nat, q: seq<Arrival>)
    requires Inv(z) && Tracked(z, k, |was|, FreshInfo(k, dstip, systemNow, now), now, q)
    ensures Followed(z, was, k, dstip, systemNow, now, q)
  {
    ReplayFacts(FreshInfo(k, dstip, systemNow, now), q);
    TrackedTells(z, k, |was|, FreshInfo(k, dstip, systemNow, now), now, q);
  }

  lemma FreshFollowed(r: State, k: nat, dstip: nat, systemNow: nat, now: nat, evs: seq<Event>, z: State)
    requires Inv(r) && (forall ev :: ev in evs ==> WellKeyed(ev)) && z == Run(r, evs)
    requires k in r.table.entries && r.table.entries[k] == Entry(FreshInfo(k, dstip, systemNow, now), now)
    ensures Followed(z, OutcomesFor(r.outcomes, k), k, dstip, systemNow, now, ArrivalsFor(evs, k))
  {
    var f, m := FreshInfo(k, dstip, systemNow, now), |OutcomesFor(r.outcomes, k)|;
    assert Tracked(r, k, m, f, now, []);
    RunTracked(r, evs, k, m, f, now);
    RunKeepsInv(r, evs);
    TrackedFollowed(z, OutcomesFor(r.outcomes, k), k, dstip, systemNow, now, ArrivalsFor(evs, k));
  }

  /** Each insert that adds an id is followed to its end, whatever comes after it, more
      inserts of the same id among it. */
  lemma InsertHasItsResult(s: State, k: nat, dstip: nat, systemNow: nat, wait1: nat, wait2: nat, now: nat, r: State,
                           evs: seq<Event>, z: State)
    requires Inv(s) && IsNew(s, k, wait1) && now == s.clock + wait1 + wait2
    requires r == Next(s, Insert(k, k, dstip, systemNow, wait1, wait2))
    requires (forall ev :: ev in evs ==> WellKeyed(ev)) && z == Run(r, evs)
    ensures Followed(z, OutcomesFor(r.outcomes, k), k, dstip, systemNow, now, ArrivalsFor(evs, k))
  {
    InsertAdds(s, k, dstip, systemNow, wait1, wait2, now, r);
    FreshFollowed(r, k, dstip, systemNow, now, evs, z);
  }

  /** How a stale ping that had the outcomes `was` leaves: with three arrivals and more
      without a result, or else as a FAILURE. */
  ghost predicate Swept(i: Info, was: seq<Outcome>, all: seq<Outcome>, k: nat) {
    && |all| == |was| + 1 && all[..|was|] == was && all[|was|].arrivals == i.arrivals
    && (all[|was|].Reported? <==> |i.arrivals| < 3)
    && (all[|was|].Reported? ==> Unanswered(all[|was|].result, k, i.dstip, i.timePingSend))
  }

  lemma OutcomeSwept(i: Info, was: seq<Outcome>, k: nat)
    requires i.pingid == k && i.recvCnt == |i.arrivals|
    ensures Swept(i, was, was + [ExpiredOutcome(i)], k)
  {
  }

  /** An insert sweeps the table of every other ping that is stale by then, to the
      nanosecond, and leaves the rest alone. */
  lemma InsertSweeps(s: State, key: nat, dstip: nat, systemNow: nat, wait1: nat, wait2: nat, r: State, k: nat)
    requires Inv(s) && r == Next(s, Insert(key, key, dstip, systemNow, wait1, wait2)) && s.threshold >= 0
    requires k in s.table.entries && k != key
    ensures k in r.table.entries <==>
            s.clock + wait1 - s.table.entries[k].timestamp < s.threshold * 1000000
    ensures if k in r.table.entries
            then r.table.entries[k] == s.table.entries[k] && OutcomesFor(r.outcomes, k) == OutcomesFor(s.outcomes, k)
            else Swept(s.table.entries[k].value, OutcomesFor(s.outcomes, k), OutcomesFor(r.outcomes, k), k)
  {
    var ev, m := Insert(key, key, dstip, systemNow, wait1, wait2), Expiry(s, s.clock + wait1);
    InsertParts(s, ev, m, r);
    ExpirySweeps(s, s.clock + wait1, m, k);
    AddOther(m, key, dstip, systemNow, wait2, r, k);
  }

  lemma ExpirySweeps(s: State, now: nat, m: State, k: nat)
    requires Inv(s) && m == Expiry(s, now) && s.threshold >= 0 && s.clock <= now && k in s.table.entries
    ensures k in m.table.entries <==> now - s.table.entries[k].timestamp < s.threshold * 1000000
    ensures if k in m.table.entries
            then m.table.entries[k] == s.table.entries[k] && OutcomesFor(m.outcomes, k) == OutcomesFor(s.outcomes, k)
            else Swept(s.table.entries[k].value, OutcomesFor(s.outcomes, k), OutcomesFor(m.outcomes, k), k)
  {
    RemovedByAge(s.table, now, s.threshold, k);
    ExpiryLeaves(s, now, m, k);
    EntryIsItsArrivals(s, k);
    OutcomeSwept(s.table.entries[k].value, OutcomesFor(s.outcomes, k), k);
  }

  lemma AddOther(m: State, key: nat, dstip: nat, systemNow: nat, wait: nat, r: State, k: nat)
    requires r == AddNew(m, key, key, dstip, systemNow, wait) && k != key
    ensures k in r.table.entries <==> k in m.table.entries
    ensures k in m.table.entries ==> r.table.entries[k] == m.table.entries[k]
    ensures r.outcomes == m.outcomes
  {
  }

  lemma EntryIsItsArrivals(s: State, k: nat)
    requires Inv(s) && k in s.table.entries
    ensures var i := s.table.entries[k].value; i.pingid == k && i.recvCnt == |i.arrivals|
  {
    var e := s.table.entries[k];
    assert EntryOk(k, e);
    ReplayFacts(FreshInfo(k, e.value.dstip, e.value.timePingSend, e.timestamp), e.value.arrivals);
  }

  lemma ExpiryLeaves(s: State, now: nat, r: State, k: nat)
    requires Inv(s) && r == Expiry(s, now) && k in s.table.entries
    ensures if k in r.table.entries
            then r.table.entries[k] == s.table.entries[k] && OutcomesFor(r.outcomes, k) == OutcomesFor(s.outcomes, k)
            else OutcomesFor(r.outcomes, k) == OutcomesFor(s.outcomes, k) + [ExpiredOutcome(s.table.entries[k].value)]
  {
    ExpireIsFullScan(s.table, now, s.threshold);
    if Stale(s.table.entries[k], now, s.threshold) {
      StaleLeavesOnce(s.table, now, s.threshold, k);
      OutcomesForAdd(s.outcomes, ExpiredOutcomes(Expired(s.table, now, s.threshold)), k);
    } else {
      ExpirySparesFresh(s, now, k);
    }
  }

  // -------------------------------------------------------------- splitting the delay

  /** For the four moments of a ping and the delay the server claims: the client's
      share never underflows, the ping is a SUCCESS exactly when the server claims
      less than the network took, and then the three shares sum to the delay the
      client saw. */
  predicate SharesSum(r: Result, sent: nat, pingCqe: nat, pongCqe: nat, recv: nat, delay: nat)
    requires sent <= pingCqe <= pongCqe <= recv
  {
    && r.client == (pingCqe - sent) + (recv - pongCqe)
    && (r.kind == SUCCESS <==> delay < pongCqe - pingCqe)
    && (r.kind == SUCCESS ==> r.client + r.network + r.server == recv - sent)
    && (r.kind == WEIRD ==> r.client + r.network == recv - sent)
    && r.kind != FAILURE
  }

  /** A reading of a 64-bit clock serves as well as the moment. */
  lemma ReadingsDiffer(a: nat, b: nat)
    requires a <= b && b - a < MODULO
    ensures (b % WORD - a) % MODULO == b - a && (b % WORD - a % WORD) % MODULO == b - a
  {
    WordIsSquare(32);
    WrapThenMod(a, MODULO, MODULO);
    WrapThenMod(b, MODULO, MODULO);
    DeltaIsDifference(a, b, MODULO);
    DeltaIsDifference(a, b % WORD, MODULO);
    DeltaIsDifference(a % WORD, b % WORD, MODULO);
    SmallMod(b - a, MODULO);
  }

  lemma MeasuredSharesSum(r: Result, k: nat, dstip: nat, systemNow: nat,
                          sent: nat, pingCqe: nat, pongCqe: nat, recv: nat, delay: nat)
    requires sent <= pingCqe <= pongCqe <= recv && recv - sent < MODULO
    requires Measured(r, k, dstip, systemNow, sent, pingCqe % WORD, recv % WORD, pongCqe % WORD, delay)
    ensures SharesSum(r, sent, pingCqe, pongCqe, recv, delay)
  {
    ReadingsDiffer(sent, recv);
    ReadingsDiffer(pingCqe, pongCqe);
  }

  lemma TellsSharesSum(o: Outcome, k: nat, dstip: nat, systemNow: nat,
                       sent: nat, pingCqe: nat, pongCqe: nat, recv: nat, delay: nat)
    requires Tells(o, k, dstip, systemNow, sent) && o.Reported? && o.result.kind != FAILURE
    requires Cqe(pingCqe % WORD) in o.arrivals && Pong(recv % WORD, pongCqe % WORD) in o.arrivals &&
             Ack(delay) in o.arrivals && SentinelSafe(pingCqe % WORD, pongCqe % WORD)
    requires sent <= pingCqe <= pongCqe <= recv && recv - sent < MODULO
    ensures Names(o.result, k, dstip, systemNow) && SharesSum(o.result, sent, pingCqe, pongCqe, recv, delay)
  {
    MeasuredSharesSum(o.result, k, dstip, systemNow, sent, pingCqe, pongCqe, recv, delay);
  }

  /** The three arrivals of `k` with these times, in any order, the last of them the last
      event, while an entry stamped `sent` is fresh. */
  ghost predicate AllArrive(z: State, sent: nat, evs: seq<Event>, k: nat,
                            pingCqe: nat, recv: nat, pongCqe: nat, delay: nat) {
    var q := ArrivalsFor(evs, k);
    && ElapsedMs(z.clock, sent) < z.threshold
    && evs != [] && evs[|evs| - 1].Arrive? && evs[|evs| - 1].key == k
    && OnceEach(q) && Cqe(pingCqe) in q && Pong(recv, pongCqe) in q && Ack(delay) in q
    && SentinelSafe(pingCqe, pongCqe)
  }

  lemma {:induction false} RunThreshold(s: State, evs: seq<Event>)
    ensures Run(s, evs).threshold == s.threshold
  {
    if evs != [] {
      RunThreshold(s, evs[..|evs| - 1]);
      ClockMoves(Run(s, evs[..|evs| - 1]), evs[|evs| - 1]);
    }
  }

  lemma LastIsReported(r: State, evs: seq<Event>, z: State, k: nat, f: Info, sent: nat,
                       pingCqe: nat, recv: nat, pongCqe: nat, delay: nat)
      returns (o: Outcome)
    requires Inv(r) && (forall ev :: ev in evs ==> WellKeyed(ev)) && z == Run(r, evs)
    requires k in r.table.entries && r.table.entries[k] == Entry(f, sent) && f.arrivals == []
    requires AllArrive(z, sent, evs, k, pingCqe, recv, pongCqe, delay)
    ensures k !in z.table.entries
    ensures OutcomesFor(z.outcomes, k) == OutcomesFor(r.outcomes, k) + [o]
    ensures o.Reported? && o.result.kind != FAILURE && o.arrivals == ArrivalsFor(evs, k)
  {
    RunThreshold(r, evs);
    SameResultInAnyOrder(r, evs, k, pingCqe, recv, pongCqe, delay);
    o := Reported(ResultFor(r.table.entries[k], pingCqe, recv, pongCqe, delay), ArrivalsFor(evs, k));
  }

  lemma FollowedTells(z: State, was: seq<Outcome>, k: nat, dstip: nat, systemNow: nat, now: nat, q: seq<Arrival>,
                      o: Outcome)
    requires Followed(z, was, k, dstip, systemNow, now, q) && OutcomesFor(z.outcomes, k) == was + [o]
    ensures Tells(o, k, dstip, systemNow, now)
  {
  }

  /** A ping is inserted with the steady clock at `sent`; its three arrivals come in any
      order, among any events for others, before it goes stale, with readings that are
      safe: the result it is reported with names the ping, its destination and its time,
      and its shares sum to the delay the client saw. */
  lemma ReportedSharesSum(s: State, k: nat, dstip: nat, systemNow: nat, wait1: nat, wait2: nat, r: State,
                          evs: seq<Event>, z: State, sent: nat, pingCqe: nat, pongCqe: nat, recv: nat, delay: nat)
      returns (o: Outcome)
    requires Inv(s) && IsNew(s, k, wait1) && sent == s.clock + wait1 + wait2
    requires r == Next(s, Insert(k, k, dstip, systemNow, wait1, wait2))
    requires (forall ev :: ev in evs ==> WellKeyed(ev)) && z == Run(r, evs)
    requires AllArrive(z, sent, evs, k, pingCqe % WORD, recv % WORD, pongCqe % WORD, delay)
    requires sent <= pingCqe <= pongCqe <= recv && recv - sent < MODULO
    ensures k !in z.table.entries && OutcomesFor(z.outcomes, k) == OutcomesFor(r.outcomes, k) + [o] && o.Reported?
    ensures Names(o.result, k, dstip, systemNow) && SharesSum(o.result, sent, pingCqe, pongCqe, recv, delay)
  {
    var f := FreshInfo(k, dstip, systemNow, sent);
    InsertAdds(s, k, dstip, systemNow, wait1, wait2, sent, r);
    o := LastIsReported(r, evs, z, k, f, sent, pingCqe % WORD, recv % WORD, pongCqe % WORD, delay);
    FreshFollowed(r, k, dstip, systemNow, sent, evs, z);
    FollowedTells(z, OutcomesFor(r.outcomes, k), k, dstip, systemNow, sent, ArrivalsFor(evs, k), o);
    TellsSharesSum(o, k, dstip, systemNow, sent, pingCqe, pongCqe, recv, delay);
  }
}
