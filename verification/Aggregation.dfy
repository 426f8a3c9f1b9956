/** The thread that gathers results by destination and reports them at intervals. */
module Aggregation {
  import opened Common

  datatype Kind = SUCCESS | FAILURE | WEIRD | UNKNOWN

  datatype Message = Message(pingid: nat, dstip: nat, timePingSend: nat, client: nat, network: nat, server: nat,
                             kind: Kind)

  datatype Info = Info(nSuccess: nat, nFailure: nat, nWeird: nat, tsStart: nat, tsEnd: nat,
                       client: seq<nat>, network: seq<nat>, server: seq<nat>)

  const NEW: Info := Info(0, 0, 0, 0, 0, [], [], [])

  /** `reports` are the histories reported so far; `dequeued` is history. */
  datatype State = State(table: map<nat, Info>, lastReport: nat, reports: seq<map<nat, Info>>, dequeued: seq<Message>)

  /** One turn of the loop: what the queue gave within its timeout, and the time. */
  datatype Turn = Turn(got: Option<Message>, now: nat)

  function At(table: map<nat, Info>, d: nat): Info {
    if d in table then table[d] else NEW
  }

  /** The time stamps are taken whatever the kind. */
  function Stamped(i: Info, m: Message): Info {
    i.(tsStart := if i.tsStart == 0 then m.timePingSend else i.tsStart, tsEnd := m.timePingSend)
  }

  function Counted(i: Info, m: Message): Info {
    match m.kind
    case SUCCESS => i.(nSuccess := i.nSuccess + 1, client := i.client + [m.client],
                       network := i.network + [m.network], server := i.server + [m.server])
    case FAILURE => i.(nFailure := i.nFailure + 1)
    case WEIRD => i.(nWeird := i.nWeird + 1)
    case UNKNOWN => i
  }

  function Taken(s: State, m: Message): State {
    s.(table := s.table[m.dstip := Counted(Stamped(At(s.table, m.dstip), m), m)], dequeued := s.dequeued + [m])
  }

  function Report(s: State, now: nat, interval: nat): State {
    if now >= s.lastReport && (now - s.lastReport) / 1000000 >= interval
    then State(map[], now, s.reports + [s.table], s.dequeued)
    else s
  }

  /** A message of unknown kind goes straight on to the next turn. */
  function Step(s: State, t: Turn, interval: nat): State {
    if t.got.None? then Report(s, t.now, interval)
    else
      var m := Taken(s, t.got.value);
      if t.got.value.kind == UNKNOWN then m else Report(m, t.now, interval)
  }

  function Run(s: State, turns: seq<Turn>, interval: nat): State {
    if turns == [] then s else Step(Run(s, turns[..|turns| - 1], interval), turns[|turns| - 1], interval)
  }

  function Start(now: nat): State { State(map[], now, [], []) }

  // --------------------------------------------------------- what messages amount to

  /** The messages for destination `d`, in order. */
  function To(q: seq<Message>, d: nat): seq<Message> {
    if q == [] then [] else To(q[..|q| - 1], d) + if q[|q| - 1].dstip == d then [q[|q| - 1]] else []
  }

  function OfKind(q: seq<Message>, kind: Kind): seq<Message> {
    if q == [] then [] else OfKind(q[..|q| - 1], kind) + if q[|q| - 1].kind == kind then [q[|q| - 1]] else []
  }

  /** The numbers are those of the messages `q` of each kind, and the histories the
      delays of the successes, in order. */
  ghost predicate Amounts(nSuccess: nat, nFailure: nat, nWeird: nat, client: seq<nat>, network: seq<nat>,
                          server: seq<nat>, q: seq<Message>)
  {
    var ok := OfKind(q, SUCCESS);
    && nSuccess == |ok| && nFailure == |OfKind(q, FAILURE)| && nWeird == |OfKind(q, WEIRD)|
    && |client| == |network| == |server| == |ok|
    && forall j :: 0 <= j < |ok| ==>
         client[j] == ok[j].client && network[j] == ok[j].network && server[j] == ok[j].server
  }

  /** The end is the last sending time, the start the first that is not 0. */
  ghost predicate Stamps(tsStart: nat, tsEnd: nat, q: seq<Message>) {
    && tsEnd == (if q == [] then 0 else q[|q| - 1].timePingSend)
    && (if tsStart == 0 then forall j :: 0 <= j < |q| ==> q[j].timePingSend == 0
        else exists j :: 0 <= j < |q| && q[j].timePingSend == tsStart &&
                         forall l :: 0 <= l < j ==> q[l].timePingSend == 0)
  }

  /** `i` says of destination `d` what the messages `q` do. */
  ghost predicate Describes(i: Info, q: seq<Message>, d: nat) {
    && Amounts(i.nSuccess, i.nFailure, i.nWeird, i.client, i.network, i.server, To(q, d))
    && Stamps(i.tsStart, i.tsEnd, To(q, d))
  }

  lemma ToOne(q: seq<Message>, m: Message, d: nat)
    ensures To(q + [m], d) == if m.dstip == d then To(q, d) + [m] else To(q, d)
  {
    assert (q + [m])[..|q|] == q;
  }

  lemma OfKindOne(q: seq<Message>, m: Message, kind: Kind)
    ensures OfKind(q + [m], kind) == if m.kind == kind then OfKind(q, kind) + [m] else OfKind(q, kind)
  {
    assert (q + [m])[..|q|] == q;
  }

  lemma CountedAmounts(i: Info, q: seq<Message>, m: Message, r: Info)
    requires Amounts(i.nSuccess, i.nFailure, i.nWeird, i.client, i.network, i.server, q)
    requires r == Counted(i, m)
    ensures Amounts(r.nSuccess, r.nFailure, r.nWeird, r.client, r.network, r.server, q + [m])
  {
    OfKindOne(q, m, SUCCESS);
    OfKindOne(q, m, FAILURE);
    OfKindOne(q, m, WEIRD);
  }

  lemma StampedStamps(i: Info, q: seq<Message>, m: Message, r: Info)
    requires Stamps(i.tsStart, i.tsEnd, q) && r == Counted(Stamped(i, m), m)
    ensures Stamps(r.tsStart, r.tsEnd, q + [m])
  {
    var t := q + [m];
    assert t[|q|] == m && forall j :: 0 <= j < |q| ==> t[j] == q[j];
    if i.tsStart != 0 {
      var j :| 0 <= j < |q| && q[j].timePingSend == i.tsStart && forall l :: 0 <= l < j ==> q[l].timePingSend == 0;
      assert t[j].timePingSend == r.tsStart;
    }
  }

  // ------------------------------------------------------------------- conservation

  /** What the messages say of destination `d`. */
  function Said(q: seq<Message>, d: nat): Info {
    if q == [] then NEW
    else
      var m := q[|q| - 1];
      if m.dstip == d then Counted(Said(q[..|q| - 1], d), m) else Said(q[..|q| - 1], d)
  }

  /** Two histories one after the other; their time stamps do not count here. */
  function Joined(a: Info, b: Info): Info {
    Info(a.nSuccess + b.nSuccess, a.nFailure + b.nFailure, a.nWeird + b.nWeird, 0, 0,
         a.client + b.client, a.network + b.network, a.server + b.server)
  }

  function Reported(reports: seq<map<nat, Info>>, d: nat): Info {
    if reports == [] then NEW else Joined(Reported(reports[..|reports| - 1], d), At(reports[|reports| - 1], d))
  }

  /** The counts of successes are the lengths of the three histories. */
  ghost predicate Even(i: Info) {
    i.nSuccess == |i.client| == |i.network| == |i.server|
  }

  /** All that was dequeued for `d` is in the reports or in the table, in order. */
  ghost predicate Kept(s: State, d: nat) {
    Said(s.dequeued, d) == Joined(Reported(s.reports, d), At(s.table, d))
  }

  lemma CountLater(x: Info, a: Info, b: Info, m: Message, y: Info)
    requires x == Joined(a, b) && y == Counted(Stamped(b, m), m)
    ensures Counted(x, m) == Joined(a, y)
  {
    assert a.client + b.client + [m.client] == a.client + (b.client + [m.client]);
    assert a.network + b.network + [m.network] == a.network + (b.network + [m.network]);
    assert a.server + b.server + [m.server] == a.server + (b.server + [m.server]);
  }

  lemma SaidOne(q: seq<Message>, m: Message, d: nat)
    ensures Said(q + [m], d) == if m.dstip == d then Counted(Said(q, d), m) else Said(q, d)
  {
    assert (q + [m])[..|q + [m]| - 1] == q;
  }

  lemma TakenAt(s: State, m: Message, d: nat, r: State)
    requires r == Taken(s, m)
    ensures At(r.table, d) == if m.dstip == d then Counted(Stamped(At(s.table, d), m), m) else At(s.table, d)
    ensures r.dequeued == s.dequeued + [m] && r.reports == s.reports
  {
  }

  lemma OtherKeeps(s: State, m: Message, d: nat, r: State)
    requires Kept(s, d) && r.dequeued == s.dequeued + [m] && r.reports == s.reports
    requires m.dstip != d && At(r.table, d) == At(s.table, d)
    ensures Kept(r, d)
  {
    SaidOne(s.dequeued, m, d);
  }

  lemma OwnKeeps(s: State, m: Message, d: nat, r: State)
    requires Kept(s, d) && r.dequeued == s.dequeued + [m] && r.reports == s.reports
    requires m.dstip == d && At(r.table, d) == Counted(Stamped(At(s.table, d), m), m)
    ensures Kept(r, d)
  {
    SaidOne(s.dequeued, m, d);
    CountLater(Said(s.dequeued, d), Reported(s.reports, d), At(s.table, d), m, At(r.table, d));
  }

  lemma TakenKeeps(s: State, m: Message, d: nat, r: State)
    requires Kept(s, d) && r == Taken(s, m)
    ensures Kept(r, d)
  {
    TakenAt(s, m, d, r);
    if m.dstip == d {
      OwnKeeps(s, m, d, r);
    } else {
      OtherKeeps(s, m, d, r);
    }
  }

  lemma JoinNew(a: Info, b: Info, x: Info)
    requires x == Joined(a, b)
    ensures x == Joined(x, NEW)
  {
  }

  lemma ReportedOne(reports: seq<map<nat, Info>>, table: map<nat, Info>, d: nat)
    ensures Reported(reports + [table], d) == Joined(Reported(reports, d), At(table, d))
  {
    assert (reports + [table])[..|reports + [table]| - 1] == reports;
  }

  lemma ReportKeeps(s: State, now: nat, interval: nat, d: nat, r: State)
    requires Kept(s, d) && r == Report(s, now, interval)
    ensures Kept(r, d)
  {
    if r != s {
      ReportedOne(s.reports, s.table, d);
      JoinNew(Reported(s.reports, d), At(s.table, d), Said(s.dequeued, d));
    }
  }

  lemma StepKeeps(s: State, t: Turn, interval: nat, d: nat, r: State)
    requires Kept(s, d) && r == Step(s, t, interval)
    ensures Kept(r, d)
  {
    if t.got.None? {
      ReportKeeps(s, t.now, interval, d, r);
    } else {
      var m := Taken(s, t.got.value);
      TakenKeeps(s, t.got.value, d, m);
      if t.got.value.kind != UNKNOWN {
        ReportKeeps(m, t.now, interval, d, r);
      }
    }
  }

  lemma {:induction false} RunKeeps(s: State, turns: seq<Turn>, interval: nat, d: nat)
    requires Kept(s, d)
    ensures Kept(Run(s, turns, interval), d)
  {
    if turns != [] {
      var front := turns[..|turns| - 1];
      RunKeeps(s, front, interval, d);
      StepKeeps(Run(s, front, interval), turns[|turns| - 1], interval, d, Run(s, turns, interval));
    }
  }

  lemma NothingKept(s: State, d: nat)
    requires s.table == map[] && s.reports == [] && s.dequeued == []
    ensures Kept(s, d)
  {
    JoinNothing(Said(s.dequeued, d));
  }

  lemma JoinNothing(a: Info)
    requires a == NEW
    ensures a == Joined(a, a)
  {
    assert a.client + a.client == [] && a.network + a.network == [] && a.server + a.server == [];
  }

  lemma {:induction false} SaidAmounts(q: seq<Message>, d: nat)
    ensures var i := Said(q, d);
            Amounts(i.nSuccess, i.nFailure, i.nWeird, i.client, i.network, i.server, To(q, d))
  {
    if q != [] {
      var front, m := q[..|q| - 1], q[|q| - 1];
      SaidAmounts(front, d);
      assert q == front + [m];
      ToOne(front, m, d);
      if m.dstip == d {
        CountedAmounts(Said(front, d), To(front, d), m, Said(q, d));
      }
    }
  }

  /** The two together amount to the messages `q`. */
  ghost predicate AddUp(a: Info, b: Info, q: seq<Message>) {
    Amounts(a.nSuccess + b.nSuccess, a.nFailure + b.nFailure, a.nWeird + b.nWeird,
            a.client + b.client, a.network + b.network, a.server + b.server, q)
  }

  /** Over any run and for each destination: the delays and the counts in the
      reports, in order, followed by those still pending, are those of the messages
      dequeued; nothing is lost or reported twice. */
  lemma NothingLost(now: nat, turns: seq<Turn>, interval: nat, d: nat)
    ensures var s := Run(Start(now), turns, interval);
            AddUp(Reported(s.reports, d), At(s.table, d), To(s.dequeued, d))
  {
    KeptInRun(now, turns, interval, d);
    SaidAmounts(Run(Start(now), turns, interval).dequeued, d);
  }

  lemma KeptInRun(now: nat, turns: seq<Turn>, interval: nat, d: nat)
    ensures Kept(Run(Start(now), turns, interval), d)
  {
    NothingKept(Start(now), d);
    RunKeeps(Start(now), turns, interval, d);
  }

  /** A report is made at a turn exactly when the interval, in milliseconds, is over
      since the last one; only a message of unknown kind puts it off. */
  lemma ReportWhenDue(now: nat, turns: seq<Turn>, t: Turn, interval: nat)
    requires t.now >= Run(Start(now), turns, interval).lastReport
    ensures var s := Run(Start(now), turns, interval);
            var r := Run(Start(now), turns + [t], interval);
            var due := t.now - s.lastReport >= interval * 1000000 && !(t.got.Some? && t.got.value.kind == UNKNOWN);
            && |r.reports| == |s.reports| + (if due then 1 else 0)
            && r.lastReport == (if due then t.now else s.lastReport) && (due ==> r.table == map[])
  {
    assert (turns + [t])[..|turns|] == turns;
  }

  ghost predicate AllEven(table: map<nat, Info>) {
    forall d :: d in table ==> Even(table[d])
  }

  /** At every moment, in the table and in every report, the number of successes is
      the length of each of the three histories. */
  lemma {:induction false} SuccessesAreEven(now: nat, turns: seq<Turn>, interval: nat)
    ensures var s := Run(Start(now), turns, interval);
            AllEven(s.table) && forall r :: r in s.reports ==> AllEven(r)
  {
    if turns != [] {
      SuccessesAreEven(now, turns[..|turns| - 1], interval);
    }
  }

  /** How many messages of known kind there are for `d`. */
  function Known(q: seq<Message>, d: nat): nat {
    if q == [] then 0
    else Known(q[..|q| - 1], d) + if q[|q| - 1].dstip == d && q[|q| - 1].kind != UNKNOWN then 1 else 0
  }

  lemma {:induction false} SaidCounts(q: seq<Message>, d: nat)
    ensures Said(q, d).nSuccess + Said(q, d).nFailure + Said(q, d).nWeird == Known(q, d)
  {
    if q != [] {
      SaidCounts(q[..|q| - 1], d);
    }
  }

  /** In numbers: reported and pending results are the known messages dequeued. */
  lemma CountsConserved(now: nat, turns: seq<Turn>, interval: nat, d: nat)
    ensures var s := Run(Start(now), turns, interval);
            var r, p := Reported(s.reports, d), At(s.table, d);
            r.nSuccess + r.nFailure + r.nWeird + p.nSuccess + p.nFailure + p.nWeird == Known(s.dequeued, d)
  {
    KeptInRun(now, turns, interval, d);
    SaidCounts(Run(Start(now), turns, interval).dequeued, d);
  }

  // ------------------------------------------------- which message is in which report

  /** What a table says of `d` after the messages `q`, time stamps included. */
  function Digest(q: seq<Message>, d: nat): Info {
    if q == [] then NEW
    else
      var m := q[|q| - 1];
      if m.dstip == d then Counted(Stamped(Digest(q[..|q| - 1], d), m), m) else Digest(q[..|q| - 1], d)
  }

  function Flat<X>(bs: seq<seq<X>>): seq<X> {
    if bs == [] then [] else Flat(bs[..|bs| - 1]) + bs[|bs| - 1]
  }

  function Got(t: Turn): seq<Message> { if t.got.Some? then [t.got.value] else [] }

  /** The messages of each report so far, and those since, after a turn from `s` to `r`. */
  function Batched(s: State, r: State, bs: seq<seq<Message>>, b: seq<Message>, t: Turn)
    : (seq<seq<Message>>, seq<Message>)
  {
    if |r.reports| > |s.reports| then (bs + [b + Got(t)], []) else (bs, b + Got(t))
  }

  function Batches(now: nat, turns: seq<Turn>, interval: nat): (seq<seq<Message>>, seq<Message>) {
    if turns == [] then ([], [])
    else
      var front := turns[..|turns| - 1];
      var (bs, b) := Batches(now, front, interval);
      Batched(Run(Start(now), front, interval), Run(Start(now), turns, interval), bs, b, turns[|turns| - 1])
  }

  ghost predicate Digests(table: map<nat, Info>, q: seq<Message>) {
    forall d: nat :: At(table, d) == Digest(q, d) && (d in table <==> To(q, d) != [])
  }

  /** A report, line by line: the destinations of the messages `q`, each with what
      they amount to. */
  ghost predicate ReportOf(table: map<nat, Info>, q: seq<Message>) {
    forall d: nat :: (d in table <==> To(q, d) != []) && (d in table ==> Describes(table[d], q, d))
  }

  lemma {:induction false} DigestDescribes(q: seq<Message>, d: nat)
    ensures Describes(Digest(q, d), q, d)
  {
    if q != [] {
      var front, m := q[..|q| - 1], q[|q| - 1];
      DigestDescribes(front, d);
      assert q == front + [m];
      ToOne(front, m, d);
      if m.dstip == d {
        var i := Digest(front, d);
        CountedAmounts(Stamped(i, m), To(front, d), m, Digest(q, d));
        StampedStamps(i, To(front, d), m, Digest(q, d));
      }
    }
  }

  lemma DigestsReport(table: map<nat, Info>, q: seq<Message>)
    requires Digests(table, q)
    ensures ReportOf(table, q)
  {
    forall d: nat
      ensures (d in table <==> To(q, d) != []) && (d in table ==> Describes(table[d], q, d))
    {
      assert At(table, d) == Digest(q, d);
      DigestDescribes(q, d);
    }
  }

  /** The messages dequeued fall into batches, one for each report, which says just what
      they amount to, and the rest, which the table does. */
  ghost predicate AsBatched(s: State, bs: seq<seq<Message>>, b: seq<Message>) {
    && |bs| == |s.reports| && (forall i :: 0 <= i < |bs| ==> ReportOf(s.reports[i], bs[i]))
    && ReportOf(s.table, b) && Flat(bs) + b == s.dequeued
  }

  lemma DigestedAsBatched(s: State, bs: seq<seq<Message>>, b: seq<Message>)
    requires Digested(s, bs, b)
    ensures AsBatched(s, bs, b)
  {
    forall i | 0 <= i < |bs|
      ensures ReportOf(s.reports[i], bs[i])
    {
      DigestsReport(s.reports[i], bs[i]);
    }
    DigestsReport(s.table, b);
  }

  /** The reports are the digests of the batches, the table that of the rest, and
      together they are the messages dequeued, in order. */
  ghost predicate Digested(s: State, bs: seq<seq<Message>>, b: seq<Message>) {
    && |bs| == |s.reports| && (forall i :: 0 <= i < |bs| ==> Digests(s.reports[i], bs[i]))
    && Digests(s.table, b) && Flat(bs) + b == s.dequeued
  }

  lemma DigestOne(q: seq<Message>, m: Message, d: nat)
    ensures Digest(q + [m], d) == if m.dstip == d then Counted(Stamped(Digest(q, d), m), m) else Digest(q, d)
  {
    assert (q + [m])[..|q + [m]| - 1] == q;
  }

  lemma FlatOne<X>(bs: seq<seq<X>>, b: seq<X>)
    ensures Flat(bs + [b]) == Flat(bs) + b
  {
    assert (bs + [b])[..|bs + [b]| - 1] == bs;
  }

  lemma TakenDigests(s: State, m: Message, bs: seq<seq<Message>>, b: seq<Message>, r: State)
    requires Digested(s, bs, b) && r == Taken(s, m)
    ensures Digested(r, bs, b + [m])
  {
    forall d: nat
      ensures At(r.table, d) == Digest(b + [m], d) && (d in r.table <==> To(b + [m], d) != [])
    {
      TakenAt(s, m, d, r);
      DigestOne(b, m, d);
      ToOne(b, m, d);
      assert At(s.table, d) == Digest(b, d);
    }
    assert Flat(bs) + (b + [m]) == Flat(bs) + b + [m];
  }

  lemma ReportDigests(s: State, now: nat, interval: nat, bs: seq<seq<Message>>, b: seq<Message>, r: State)
    requires Digested(s, bs, b) && r == Report(s, now, interval)
    ensures r == s || r.reports == s.reports + [s.table]
    ensures if |r.reports| > |s.reports| then Digested(r, bs + [b], []) else Digested(r, bs, b)
  {
    if r != s {
      FlatOne(bs, b);
      assert Flat(bs + [b]) + [] == s.dequeued;
      NewDigests(r.table);
    }
  }

  lemma NewDigests(table: map<nat, Info>)
    requires table == map[]
    ensures Digests(table, [])
  {
  }

  lemma StepDigests(s: State, t: Turn, interval: nat, bs: seq<seq<Message>>, b: seq<Message>, r: State)
    requires Digested(s, bs, b) && r == Step(s, t, interval)
    ensures var (cs, c) := Batched(s, r, bs, b, t); Digested(r, cs, c)
  {
    if t.got.None? {
      assert b + Got(t) == b;
      ReportDigests(s, t.now, interval, bs, b, r);
    } else {
      var m := Taken(s, t.got.value);
      TakenDigests(s, t.got.value, bs, b, m);
      if t.got.value.kind != UNKNOWN {
        ReportDigests(m, t.now, interval, bs, b + [t.got.value], r);
      }
    }
  }

  /** Over any run the messages dequeued fall into batches, one for each report, and
      the rest; each report has a line for each destination of its own batch, with the
      counts, the delays and the times of the messages to it. */
  lemma EachReportIsItsBatch(now: nat, turns: seq<Turn>, interval: nat)
    ensures var (bs, b) := Batches(now, turns, interval); AsBatched(Run(Start(now), turns, interval), bs, b)
  {
    RunDigested(now, turns, interval);
    var (bs, b) := Batches(now, turns, interval);
    DigestedAsBatched(Run(Start(now), turns, interval), bs, b);
  }

  lemma {:induction false} RunDigested(now: nat, turns: seq<Turn>, interval: nat)
    ensures var (bs, b) := Batches(now, turns, interval); Digested(Run(Start(now), turns, interval), bs, b)
  {
    if turns == [] {
      NewDigests(Start(now).table);
    } else {
      var front := turns[..|turns| - 1];
      RunDigested(now, front, interval);
      var (bs, b) := Batches(now, front, interval);
      StepDigests(Run(Start(now), front, interval), turns[|turns| - 1], interval, bs, b,
                  Run(Start(now), turns, interval));
    }
  }

  // --------------------------------------------------------------------- the object

  class ResultThread {
    var dstip2result: map<nat, Info>
    var lastReportTime: nat
    ghost var reports: seq<map<nat, Info>>
    ghost var dequeued: seq<Message>
    const reportIntervalMs: nat

    /** When it was made, and the turns of its loop. */
    ghost const born: nat
    ghost var turns: seq<Turn>

    ghost function Machine(): State
      reads this
    {
      State(dstip2result, lastReportTime, reports, dequeued)
    }

    ghost predicate Valid()
      reads this
    {
      Machine() == Run(Start(born), turns, reportIntervalMs)
    }

    constructor (interval: nat, now: nat)
      ensures Machine() == Start(now) && reportIntervalMs == interval && Valid()
    {
      dstip2result, lastReportTime, reports, dequeued := map[], now, [], [];
      reportIntervalMs, born, turns := interval, now, [];
    }

    /** At every moment of the object's life, for each destination: what was reported
        and what is pending, in order, is what was dequeued. */
    lemma NothingLostHere(d: nat)
      requires Valid()
      ensures AddUp(Reported(reports, d), At(dstip2result, d), To(dequeued, d))
    {
      NothingLost(born, turns, reportIntervalMs, d);
    }

    /** One turn of the loop. */
    method Iterate(got: Option<Message>, now: nat)
      requires Valid() && lastReportTime <= now
      modifies this
      ensures Machine() == Step(old(Machine()), Turn(got, now), reportIntervalMs)
      ensures Valid() && turns == old(turns) + [Turn(got, now)]
    {
      assert (turns + [Turn(got, now)])[..|turns|] == turns;
      turns := turns + [Turn(got, now)];
      if got.Some? {
        var m := got.value;
        var info := if m.dstip in dstip2result then dstip2result[m.dstip] else NEW;
        if info.tsStart == 0 {
          info := info.(tsStart := m.timePingSend);
        }
        info := info.(tsEnd := m.timePingSend);
        match m.kind {
          case SUCCESS =>
            info := info.(nSuccess := info.nSuccess + 1, client := info.client + [m.client],
                          network := info.network + [m.network], server := info.server + [m.server]);
          case FAILURE => info := info.(nFailure := info.nFailure + 1);
          case WEIRD => info := info.(nWeird := info.nWeird + 1);
          case UNKNOWN =>
        }
        dstip2result := dstip2result[m.dstip := info];
        dequeued := dequeued + [m];
        if m.kind == UNKNOWN {
          return;
        }
      }
      if (now - lastReportTime) / 1000000 >= reportIntervalMs {
        reports := reports + [dstip2result];
        dstip2result := map[];
        lastReportTime := now;
      }
    }
  }
}
