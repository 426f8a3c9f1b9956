/** The client's table of outstanding TCP and UDP pings: a PONG completes a ping
    at once, and one that waits too long fails. */
module TcpUdpPinginfoMapObject {
  import opened Bits
  import opened Common
  import opened TimeDelta
  import opened ExpiringTable

  /** `networkDelay` holds the time of the insert until the PONG arrives. */
  datatype Info = Info(pingid: nat, dstip: nat, timePingSend: nat, networkDelay: nat)

  datatype Kind = SUCCESS | FAILURE

  datatype Result = Result(pingid: nat, dstip: nat, timePingSend: nat, delay: nat, kind: Kind)

  function Failed(i: Info): Result {
    Result(i.pingid, i.dstip, i.timePingSend, 0, FAILURE)
  }

  function Answered(i: Info, recvTime: nat): Result
    requires i.networkDelay < WORD && recvTime < WORD
  {
    Result(i.pingid, i.dstip, i.timePingSend, DeltaBitwrap(i.networkDelay, recvTime, WORD - 1), SUCCESS)
  }

  function FailedAll(q: seq<Info>): (r: seq<Result>)
    ensures |r| == |q| && forall j :: 0 <= j < |q| ==> r[j] == Failed(q[j])
  {
    seq(|q|, j requires 0 <= j < |q| => Failed(q[j]))
  }

  /** The results `q` are one failure, with no delay, for each of the pings `gone`. */
  ghost predicate FailuresOf(q: seq<Result>, gone: seq<Info>) {
    |q| == |gone| && forall j :: 0 <= j < |q| ==>
      && q[j].kind == FAILURE && q[j].delay == 0 && q[j].pingid == gone[j].pingid
      && q[j].dstip == gone[j].dstip && q[j].timePingSend == gone[j].timePingSend
  }

  function Ids(q: seq<Result>): (r: seq<nat>)
    ensures |r| == |q| && forall j :: 0 <= j < |q| ==> r[j] == q[j].pingid
  {
    seq(|q|, j requires 0 <= j < |q| => q[j].pingid)
  }

  /** Every entry stands for the id it is under, stamped when it was inserted. */
  ghost predicate EntriesOk(t: Table<Info>) {
    forall k :: k in t.entries ==>
      && t.entries[k].value.pingid == k && t.entries[k].timestamp >= 0
      && t.entries[k].value.networkDelay == t.entries[k].timestamp % WORD
  }

  /** Each insert of an id is still in the table or has its one result. */
  ghost predicate Conserved(inserted: multiset<nat>, keyList: seq<nat>, results: seq<Result>) {
    inserted == multiset(keyList) + multiset(Ids(results))
  }

  lemma FrontLeaves(keys: seq<nat>, n: nat, inserted: multiset<nat>, results: seq<Result>, gone: seq<Result>)
    requires |gone| == n <= |keys| && Ids(gone) == keys[..n] && Conserved(inserted, keys, results)
    ensures Conserved(inserted, keys[n..], results + gone)
  {
    assert Ids(results + gone) == Ids(results) + keys[..n];
    assert keys == keys[..n] + keys[n..];
  }

  lemma ExpireConserves(t: Table<Info>, now: int, threshold: int, inserted: multiset<nat>, results: seq<Result>)
    requires Ordered(t) && EntriesOk(t) && Conserved(inserted, t.keyList, results)
    ensures Conserved(inserted, Expire(t, now, threshold).keyList, results + FailedAll(Expired(t, now, threshold)))
  {
    var n, gone := Leaving(t, now, threshold), FailedAll(Expired(t, now, threshold));
    ExpiredIsFront(t, now, threshold);
    FrontLeaves(t.keyList, n, inserted, results, gone);
  }

  lemma AnswerConserves(keyList: seq<nat>, k: nat, inserted: multiset<nat>, results: seq<Result>, r: Result)
    requires k in keyList && r.pingid == k && Conserved(inserted, keyList, results)
    ensures Conserved(inserted, Without(keyList, k), results + [r])
  {
    WithoutOne(keyList, k);
    assert Ids(results + [r]) == Ids(results) + [k];
  }

  lemma AnswerKeeps(t: Table<Info>, k: nat, clock: int, inserted: multiset<nat>, results: seq<Result>, r: Result)
    requires Ordered(t) && Past(t, clock) && EntriesOk(t) && k in t.entries && r.pingid == k &&
             Conserved(inserted, t.keyList, results)
    ensures var u := Table(t.entries - {k}, Without(t.keyList, k));
            Ordered(u) && Past(u, clock) && EntriesOk(u) && Conserved(inserted, u.keyList, results + [r])
  {
    RemoveKeepsOrdered(t, k);
    AnswerConserves(t.keyList, k, inserted, results, r);
  }

  lemma AddKeeps(t: Table<Info>, k: nat, dstip: nat, systemNow: nat, clock: int, now: nat,
                 inserted: multiset<nat>, results: seq<Result>)
    requires Ordered(t) && Past(t, clock) && EntriesOk(t) && k !in t.entries && clock <= now &&
             Conserved(inserted, t.keyList, results)
    ensures var u := Append(t, k, Info(k, dstip, systemNow, now % WORD), now);
            Ordered(u) && Past(u, now) && EntriesOk(u) && Conserved(inserted + multiset{k}, u.keyList, results)
  {
    AppendKeepsOrdered(t, k, Info(k, dstip, systemNow, now % WORD), now);
    InsertConserves(t.keyList, k, inserted, results);
  }

  lemma InsertConserves(keyList: seq<nat>, k: nat, inserted: multiset<nat>, results: seq<Result>)
    requires Conserved(inserted, keyList, results)
    ensures Conserved(inserted + multiset{k}, keyList + [k], results)
  {
  }

  function Count(q: seq<Result>, kind: Kind): nat {
    if q == [] then 0 else Count(q[..|q| - 1], kind) + if q[|q| - 1].kind == kind then 1 else 0
  }

  lemma {:induction false} TwoKinds(q: seq<Result>)
    ensures |q| == Count(q, SUCCESS) + Count(q, FAILURE)
  {
    if q != [] {
      TwoKinds(q[..|q| - 1]);
    }
  }

  /** The results for one id. */
  function ResultsFor(q: seq<Result>, k: nat): seq<Result> {
    if q == [] then [] else ResultsFor(q[..|q| - 1], k) + if q[|q| - 1].pingid == k then [q[|q| - 1]] else []
  }

  lemma {:induction false} CountFor(q: seq<Result>, k: nat)
    ensures multiset(Ids(q))[k] == |ResultsFor(q, k)|
  {
    if q != [] {
      CountFor(q[..|q| - 1], k);
      assert Ids(q) == Ids(q[..|q| - 1]) + [q[|q| - 1].pingid];
    }
  }

  /** A PONG's delay is the time since the insert, if that fits the clock. */
  lemma DelayIsTimeSinceInsert(t: Table<Info>, k: nat, recv: nat)
    requires EntriesOk(t) && k in t.entries && t.entries[k].timestamp <= recv
    ensures Answered(t.entries[k].value, recv % WORD).delay == recv - t.entries[k].timestamp
            <==> recv - t.entries[k].timestamp < WORD
  {
    BitwrapRecoversIff(t.entries[k].timestamp, recv);
  }

  /** The delay of the result of an entry stamped at `sent`, answered at a reading. */
  lemma AnsweredDelay(i: Info, sent: nat, recv: nat)
    requires i.networkDelay == sent % WORD && sent <= recv && recv - sent < WORD
    ensures Answered(i, recv % WORD).delay == recv - sent
  {
    BitwrapRecoversIff(sent, recv);
  }

  lemma DelayOfAnswer(e: Entry<Info>, recvTime: nat, delay: nat)
    requires e.timestamp >= 0 && e.value.networkDelay == e.timestamp % WORD && recvTime < WORD
    requires delay == DeltaBitwrap(e.value.networkDelay, recvTime, WORD - 1)
    ensures forall now: nat :: now % WORD == recvTime && 0 <= now - e.timestamp < WORD ==> delay == now - e.timestamp
  {
    forall now: nat | now % WORD == recvTime && 0 <= now - e.timestamp < WORD
      ensures delay == now - e.timestamp
    {
      AnsweredDelay(e.value, e.timestamp, now);
    }
  }

  lemma {:induction false} ResultsForAdd(p: seq<Result>, q: seq<Result>, k: nat)
    ensures ResultsFor(p + q, k) == ResultsFor(p, k) + ResultsFor(q, k)
  {
    if q == [] {
      assert p + q == p;
    } else {
      ResultsForAdd(p, q[..|q| - 1], k);
      assert (p + q)[..|p + q| - 1] == p + q[..|q| - 1];
    }
  }

  lemma {:induction false} CountAdd(p: seq<Result>, q: seq<Result>, kind: Kind)
    ensures Count(p + q, kind) == Count(p, kind) + Count(q, kind)
  {
    if q == [] {
      assert p + q == p;
    } else {
      CountAdd(p, q[..|q| - 1], kind);
      assert (p + q)[..|p + q| - 1] == p + q[..|q| - 1];
    }
  }

  /** Results that are all failures add no success for any id. */
  lemma {:induction false} NoSuccess(q: seq<Result>, k: nat)
    requires forall j :: 0 <= j < |q| ==> q[j].kind == FAILURE
    ensures Count(ResultsFor(q, k), SUCCESS) == 0
  {
    if q != [] {
      NoSuccess(q[..|q| - 1], k);
      CountAdd(ResultsFor(q[..|q| - 1], k), if q[|q| - 1].pingid == k then [q[|q| - 1]] else [], SUCCESS);
      OneResult(q[|q| - 1]);
    }
  }

  lemma OneResult(r: Result)
    ensures Count([r], SUCCESS) == if r.kind == SUCCESS then 1 else 0
    ensures ResultsFor([r], r.pingid) == [r] && forall k :: k != r.pingid ==> ResultsFor([r], k) == []
  {
    assert [r][..0] == [];
  }

  /** The successes of each id are the PONGs that found it in the table. */
  ghost predicate Matched(answered: multiset<nat>, results: seq<Result>) {
    forall k: nat :: Count(ResultsFor(results, k), SUCCESS) == answered[k]
  }

  lemma FailuresMatch(answered: multiset<nat>, results: seq<Result>, more: seq<Result>)
    requires Matched(answered, results) && forall j :: 0 <= j < |more| ==> more[j].kind == FAILURE
    ensures Matched(answered, results + more)
  {
    forall k: nat
      ensures Count(ResultsFor(results + more, k), SUCCESS) == answered[k]
    {
      ResultsForAdd(results, more, k);
      CountAdd(ResultsFor(results, k), ResultsFor(more, k), SUCCESS);
      NoSuccess(more, k);
    }
  }

  lemma SuccessMatches(answered: multiset<nat>, results: seq<Result>, r: Result)
    requires Matched(answered, results) && r.kind == SUCCESS
    ensures Matched(answered + multiset{r.pingid}, results + [r])
  {
    forall k: nat
      ensures Count(ResultsFor(results + [r], k), SUCCESS) == (answered + multiset{r.pingid})[k]
    {
      ResultsForAdd(results, [r], k);
      CountAdd(ResultsFor(results, k), ResultsFor([r], k), SUCCESS);
      OneResult(r);
    }
  }

  class TcpUdpPinginfoMap {
    var entries: map<nat, Entry<Info>>
    var keyList: seq<nat>
    var clientQueue: seq<Result>
    const threshold: int

    /** When the clock was last read, the ids inserted, and those for which a PONG came
        while they were in the table. */
    ghost var clock: int
    ghost var inserted: multiset<nat>
    ghost var answered: multiset<nat>

    ghost predicate Valid()
      reads this
    {
      && Ordered(Table(entries, keyList)) && Past(Table(entries, keyList), clock)
      && EntriesOk(Table(entries, keyList))
      && Conserved(inserted, keyList, clientQueue) && Matched(answered, clientQueue)
    }

    constructor (thresholdMs: int, ghost now: int)
      ensures Valid() && entries == map[] && clientQueue == [] && threshold == thresholdMs
      ensures clock == now && inserted == answered == multiset{}
    {
      entries, keyList, clientQueue, threshold := map[], [], [], thresholdMs;
      clock, inserted, answered := now, multiset{}, multiset{};
    }

    /** At every moment of the object's life, and for each id: its inserts are its
        results and its entry, and its successes are the PONGs that found it in the
        table; in total, inserts are entries, successes and failures. */
    lemma TwoOutcomes(k: nat)
      requires Valid()
      ensures inserted[k] == |ResultsFor(clientQueue, k)| + if k in entries then 1 else 0
      ensures Count(ResultsFor(clientQueue, k), SUCCESS) == answered[k]
      ensures inserted[k] ==
              answered[k] + Count(ResultsFor(clientQueue, k), FAILURE) + if k in entries then 1 else 0
      ensures |inserted| == |entries| + Count(clientQueue, SUCCESS) + Count(clientQueue, FAILURE)
    {
      TwoKinds(ResultsFor(clientQueue, k));
      CountFor(clientQueue, k);
      DistinctCount(keyList, k);
      SizeOfTable(Table(entries, keyList));
      TwoKinds(clientQueue);
    }

    /** The loop, which removes from the front what `Expire` removes. */
    method ExpireFront(now: int)
      modifies `entries, `keyList, `clientQueue
      ensures Table(entries, keyList) == Expire(old(Table(entries, keyList)), now, threshold)
      ensures clientQueue == old(clientQueue) + FailedAll(Expired(old(Table(entries, keyList)), now, threshold))
    {
      ghost var was := Table(entries, keyList);
      while keyList != []
        invariant Expire(Table(entries, keyList), now, threshold) == Expire(was, now, threshold)
        invariant clientQueue + FailedAll(Expired(Table(entries, keyList), now, threshold)) ==
                  old(clientQueue) + FailedAll(Expired(was, now, threshold))
        decreases |keyList|
      {
        var key := keyList[0];
        if key !in entries {
          keyList := keyList[1..];
        } else if ElapsedMs(now, entries[key].timestamp) < threshold {
          break;
        } else {
          clientQueue := clientQueue + [Failed(entries[key].value)];
          keyList := keyList[1..];
          entries := entries - {key};
        }
      }
    }

    /** Fails exactly the stale entries, oldest first. */
    method ExpireEntries(now: int)
      requires Valid() && clock <= now
      modifies this
      ensures Valid() && clock == now && inserted == old(inserted) && answered == old(answered)
      ensures entries == Fresh(old(entries), now, threshold)
      ensures old(clientQueue) <= clientQueue
      ensures FailuresOf(clientQueue[|old(clientQueue)|..],
                         Expired(Table(old(entries), old(keyList)), now, threshold))
    {
      ghost var gone := Expired(Table(entries, keyList), now, threshold);
      ExpireIsFullScan(Table(entries, keyList), now, threshold);
      ExpireConserves(Table(entries, keyList), now, threshold, inserted, clientQueue);
      FailuresMatch(answered, clientQueue, FailedAll(gone));
      ExpireFront(now);
      assert clientQueue[|old(clientQueue)|..] == FailedAll(gone);
      clock := now;
    }

    method Insert(key: nat, pingid: nat, dstip: nat, systemNow: nat, now1: nat, now2: nat) returns (ok: bool)
      requires Valid() && clock <= now1 <= now2
      modifies this
      ensures key == pingid ==> Valid()
      ensures ok == (key !in Fresh(old(entries), now1, threshold))
      ensures entries == if ok
                         then Fresh(old(entries), now1, threshold)
                              [key := Entry(Info(pingid, dstip, systemNow, now2 % WORD), now2)]
                         else Fresh(old(entries), now1, threshold)
      ensures inserted == old(inserted) + (if ok then multiset{key} else multiset{}) && answered == old(answered)
      ensures old(clientQueue) <= clientQueue
      ensures FailuresOf(clientQueue[|old(clientQueue)|..],
                         Expired(Table(old(entries), old(keyList)), now1, threshold))
    {
      ExpireEntries(now1);
      ok := key !in entries;
      if ok {
        if key == pingid {
          AddKeeps(Table(entries, keyList), key, dstip, systemNow, clock, now2, inserted, clientQueue);
        }
        PutLast(key, Info(pingid, dstip, systemNow, now2 % WORD), now2);
      }
    }

    /** Adds an entry at the end. */
    method PutLast(key: nat, i: Info, now: int)
      modifies `entries, `keyList, `clock, `inserted
      ensures entries == old(entries)[key := Entry(i, now)] && keyList == old(keyList) + [key]
      ensures clock == now && inserted == old(inserted) + multiset{key}
    {
      keyList := keyList + [key];
      entries := entries[key := Entry(i, now)];
      clock, inserted := now, inserted + multiset{key};
    }

    /** Hands in the result of ping `key` and removes it. */
    method Finish(key: nat, result: Result)
      modifies `entries, `keyList, `clientQueue
      ensures entries == old(entries) - {key} && keyList == Without(old(keyList), key)
      ensures clientQueue == old(clientQueue) + [result]
    {
      clientQueue := clientQueue + [result];
      keyList := Without(keyList, key);
      entries := entries - {key};
    }

    /** A PONG completes a ping that is in the table: one success, with its fields and the
        time since it was inserted, if that fits the clock. */
    method UpdatePongInfo(key: nat, recvTime: nat) returns (ok: bool)
      requires Valid() && recvTime < WORD
      modifies this
      ensures Valid() && inserted == old(inserted)
      ensures ok == (key in old(entries))
      ensures entries == old(entries) - {key}
      ensures answered == old(answered) + if ok then multiset{key} else multiset{}
      ensures !ok ==> clientQueue == old(clientQueue)
      ensures ok ==>
                && |clientQueue| == |old(clientQueue)| + 1 && old(clientQueue) <= clientQueue
                && var e, r := old(entries)[key], clientQueue[|old(clientQueue)|];
                   && r.kind == SUCCESS && r.pingid == key
                   && r.dstip == e.value.dstip && r.timePingSend == e.value.timePingSend
                   && forall now: nat :: now % WORD == recvTime && 0 <= now - e.timestamp < WORD ==>
                        r.delay == now - e.timestamp
    {
      ok := key in entries;
      if ok {
        var info := entries[key].value;
        info := info.(networkDelay := DeltaBitwrap(info.networkDelay, recvTime, WORD - 1));
        var result := Result(info.pingid, info.dstip, info.timePingSend, info.networkDelay, SUCCESS);
        AnswerKeeps(Table(entries, keyList), key, clock, inserted, clientQueue, result);
        SuccessMatches(answered, clientQueue, result);
        DelayOfAnswer(entries[key], recvTime, result.delay);
        Finish(info.pingid, result);
        answered := answered + multiset{key};
      }
    }
  }
}
