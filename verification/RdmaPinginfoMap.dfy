/** The client's table as the object it is: a map and a list, updated in place. */
module RdmaPinginfoMapObject {
  import opened Bits
  import opened TimeDelta
  import opened ExpiringTable
  import opened RdmaPingTable

  /** An entry with nothing arrived yet; the client delay holds the steady clock. */
  predicate JustInserted(e: Entry<Info>, pingid: nat, dstip: nat, systemNow: nat, now: nat) {
    && e.timestamp == now && e.value.pingid == pingid && e.value.dstip == dstip && e.value.timePingSend == systemNow
    && e.value.clientDelay == now && e.value.networkDelay == 0 && e.value.serverDelay == 0
    && e.value.recvCnt == 0 && e.value.bitmap == {} && e.value.arrivals == []
  }

  lemma FreshStay(s: State, now: nat, r: State, key: nat)
    requires Reachable(s) && r == Expiry(s, now)
    ensures key in r.table.entries <==> key in s.table.entries && !Stale(s.table.entries[key], now, s.threshold)
  {
    ReachableInv(s);
    ExpireIsFullScan(s.table, now, s.threshold);
  }

  class RdmaPinginfoMap {
    var entries: map<nat, Entry<Info>>
    var keyList: seq<nat>
    var clientQueue: seq<Outcome>
    const threshold: int

    /** When the steady clock was last read, and the ids inserted. */
    ghost var clock: nat
    ghost var inserted: multiset<nat>

    ghost function Machine(): State
      reads this
    {
      State(Table(entries, keyList), threshold, clock, inserted, clientQueue)
    }

    ghost predicate Valid()
      reads this
    {
      Reachable(Machine())
    }

    constructor (thresholdMs: int, ghost now: nat)
      ensures Machine() == Start(thresholdMs, now) && Valid()
    {
      entries, keyList, clientQueue, threshold := map[], [], [], thresholdMs;
      clock, inserted := now, multiset{};
      ReachableStart(thresholdMs, now);
    }

    /** At every moment of the object's life, and for each id: its inserts are its
        outcomes and its entry; in total by kind; and every outcome means what it
        should. */
    lemma PingsConserved(k: nat)
      requires Valid()
      ensures inserted[k] == |OutcomesFor(clientQueue, k)| + if k in entries then 1 else 0
      ensures |inserted| == |entries| + CountKind(clientQueue, SUCCESS) + CountKind(clientQueue, WEIRD)
                            + CountKind(clientQueue, FAILURE) + CountSilent(clientQueue)
      ensures forall o :: o in clientQueue ==> OutcomeOk(o)
    {
      ReachableInv(Machine());
      InvCounts(Machine(), k);
    }

    /** The loop, which removes from the front what `Expire` removes and reports what
        `Expired` lists, whether or not list and map agree. */
    method ExpireFront(now: nat) returns (removed: nat)
      modifies `entries, `keyList, `clientQueue
      ensures Table(entries, keyList) == Expire(old(Table(entries, keyList)), now, threshold)
      ensures clientQueue == old(clientQueue) + ExpiredOutcomes(Expired(old(Table(entries, keyList)), now, threshold))
      ensures removed == Leaving(old(Table(entries, keyList)), now, threshold)
    {
      removed := 0;
      ghost var was := Table(entries, keyList);
      while keyList != []
        invariant Expire(Table(entries, keyList), now, threshold) == Expire(was, now, threshold)
        invariant removed + Leaving(Table(entries, keyList), now, threshold) == Leaving(was, now, threshold)
        invariant clientQueue + ExpiredOutcomes(Expired(Table(entries, keyList), now, threshold)) ==
                  old(clientQueue) + ExpiredOutcomes(Expired(was, now, threshold))
        decreases |keyList|
      {
        var key := keyList[0];
        if key !in entries {
          keyList := keyList[1..];
        } else if ElapsedMs(now, entries[key].timestamp) < threshold {
          return;
        } else {
          var outcome := Farewell(entries[key].value);
          clientQueue := clientQueue + [outcome];
          keyList := keyList[1..];
          entries := entries - {key};
          removed := removed + 1;
        }
      }
    }

    /** What becomes of a stale ping: overlaid ones leave without a result. */
    static method Farewell(i: Info) returns (outcome: Outcome)
      ensures outcome == ExpiredOutcome(i)
    {
      if i.recvCnt >= 3 {
        outcome := Silent(i.pingid, i.arrivals);
      } else {
        outcome := Reported(Result(i.pingid, i.dstip, i.timePingSend, 0, 0, 0, FAILURE), i.arrivals);
      }
    }

    method ExpireEntries(now: nat) returns (removed: nat)
      modifies this
      ensures Machine() == Expiry(old(Machine()), now)
      ensures removed == Leaving(old(Machine()).table, now, threshold)
    {
      removed := ExpireFront(now);
      clock := now;
    }

    method Remove(key: nat) returns (ok: bool)
      modifies this
      ensures Machine() == old(Machine()).(table := ExpiringTable.Remove(old(Machine()).table, key))
      ensures ok == (key in old(entries))
    {
      ok := key in entries;
      if ok {
        var i := 0;
        ghost var was := keyList;
        while i < |keyList| && keyList[i] != key
          invariant 0 <= i <= |keyList|
          invariant Without(was, key) == keyList[..i] + Without(keyList[i..], key)
          modifies {}
        {
          SkipOne(was, i, key);
          i := i + 1;
        }
        if i < |keyList| {
          TakeOne(was, i);
          keyList := keyList[..i] + keyList[i + 1..];
        } else {
          assert was[..i] == was && was[i..] == [];
        }
        entries := entries - {key};
      }
    }

    method Insert(key: nat, pingid: nat, dstip: nat, systemNow: nat, now1: nat, now2: nat) returns (ok: bool)
      requires Valid() && clock <= now1 <= now2
      modifies this
      ensures Machine() ==
              Next(old(Machine()), Event.Insert(key, pingid, dstip, systemNow, now1 - old(clock), now2 - now1))
      ensures key == pingid ==> Valid()
      ensures inserted == old(inserted) + if ok then multiset{key} else multiset{}
      ensures ok == (key in old(entries) ==> Stale(old(entries)[key], now1, threshold))
      ensures ok ==> key in entries && JustInserted(entries[key], pingid, dstip, systemNow, now2)
    {
      ghost var was, ev := Machine(), Event.Insert(key, pingid, dstip, systemNow, now1 - clock, now2 - now1);
      var _ := ExpireEntries(now1);
      ghost var expired := Machine();
      FreshStay(was, now1, expired, key);
      assert expired.clock == now1 && expired.inserted == was.inserted;
      ok := PutLast(key, pingid, dstip, systemNow, now2);
      InsertSteps(was, ev, expired, Machine());
    }

    /** Adds the ping at the end, unless the id is there. */
    method PutLast(key: nat, pingid: nat, dstip: nat, systemNow: nat, now: nat) returns (ok: bool)
      requires clock <= now
      modifies this
      ensures Machine() == AddNew(old(Machine()), key, pingid, dstip, systemNow, now - old(clock))
      ensures ok == (key !in old(entries)) && inserted == old(inserted) + if ok then multiset{key} else multiset{}
      ensures ok ==> key in entries && JustInserted(entries[key], pingid, dstip, systemNow, now)
    {
      ok := key !in entries;
      if ok {
        keyList := keyList + [key];
        entries := entries[key := Entry(Info(pingid, dstip, systemNow, now, 0, 0, 0, {}, []), now)];
        clock, inserted := now, inserted + multiset{key};
      }
    }

    /** Stores `i` in place and logs it. */
    method StoreAndLog(key: nat, i: Info)
      requires key in entries
      modifies this
      ensures Machine() == Store(old(Machine()), key, i)
    {
      entries := entries[key := entries[key].(value := i)];
      if i.bitmap == RECV_ALL {
        if i.recvCnt != 3 {
          clientQueue := clientQueue + [Silent(i.pingid, i.arrivals)];
        } else if i.networkDelay <= i.serverDelay {
          clientQueue := clientQueue + [Reported(Result(i.pingid, i.dstip, i.timePingSend,
            Sub64(i.clientDelay % WORD, i.networkDelay % WORD), i.networkDelay, i.serverDelay, WEIRD), i.arrivals)];
        } else {
          clientQueue := clientQueue + [Reported(Result(i.pingid, i.dstip, i.timePingSend,
            Sub64(i.clientDelay % WORD, i.networkDelay % WORD),
            i.networkDelay - i.serverDelay, i.serverDelay, SUCCESS), i.arrivals)];
        }
        var _ := Remove(i.pingid);
      }
    }

    method UpdatePingCqeTime(key: nat, x: nat) returns (ok: bool)
      requires Valid()
      modifies this
      ensures Machine() == Next(old(Machine()), Arrive(key, Cqe(x)))
      ensures Valid() && ok == (key in old(entries))
    {
      ReachableNext(Machine(), Arrive(key, Cqe(x)));
      ok := key in entries;
      if ok {
        var i := entries[key].value;
        if i.networkDelay == 0 {
          i := i.(networkDelay := x);
        } else {
          i := i.(networkDelay := DeltaModulo(x, i.networkDelay, MODULO));
        }
        Note(key, Cqe(x), i);
      }
    }

    method UpdatePongInfo(key: nat, recvTime: nat, cqeTime: nat) returns (ok: bool)
      requires Valid()
      modifies this
      ensures Machine() == Next(old(Machine()), Arrive(key, Pong(recvTime, cqeTime)))
      ensures Valid() && ok == (key in old(entries))
    {
      ReachableNext(Machine(), Arrive(key, Pong(recvTime, cqeTime)));
      ok := key in entries;
      if ok {
        var i := entries[key].value;
        i := i.(clientDelay := DeltaModulo(i.clientDelay, recvTime, MODULO));
        if i.networkDelay != 0 {
          i := i.(networkDelay := DeltaModulo(i.networkDelay, cqeTime, MODULO));
        } else {
          i := i.(networkDelay := cqeTime);
        }
        Note(key, Pong(recvTime, cqeTime), i);
      }
    }

    method UpdateAckInfo(key: nat, serverDelay: nat) returns (ok: bool)
      requires Valid()
      modifies this
      ensures Machine() == Next(old(Machine()), Arrive(key, Ack(serverDelay)))
      ensures Valid() && ok == (key in old(entries))
    {
      ReachableNext(Machine(), Arrive(key, Ack(serverDelay)));
      ok := key in entries;
      if ok {
        Note(key, Ack(serverDelay), entries[key].value.(serverDelay := serverDelay));
      }
    }

    /** Counts the arrival `a` of ping `key`, whose times are now as in `i`. */
    method Note(key: nat, a: Arrival, i: Info)
      requires key in entries && i == Times(entries[key].value, a)
      modifies this
      ensures Machine() == Next(old(Machine()), Arrive(key, a))
    {
      StoreAndLog(key, i.(bitmap := i.bitmap + {PartOf(a)}, recvCnt := i.recvCnt + 1, arrivals := i.arrivals + [a]));
    }
  }
}
