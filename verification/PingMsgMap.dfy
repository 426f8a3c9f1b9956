/** The server's table of PINGs whose PONG has not completed yet: a map and a
    list, updated in place. */
module PingMsgMapObject {
  import opened Common
  import opened ExpiringTable
  import opened TimeDelta

  /** What a call does to the entries, whatever it answers. */
  datatype Call<V> = Insertion(key: nat, value: V, now1: int, now2: int) | Removal(key: nat)

  function After<V>(m: map<nat, Entry<V>>, threshold: int, call: Call<V>): map<nat, Entry<V>> {
    match call
    case Insertion(key, value, now1, now2) =>
      var f := Fresh(m, now1, threshold);
      if key in f then f else f[key := Entry(value, now2)]
    case Removal(key) => m - {key}
  }

  function AfterAll<V>(m: map<nat, Entry<V>>, threshold: int, calls: seq<Call<V>>): map<nat, Entry<V>> {
    if calls == [] then m else After(AfterAll(m, threshold, calls[..|calls| - 1]), threshold, calls[|calls| - 1])
  }

  /** A call at which the entry `e` of `key` is neither removed nor stale. */
  ghost predicate Spares<V>(call: Call<V>, key: nat, e: Entry<V>, threshold: int) {
    match call
    case Insertion(_, _, now1, _) => !Stale(e, now1, threshold)
    case Removal(k) => k != key
  }

  /** An entry stays what it is through any calls that spare it: other pings coming
      and going, and even its own id inserted again. */
  lemma {:induction false} KeptWhileFresh<V>(m: map<nat, Entry<V>>, threshold: int, calls: seq<Call<V>>, key: nat)
    requires key in m && forall call :: call in calls ==> Spares(call, key, m[key], threshold)
    ensures key in AfterAll(m, threshold, calls) && AfterAll(m, threshold, calls)[key] == m[key]
  {
    if calls != [] {
      KeptWhileFresh(m, threshold, calls[..|calls| - 1], key);
      assert Spares(calls[|calls| - 1], key, m[key], threshold);
    }
  }

  /** What a server relies on: after an insert that succeeded, and any calls that
      spare the entry, the message is still there to be looked up, under its id. */
  lemma InsertedIsFound<V>(m: map<nat, Entry<V>>, threshold: int, calls: seq<Call<V>>,
                           key: nat, value: V, now1: int, now2: int)
    requires key !in Fresh(m, now1, threshold)
    requires forall call :: call in calls ==> Spares(call, key, Entry(value, now2), threshold)
    ensures var after := AfterAll(After(m, threshold, Insertion(key, value, now1, now2)), threshold, calls);
            Lookup(after, key) == Some(value)
  {
    KeptWhileFresh(After(m, threshold, Insertion(key, value, now1, now2)), threshold, calls, key);
  }

  /** At a later insert of another id it is still found exactly if it is not stale by
      then: the message outlives the threshold as long as nothing is inserted, and no
      longer. */
  lemma FoundUntilStale<V>(m: map<nat, Entry<V>>, threshold: int, calls: seq<Call<V>>,
                           key: nat, value: V, now1: int, now2: int, last: Call<V>)
    requires key !in Fresh(m, now1, threshold) && last.Insertion? && last.key != key
    requires forall call :: call in calls ==> Spares(call, key, Entry(value, now2), threshold)
    ensures var after := AfterAll(After(m, threshold, Insertion(key, value, now1, now2)), threshold, calls + [last]);
            Lookup(after, key) == if Stale(Entry(value, now2), last.now1, threshold) then None else Some(value)
  {
    InsertedIsFound(m, threshold, calls, key, value, now1, now2);
    KeptWhileFresh(After(m, threshold, Insertion(key, value, now1, now2)), threshold, calls, key);
    assert (calls + [last])[..|calls|] == calls;
  }

  function Lookup<V>(m: map<nat, Entry<V>>, key: nat): Option<V> {
    if key in m then Some(m[key].value) else None
  }

  class PingMsgMap<V> {
    var entries: map<nat, Entry<V>>
    var keyList: seq<nat>
    const threshold: int

    /** When the clock was last read. */
    ghost var clock: int

    ghost predicate Valid()
      reads this
    {
      Ordered(Table(entries, keyList)) && Past(Table(entries, keyList), clock)
    }

    constructor (thresholdMs: int, ghost now: int)
      ensures Valid() && entries == map[] && clock == now && threshold == thresholdMs
    {
      entries, keyList, threshold, clock := map[], [], thresholdMs, now;
    }

    /** The loop, which removes from the front what `Expire` removes. */
    method ExpireFront(now: int) returns (removed: nat)
      modifies `entries, `keyList
      ensures Table(entries, keyList) == Expire(old(Table(entries, keyList)), now, threshold)
      ensures removed == Leaving(old(Table(entries, keyList)), now, threshold)
    {
      removed := 0;
      ghost var was := Table(entries, keyList);
      while keyList != []
        invariant Expire(Table(entries, keyList), now, threshold) == Expire(was, now, threshold)
        invariant removed + Leaving(Table(entries, keyList), now, threshold) == Leaving(was, now, threshold)
        decreases |keyList|
      {
        var key := keyList[0];
        if key !in entries {
          keyList := keyList[1..];
        } else if ElapsedMs(now, entries[key].timestamp) < threshold {
          return;
        } else {
          keyList := keyList[1..];
          entries := entries - {key};
          removed := removed + 1;
        }
      }
    }

    /** Stops at the first entry that is not stale, yet leaves exactly the entries
        that are not. */
    method ExpireEntries(now: int) returns (removed: nat)
      requires Valid() && clock <= now
      modifies this
      ensures Valid() && clock == now
      ensures entries == Fresh(old(entries), now, threshold)
      ensures removed == |old(entries)| - |entries|
    {
      ghost var was := Table(entries, keyList);
      ExpireIsFullScan(was, now, threshold);
      ExpiredIsFront(was, now, threshold);
      SizeOfTable(was);
      SizeOfTable(Expire(was, now, threshold));
      removed := ExpireFront(now);
      clock := now;
    }

    method Insert(key: nat, value: V, now1: int, now2: int) returns (ok: bool)
      requires Valid() && clock <= now1 <= now2
      modifies this
      ensures Valid() && clock == now2
      ensures ok == (key !in Fresh(old(entries), now1, threshold))
      ensures entries == After(old(entries), threshold, Insertion(key, value, now1, now2))
    {
      var _ := ExpireEntries(now1);
      clock := now2;
      ok := key !in entries;
      if ok {
        AppendKeepsOrdered(Table(entries, keyList), key, value, now2);
        keyList := keyList + [key];
        entries := entries[key := Entry(value, now2)];
      }
    }

    method Get(key: nat) returns (found: Option<V>)
      ensures found == Lookup(entries, key)
    {
      if key in entries {
        return Some(entries[key].value);
      }
      return None;
    }

    method Remove(key: nat) returns (ok: bool)
      requires Valid()
      modifies this
      ensures Valid() && clock == old(clock)
      ensures entries == After(old(entries), threshold, Removal(key))
      ensures ok == (key in old(entries))
    {
      ok := key in entries;
      if ok {
        RemoveKeepsOrdered(Table(entries, keyList), key);
        keyList := Without(keyList, key);
        entries := entries - {key};
      }
    }
  }

  /** What the server does when the send of a PONG has completed: if the PING is still
      there, posts an ACK with the time from its arrival; unless that fails, removes it.
      `posted` is what posting returns. */
  method ProcessPongCqe(table: PingMsgMap<nat>, id: nat, cqeTime: nat, posted: bool)
    returns (ack: Option<nat>, ok: bool)
    requires table.Valid()
    modifies table
    ensures table.Valid() && ok == (ack.None? || posted)
    ensures ack == match Lookup(old(table.entries), id)
                   case Some(time) => Some(DeltaModulo(time, cqeTime, MODULO))
                   case None => None
    ensures table.entries == if ok then After(old(table.entries), table.threshold, Removal(id)) else old(table.entries)
  {
    var found := table.Get(id);
    ack := None;
    if found.Some? {
      ack := Some(DeltaModulo(found.value, cqeTime, MODULO));
      if !posted {
        return ack, false;
      }
    }
    var _ := table.Remove(id);
    ok := true;
  }
}
