/** The shape shared by the three ping tables: a map from ping ids to stamped
    entries, and the list of ids in order of insertion, from whose front stale
    entries expire. */
module ExpiringTable {
  import opened Common

  datatype Entry<V> = Entry(value: V, timestamp: int)

  datatype Table<V> = Table(entries: map<nat, Entry<V>>, keyList: seq<nat>)

  const NS_PER_MS: int := 1000000

  /** Nanoseconds cast to whole milliseconds, truncating toward zero. */
  function ElapsedMs(now: int, timestamp: int): int {
    if now >= timestamp then (now - timestamp) / NS_PER_MS else -((timestamp - now) / NS_PER_MS)
  }

  predicate Stale<V>(e: Entry<V>, now: int, threshold: int) {
    ElapsedMs(now, e.timestamp) >= threshold
  }

  // ------------------------------------------------------------------- invariant

  /** The list names each entry once, oldest first. */
  ghost predicate Ordered<V>(t: Table<V>) {
    && Distinct(t.keyList)
    && (forall k :: k in t.keyList <==> k in t.entries)
    && (forall i, j :: 0 <= i < j < |t.keyList| ==>
          t.entries[t.keyList[i]].timestamp <= t.entries[t.keyList[j]].timestamp)
  }

  /** No entry was stamped after `now`. */
  ghost predicate Past<V>(t: Table<V>, now: int) {
    forall k :: k in t.entries ==> t.entries[k].timestamp <= now
  }

  // ------------------------------------------------------------------ operations

  /** `expireEntries`: from the front of the list, drop ids that the map lacks and
      entries that are stale, and stop at the first that is not. */
  function Expire<V>(t: Table<V>, now: int, threshold: int): Table<V>
    decreases |t.keyList|
  {
    if t.keyList == [] then t
    else
      var k := t.keyList[0];
      if k !in t.entries then Expire(Table(t.entries, t.keyList[1..]), now, threshold)
      else if ElapsedMs(now, t.entries[k].timestamp) < threshold then t
      else Expire(Table(t.entries - {k}, t.keyList[1..]), now, threshold)
  }

  /** The entries that `Expire` removes, in the order it removes them. */
  function Expired<V>(t: Table<V>, now: int, threshold: int): seq<V>
    decreases |t.keyList|
  {
    if t.keyList == [] then []
    else
      var k := t.keyList[0];
      if k !in t.entries then Expired(Table(t.entries, t.keyList[1..]), now, threshold)
      else if ElapsedMs(now, t.entries[k].timestamp) < threshold then []
      else [t.entries[k].value] + Expired(Table(t.entries - {k}, t.keyList[1..]), now, threshold)
  }

  /** Appends an id the table lacks. */
  function Append<V>(t: Table<V>, k: nat, v: V, timestamp: int): Table<V> {
    Table(t.entries[k := Entry(v, timestamp)], t.keyList + [k])
  }

  function Update<V>(t: Table<V>, k: nat, v: V): Table<V>
    requires k in t.entries
  {
    t.(entries := t.entries[k := t.entries[k].(value := v)])
  }

  /** The list without the id `k`, where its iterator points. */
  function Without(q: seq<nat>, k: nat): seq<nat> {
    if q == [] then [] else if q[0] == k then q[1..] else [q[0]] + Without(q[1..], k)
  }

  /** `remove`. */
  function Remove<V>(t: Table<V>, k: nat): Table<V> {
    if k in t.entries then Table(t.entries - {k}, Without(t.keyList, k)) else t
  }

  // ---------------------------------------------------------------- preservation

  lemma HeadDistinct(q: seq<nat>)
    requires Distinct(q) && q != []
    ensures q[0] !in q[1..] && Distinct(q[1..]) && q == [q[0]] + q[1..]
  {
    assert forall i :: 0 <= i < |q| - 1 ==> q[1..][i] == q[i + 1];
  }

  lemma {:induction false} DistinctCount(q: seq<nat>, k: nat)
    requires Distinct(q)
    ensures multiset(q)[k] == if k in q then 1 else 0
  {
    if q != [] {
      HeadDistinct(q);
      DistinctCount(q[1..], k);
      assert q == [q[0]] + q[1..];
    }
  }

  lemma {:induction false} WithoutOne(q: seq<nat>, k: nat)
    requires k in q
    ensures multiset(q) == multiset(Without(q, k)) + multiset{k}
  {
    assert q == [q[0]] + q[1..];
    if q[0] != k {
      WithoutOne(q[1..], k);
    }
  }

  lemma TailOrdered<V>(t: Table<V>)
    requires Ordered(t) && t.keyList != []
    ensures Ordered(Table(t.entries - {t.keyList[0]}, t.keyList[1..]))
  {
    HeadDistinct(t.keyList);
  }

  lemma AppendKeepsOrdered<V>(t: Table<V>, k: nat, v: V, timestamp: int)
    requires Ordered(t) && k !in t.entries && Past(t, timestamp)
    ensures Ordered(Append(t, k, v, timestamp)) && Past(Append(t, k, v, timestamp), timestamp)
  {
    assert k !in t.keyList;
  }

  lemma UpdateKeepsOrdered<V>(t: Table<V>, k: nat, v: V)
    requires Ordered(t) && k in t.entries
    ensures Ordered(Update(t, k, v))
    ensures forall now :: Past(t, now) ==> Past(Update(t, k, v), now)
  {
  }

  lemma {:induction false} WithoutMembers(q: seq<nat>, k: nat)
    requires Distinct(q)
    ensures Distinct(Without(q, k))
    ensures forall x :: x in Without(q, k) <==> x in q && x != k
  {
    if q != [] {
      HeadDistinct(q);
      if q[0] != k {
        WithoutMembers(q[1..], k);
      }
    }
  }

  /** Removing keeps the others in their order. */
  lemma {:induction false} WithoutSorted<V>(m: map<nat, Entry<V>>, q: seq<nat>, k: nat)
    requires Distinct(q) && forall x :: x in q ==> x in m
    requires forall i, j :: 0 <= i < j < |q| ==> m[q[i]].timestamp <= m[q[j]].timestamp
    ensures forall x :: x in Without(q, k) ==> x in m
    ensures forall i, j :: 0 <= i < j < |Without(q, k)| ==>
              m[Without(q, k)[i]].timestamp <= m[Without(q, k)[j]].timestamp
  {
    WithoutMembers(q, k);
    if q != [] && q[0] != k {
      WithoutSorted(m, q[1..], k);
      HeadDistinct(q);
      WithoutMembers(q[1..], k);
      var w := Without(q[1..], k);
      forall j | 0 <= j < |w|
        ensures m[q[0]].timestamp <= m[w[j]].timestamp
      {
        assert w[j] in q[1..];
      }
    }
  }

  lemma RemoveKeepsOrdered<V>(t: Table<V>, k: nat)
    requires Ordered(t)
    ensures Ordered(Remove(t, k)) && Remove(t, k).entries == t.entries - {k}
    ensures forall now :: Past(t, now) ==> Past(Remove(t, k), now)
  {
    if k in t.entries {
      WithoutMembers(t.keyList, k);
      WithoutSorted(t.entries, t.keyList, k);
    }
  }

  // ------------------------------------------- stopping early loses nothing

  /** Later stamps are not staler. */
  lemma StaleMonotone(now: int, a: int, b: int)
    requires a <= b
    ensures ElapsedMs(now, b) <= ElapsedMs(now, a)
  {
  }

  lemma FreshFront<V>(t: Table<V>, now: int, threshold: int, x: nat)
    requires Ordered(t) && t.keyList != [] && x in t.entries
    requires !Stale(t.entries[t.keyList[0]], now, threshold)
    ensures !Stale(t.entries[x], now, threshold)
  {
    var i :| 0 <= i < |t.keyList| && t.keyList[i] == x;
    StaleMonotone(now, t.entries[t.keyList[0]].timestamp, t.entries[x].timestamp);
  }

  function Fresh<V>(m: map<nat, Entry<V>>, now: int, threshold: int): map<nat, Entry<V>> {
    map k | k in m && !Stale(m[k], now, threshold) :: m[k]
  }

  lemma FreshWithout<V>(m: map<nat, Entry<V>>, k: nat, now: int, threshold: int)
    requires k in m && Stale(m[k], now, threshold)
    ensures Fresh(m - {k}, now, threshold) == Fresh(m, now, threshold)
  {
  }

  /** Expiry that stops at the first fresh entry removes exactly the entries a
      full scan would: those stale by the threshold, wherever they are. */
  lemma {:induction false} ExpireIsFullScan<V>(t: Table<V>, now: int, threshold: int)
    requires Ordered(t)
    ensures Ordered(Expire(t, now, threshold))
    ensures Expire(t, now, threshold).entries == Fresh(t.entries, now, threshold)
    decreases |t.keyList|
  {
    if t.keyList == [] {
      assert t.entries == map[];
    } else {
      var k := t.keyList[0];
      assert k in t.keyList;
      if Stale(t.entries[k], now, threshold) {
        TailOrdered(t);
        ExpireIsFullScan(Table(t.entries - {k}, t.keyList[1..]), now, threshold);
        FreshWithout(t.entries, k, now, threshold);
      } else {
        forall x | x in t.entries
          ensures !Stale(t.entries[x], now, threshold)
        {
          FreshFront(t, now, threshold, x);
        }
        assert Fresh(t.entries, now, threshold) == t.entries;
      }
    }
  }

  lemma StaleByNanoseconds(timestamp: int, now: int, threshold: int)
    requires timestamp <= now && threshold >= 0
    ensures ElapsedMs(now, timestamp) >= threshold <==> now - timestamp >= threshold * 1000000
  {
  }

  /** In nanoseconds: an entry is removed exactly if it is at least as many milliseconds
      old as the threshold says. */
  lemma RemovedByAge<V>(t: Table<V>, now: int, threshold: int, k: nat)
    requires Ordered(t) && k in t.entries && t.entries[k].timestamp <= now && threshold >= 0
    ensures k !in Expire(t, now, threshold).entries <==> now - t.entries[k].timestamp >= threshold * 1000000
    ensures k in Expire(t, now, threshold).entries ==> Expire(t, now, threshold).entries[k] == t.entries[k]
  {
    ExpireIsFullScan(t, now, threshold);
    StaleByNanoseconds(t.entries[k].timestamp, now, threshold);
  }

  /** How many entries leave. */
  function Leaving<V>(t: Table<V>, now: int, threshold: int): nat {
    |Expired(t, now, threshold)|
  }

  /** `q` are the values of the first ids of the list. */
  ghost predicate FrontValues<V>(t: Table<V>, q: seq<V>) {
    && |q| <= |t.keyList|
    && forall j :: 0 <= j < |q| ==> t.keyList[j] in t.entries && q[j] == t.entries[t.keyList[j]].value
  }

  lemma FrontGrows<V>(t: Table<V>, q: seq<V>)
    requires t.keyList != [] && t.keyList[0] in t.entries
    requires FrontValues(Table(t.entries - {t.keyList[0]}, t.keyList[1..]), q)
    ensures FrontValues(t, [t.entries[t.keyList[0]].value] + q)
    ensures t.keyList[1..][|q|..] == t.keyList[1 + |q|..]
  {
    var rest := t.keyList[1..];
    forall j | 0 <= j < |q|
      ensures t.keyList[j + 1] == rest[j]
    {
    }
  }

  /** The list names entries, each once. */
  ghost predicate Listed<V>(t: Table<V>) {
    Distinct(t.keyList) && forall j :: 0 <= j < |t.keyList| ==> t.keyList[j] in t.entries
  }

  lemma TailListed<V>(t: Table<V>)
    requires Listed(t) && t.keyList != []
    ensures Listed(Table(t.entries - {t.keyList[0]}, t.keyList[1..]))
  {
  }

  /** What expires is the front of the list, in its order: one value for each id
      that leaves. */
  lemma {:induction false} ExpiredIsFront<V>(t: Table<V>, now: int, threshold: int)
    requires Listed(t)
    ensures FrontValues(t, Expired(t, now, threshold))
    ensures Expire(t, now, threshold).keyList == t.keyList[Leaving(t, now, threshold)..]
    decreases |t.keyList|
  {
    if t.keyList != [] {
      var k := t.keyList[0];
      if Stale(t.entries[k], now, threshold) {
        TailListed(t);
        var rest := Table(t.entries - {k}, t.keyList[1..]);
        ExpiredIsFront(rest, now, threshold);
        FrontGrows(t, Expired(rest, now, threshold));
      }
    }
  }

  /** Looking for a key in a list from the front: not here, or here. */
  lemma SkipOne(q: seq<nat>, i: nat, key: nat)
    requires i < |q| && q[i] != key
    ensures q[..i] + Without(q[i..], key) == q[..i + 1] + Without(q[i + 1..], key)
  {
    assert q[i..][1..] == q[i + 1..];
    assert q[..i + 1] == q[..i] + [q[i]];
  }

  lemma TakeOne(q: seq<nat>, i: nat)
    requires i < |q|
    ensures Without(q[i..], q[i]) == q[i + 1..]
  {
    assert q[i..][1..] == q[i + 1..];
  }

  /** The front of the list is in the map. */
  lemma FrontIsInMap<V>(t: Table<V>)
    requires Ordered(t) && t.keyList != []
    ensures t.keyList[0] in t.entries
  {
    assert t.keyList[0] in t.keyList;
  }

  lemma DropOne<V>(m: map<nat, V>, k: nat)
    requires k in m
    ensures |m| == |m - {k}| + 1
  {
    assert m == (m - {k})[k := m[k]];
  }

  /** As many entries as ids in the list. */
  lemma {:induction false} SizeOfTable<V>(t: Table<V>)
    requires Ordered(t)
    ensures |t.entries| == |t.keyList|
    decreases |t.keyList|
  {
    if t.keyList == [] {
      assert t.entries == map[];
    } else {
      var k := t.keyList[0];
      FrontIsInMap(t);
      TailOrdered(t);
      SizeOfTable(Table(t.entries - {k}, t.keyList[1..]));
      DropOne(t.entries, k);
    }
  }
}
