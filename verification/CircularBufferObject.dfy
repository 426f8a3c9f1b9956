/** The circular buffer as an object: `try_enqueue` and `try_dequeue` run without
    interference, where a semaphore is its count. */
module CircularBufferObject {
  import opened Bits
  import opened Common
  import opened CircularBuffer

  /** From number `from` on, the elements are in their slots. */
  ghost predicate Stored<T>(cells: seq<Cell<T>>, size: nat, from: nat, q: seq<T>)
    requires IsPow2(size) && |cells| == size
  {
    forall k :: from <= k < |q| ==> cells[Slot(k, size)] == Live(q[k])
  }

  lemma StoreOne<T>(cells: seq<Cell<T>>, size: nat, from: nat, q: seq<T>, item: T)
    requires IsPow2(size) && |cells| == size && Stored(cells, size, from, q) && from <= |q| < from + size
    ensures Stored(cells[Slot(|q|, size) := Live(item)], size, from, q + [item])
  {
    forall k | from <= k < |q|
      ensures Slot(k, size) != Slot(|q|, size)
    {
      SlotsDiffer(k, |q|, size);
    }
  }

  lemma TakeOne<T>(cells: seq<Cell<T>>, size: nat, from: nat, q: seq<T>)
    requires IsPow2(size) && |cells| == size && Stored(cells, size, from, q) && from < |q| <= from + size
    ensures cells[Slot(from, size)] == Live(q[from])
    ensures Stored(cells[Slot(from, size) := Raw], size, from + 1, q)
  {
    forall k | from < k < |q|
      ensures Slot(k, size) != Slot(from, size)
    {
      SlotsDiffer(from, k, size);
    }
  }

  class BlockingReaderWriterCircularBuffer<T(0)> {
    const maxcap: nat
    const mask: nat
    const data: array<Cell<T>>
    var nextSlot: nat
    var nextItem: nat
    var slots: int
    var items: nat

    ghost var enqueued: seq<T>
    ghost var dequeued: seq<T>

    /** The elements are where the indices say. */
    ghost predicate Indexed()
      reads this, data
    {
      && IsPow2(mask + 1) && mask < WORD && data.Length == mask + 1 && maxcap <= mask + 1
      && dequeued <= enqueued && |enqueued| - |dequeued| <= maxcap
      && nextSlot == |enqueued| % WORD && nextItem == |dequeued| % WORD
      && Stored(data[..], mask + 1, |dequeued|, enqueued)
    }

    ghost predicate ItemsCounted()
      reads this, data
    {
      Indexed() && items == |enqueued| - |dequeued|
    }

    ghost predicate Valid()
      reads this, data
    {
      ItemsCounted() && slots + items == maxcap
    }

    /** What was enqueued and not dequeued yet, in order. */
    ghost function Elements(): seq<T>
      requires Valid()
      reads this, data
    {
      enqueued[|dequeued|..]
    }

    /** An empty buffer of the capacity asked for. The semaphore counts with a sign,
        so that works below 2^63; at 0, and above 2^63, the size wraps to 0. */
    constructor (capacity: nat)
      requires capacity < WORD
      ensures maxcap == capacity && fresh(data)
      ensures 0 < capacity && 2 * capacity < WORD ==> Valid() && Elements() == []
      ensures data.Length == 0 <==> capacity == 0 || 2 * capacity > WORD
      ensures slots > 0 <==> 0 < capacity && 2 * capacity < WORD
    {
      var m := MaskFor(capacity);
      SmallMod(0, WORD);
      maxcap, mask, data := capacity, m, new Cell<T>[if m + 1 == WORD then 0 else m + 1](_ => Raw);
      nextSlot, nextItem, items := 0, 0, 0;
      slots := if 2 * capacity < WORD then capacity else capacity - WORD;
      enqueued, dequeued := [], [];
    }

    /** Enqueues exactly when fewer than the capacity are held. */
    method TryEnqueue(item: T) returns (ok: bool)
      requires Valid()
      modifies this, data
      ensures Valid()
      ensures ok == (|old(Elements())| < maxcap)
      ensures Elements() == if ok then old(Elements()) + [item] else old(Elements())
    {
      ok := slots > 0;
      if ok {
        slots := slots - 1;
        InnerEnqueue(item);
      }
    }

    method InnerEnqueue(item: T)
      requires ItemsCounted() && |enqueued| - |dequeued| < maxcap && slots + items + 1 == maxcap
      modifies `nextSlot, `items, `enqueued, data
      ensures ItemsCounted() && slots + items == maxcap
      ensures enqueued == old(enqueued) + [item]
    {
      var i := nextSlot;
      ghost var cells := data[..];
      NumberedSlot(|enqueued|, mask + 1);
      StoreOne(cells, mask + 1, |dequeued|, enqueued, item);
      nextSlot := NextIndex(i, WORD);
      data[Slot(i, mask + 1)] := Live(item);
      assert data[..] == cells[Slot(i, mask + 1) := Live(item)];
      enqueued := enqueued + [item];
      items := items + 1;
    }

    /** Hands out the oldest element; a refusal means there is none. */
    method TryDequeue() returns (ok: bool, item: Cell<T>)
      requires Valid()
      modifies this, data
      ensures Valid()
      ensures ok == (old(Elements()) != [])
      ensures ok ==> item == Live(old(Elements())[0]) && Elements() == old(Elements())[1..]
      ensures !ok ==> Elements() == []
    {
      ok, item := items > 0, Raw;
      if ok {
        items := items - 1;
        item := InnerDequeue();
      }
    }

    method InnerDequeue() returns (item: Cell<T>)
      requires Indexed() && |dequeued| < |enqueued| && items + 1 == |enqueued| - |dequeued| &&
               slots + items + 1 == maxcap
      modifies `nextItem, `slots, `dequeued, data
      ensures ItemsCounted() && slots + items == maxcap
      ensures dequeued == old(dequeued) + [enqueued[|old(dequeued)|]] && item == Live(enqueued[|old(dequeued)|])
    {
      var i := nextItem;
      ghost var cells := data[..];
      NumberedSlot(|dequeued|, mask + 1);
      TakeOne(cells, mask + 1, |dequeued|, enqueued);
      nextItem := NextIndex(i, WORD);
      item := data[Slot(i, mask + 1)];
      data[Slot(i, mask + 1)] := Raw;
      assert data[..] == cells[Slot(i, mask + 1) := Raw];
      dequeued := dequeued + [enqueued[|dequeued|]];
      slots := slots + 1;
    }
  }
}
