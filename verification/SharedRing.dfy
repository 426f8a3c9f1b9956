/** The shared memory as an object, with `writeMessage` and `read_messages` run
    without interference. */
module SharedRingObject {
  import opened Bits
  import opened IpcRing

  class SharedRing {
    const messages: array2<char>
    var head: nat
    var tail: nat
    var dropped: nat

    ghost predicate Valid()
      reads this
    {
      messages.Length0 >= 1 && messages.Length1 >= 1 && head < messages.Length0 && tail < messages.Length0
    }

    ghost function Row(k: nat): (t: Text)
      requires k < messages.Length0
      reads messages
      ensures |t| == messages.Length1 && forall i :: 0 <= i < |t| ==> t[i] == messages[k, i]
    {
      seq(messages.Length1, i requires 0 <= i < messages.Length1 reads messages => messages[k, i])
    }

    /** `len` slots around the ring from `h`. */
    ghost function SlotsFrom(h: nat, len: nat): (q: seq<Text>)
      requires h < messages.Length0 && len <= messages.Length0
      reads messages
      ensures |q| == len && forall k :: 0 <= k < len ==> q[k] == Row(At(h, k, messages.Length0))
    {
      seq(len, k requires 0 <= k < len && h < messages.Length0 && len <= messages.Length0 reads messages =>
        Row(At(h, k, messages.Length0)))
    }

    /** The slots waiting to be read, from head up to tail. */
    ghost function Held(): (q: seq<Text>)
      requires Valid()
      reads this, messages
    {
      SlotsFrom(head, Off(tail, head, messages.Length0))
    }

    constructor (n: nat, m: nat)
      requires n >= 1 && m >= 1
      ensures Valid() && messages.Length0 == n && messages.Length1 == m && fresh(messages)
      ensures Held() == [] && dropped == 0
    {
      messages := new char[n, m];
      head, tail, dropped := 0, 0, 0;
    }

    /** An empty message is accepted and forgotten. Any other is dropped exactly
        when the ring already holds one less than its slots. */
    method WriteMessage(message: Text) returns (ok: bool)
      requires Valid()
      modifies this`tail, this`dropped, messages
      ensures Valid()
      ensures message == [] ==> ok && Held() == old(Held()) && dropped == old(dropped)
      ensures message != [] ==> (ok <==> |old(Held())| < messages.Length0 - 1)
      ensures message != [] && ok ==>
                Held() == old(Held()) + [Slot(message, messages.Length1)] && dropped == old(dropped)
      ensures !ok ==> Held() == old(Held()) && dropped == old(dropped) + 1
    {
      if message == [] {
        return true;
      }
      var nextTail := NextIndex(tail, messages.Length0);
      if nextTail == head {
        dropped := dropped + 1;
        return false;
      }
      ghost var before, len := Held(), Off(tail, head, messages.Length0);
      ghost var last := tail;
      CopyInto(message);
      messages[tail, messages.Length1 - 1] := NUL;
      assert Row(last) == Slot(message, messages.Length1);
      forall k | 0 <= k < len
        ensures Row(At(head, k, messages.Length0)) == before[k]
      {
        assert before[k] == old(Row(At(head, k, messages.Length0)));
      }
      tail := nextTail;
      assert At(head, len, messages.Length0) == last;
      assert Held() == before + [Row(last)] by {
        assert |Held()| == len + 1;
        assert forall k :: 0 <= k < len ==> Held()[k] == before[k];
      }
      assert Row(last) == Slot(message, messages.Length1);
      ok := true;
    }

    /** `strncpy` of at most one less than the slot, padding with NULs. */
    method CopyInto(message: Text)
      requires Valid()
      modifies messages
      ensures forall j :: 0 <= j < messages.Length1 - 1 ==> messages[tail, j] == Written(message, messages.Length1, j)
      ensures forall k, j :: 0 <= k < messages.Length0 && 0 <= j < messages.Length1 && k != tail ==>
                messages[k, j] == old(messages[k, j])
    {
      var text := CText(message);
      var i := 0;
      while i < messages.Length1 - 1
        invariant i <= messages.Length1 - 1
        invariant forall j :: 0 <= j < i ==> messages[tail, j] == Written(message, messages.Length1, j)
        invariant forall k, j :: 0 <= k < messages.Length0 && 0 <= j < messages.Length1 && k != tail ==>
                    messages[k, j] == old(messages[k, j])
      {
        messages[tail, i] := if i < |text| then text[i] else NUL;
        i := i + 1;
      }
    }

    /** Empties the ring, in order. */
    method ReadMessages() returns (msgs: seq<Text>)
      requires Valid()
      modifies this`head
      ensures Valid() && Held() == []
      ensures |msgs| == |old(Held())| && forall k :: 0 <= k < |msgs| ==> msgs[k] == Stripped(old(Held())[k])
    {
      msgs := [];
      ghost var all := Held();
      while head != tail
        invariant Valid() && |msgs| <= |all| && Held() == all[|msgs|..]
        invariant forall k :: 0 <= k < |msgs| ==> msgs[k] == Stripped(all[k])
        decreases |Held()|
      {
        var raw := ReadSlot(head);
        assert raw == Held()[0];
        msgs := msgs + [Stripped(raw)];
        DropFirst();
        head := NextIndex(head, messages.Length0);
      }
    }

    lemma DropFirst()
      requires Valid() && head != tail
      ensures Held() != [] && Held()[0] == Row(head)
      ensures SlotsFrom(NextIndex(head, messages.Length0),
                        Off(tail, NextIndex(head, messages.Length0), messages.Length0)) == Held()[1..]
    {
    }

    method ReadSlot(k: nat) returns (raw: Text)
      requires k < messages.Length0
      ensures raw == Row(k)
    {
      raw := [];
      var i := 0;
      while i < messages.Length1
        invariant i <= messages.Length1 && |raw| == i
        invariant forall j :: 0 <= j < i ==> raw[j] == messages[k, j]
      {
        raw := raw + [messages[k, i]];
        i := i + 1;
      }
    }
  }

  /** A message written into a ring with room and read at once comes back as its
      text up to the first NUL, cut to the slot. */
  method RoundTrip(ring: SharedRing, message: Text) returns (msgs: seq<Text>)
    requires ring.Valid() && message != [] && ring.Held() == [] && ring.messages.Length0 > 1
    modifies ring, ring.messages
    ensures ring.Valid() && ring.Held() == []
    ensures msgs == [Take(CText(message), ring.messages.Length1 - 1)]
  {
    var ok := ring.WriteMessage(message);
    msgs := ring.ReadMessages();
    ReadsBack(message, ring.messages.Length1);
  }
}
