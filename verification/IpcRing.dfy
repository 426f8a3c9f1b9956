/** The shared-memory ring between the C++ producer and the Python consumer, one
    access at a time and one character at a time: `writeMessage` copies into the
    slot while `read_messages` may be copying out of another. The number of slots
    `n` and their size `m` are any at least 1; the program has 64 of 2097152. */
module IpcRing {
  import opened Bits

  type Text = seq<char>

  const NUL: char := '\0'

  // ------------------------------------------------------------ text in a slot

  /** What `c_str` and a NUL-terminated copy see: the text up to its first NUL. */
  function CText(msg: Text): (t: Text)
    ensures NUL !in t && t <= msg
    ensures |t| < |msg| ==> msg[|t|] == NUL
  {
    if msg == [] || msg[0] == NUL then [] else [msg[0]] + CText(msg[1..])
  }

  /** The character that `strncpy(slot, msg, m - 1)` and the final terminator put
      at index `i` of a slot of `m` characters. */
  function Written(msg: Text, m: nat, i: nat): char {
    if i + 1 < m && i < |CText(msg)| then CText(msg)[i] else NUL
  }

  function Slot(msg: Text, m: nat): (r: Text)
    ensures |r| == m && forall i :: 0 <= i < m ==> r[i] == Written(msg, m, i)
  {
    seq(m, i requires 0 <= i < m => Written(msg, m, i))
  }

  /** `rstrip("\x00")` */
  function Stripped(t: Text): Text {
    if t != [] && t[|t| - 1] == NUL then Stripped(t[..|t| - 1]) else t
  }

  function Take(t: Text, n: nat): Text { if |t| <= n then t else t[..n] }

  lemma {:induction false} StrippedIsPrefix(t: Text, k: nat)
    requires k <= |t| && NUL !in t[..k] && forall i :: k <= i < |t| ==> t[i] == NUL
    ensures Stripped(t) == t[..k]
  {
    if k < |t| {
      var u := t[..|t| - 1];
      assert u[..k] == t[..k];
      StrippedIsPrefix(u, k);
    } else {
      assert t[..k] == t;
      assert k > 0 ==> t[k - 1] in t[..k];
    }
  }

  /** What is read back is the text up to its first NUL, cut to the slot, and
      nothing of what the slot held before. */
  lemma ReadsBack(msg: Text, m: nat)
    requires m >= 1
    ensures Stripped(Slot(msg, m)) == Take(CText(msg), m - 1)
  {
    var t := Take(CText(msg), m - 1);
    assert Slot(msg, m)[..|t|] == t;
    forall c | c in t
      ensures c in CText(msg)
    {
    }
    StrippedIsPrefix(Slot(msg, m), |t|);
  }

  /** It is the message itself, cut to the slot, exactly when no NUL comes
      before the cut. */
  lemma ReadsBackWholeIff(msg: Text, m: nat)
    requires m >= 1
    ensures Stripped(Slot(msg, m)) == Take(msg, m - 1) <==> NUL !in Take(msg, m - 1)
  {
    ReadsBack(msg, m);
    var c := CText(msg);
    assert forall x :: x in Take(c, m - 1) ==> x in c;
    forall i | 0 <= i < |msg| && i < m - 1
      ensures msg[i] in Take(msg, m - 1)
    {
      assert Take(msg, m - 1)[i] == msg[i];
    }
  }

  // ----------------------------------------------------------------- the machine

  datatype ProducerPc =
    | PIdle
    | PDone(ok: bool)
    | PBegin(msg: Text)             // load head and tail
    | PCopy(msg: Text, i: nat)      // one character of strncpy
    | PTerminate(msg: Text)         // the final NUL
    | PPublish(msg: Text)           // store tail

  datatype ConsumerPc =
    | CIdle
    | CDone
    | CCheck                        // head != tail ?
    | CCopy(buf: Text)              // one character of bytes(...)
    | CStoreHead(buf: Text)         // append, store head

  /** `accepted` and `received` are history: the messages published, and the raw
      slots the consumer has appended. `messages` is the list being returned. */
  datatype State = State(
    n: nat,
    m: nat,
    slots: seq<Text>,
    head: nat,
    tail: nat,
    dropped: nat,
    messages: seq<Text>,
    p: ProducerPc,
    c: ConsumerPc,
    attempts: nat,
    accepted: seq<Text>,
    received: seq<Text>)

  datatype Event = CallWrite(msg: Text) | StepWrite | CallRead | StepRead

  predicate Shape(s: State) {
    && s.n >= 1 && s.m >= 1 && s.head < s.n && s.tail < s.n
    && |s.slots| == s.n && (forall k :: 0 <= k < s.n ==> |s.slots[k]| == s.m)
    && (s.p.PCopy? ==> s.p.i < s.m)
    && (s.c.CCopy? ==> |s.c.buf| < s.m)
  }

  function Write(slots: seq<Text>, k: nat, i: nat, c: char): seq<Text>
    requires k < |slots| && i < |slots[k]|
  {
    slots[k := slots[k][i := c]]
  }

  function Next(s: State, ev: Event): (r: State)
    requires Shape(s)
    ensures Shape(r) && r.n == s.n && r.m == s.m
  {
    match ev
    case CallWrite(msg) => if s.p.PIdle? || s.p.PDone? then s.(p := PBegin(msg)) else s
    case CallRead => if s.c.CIdle? || s.c.CDone? then s.(c := CCheck, messages := []) else s
    case StepWrite => WriteStep(s)
    case StepRead => ReadStep(s)
  }

  function WriteStep(s: State): (r: State)
    requires Shape(s)
    ensures Shape(r) && r.n == s.n && r.m == s.m
  {
    match s.p
    case PIdle => s
    case PDone(_) => s
    case PBegin(msg) =>
      if msg == [] then s.(p := PDone(true))
      else if NextIndex(s.tail, s.n) == s.head then
        s.(dropped := s.dropped + 1, attempts := s.attempts + 1, p := PDone(false))
      else s.(attempts := s.attempts + 1, p := PCopy(msg, 0))
    case PCopy(msg, i) =>
      if i == s.m - 1 then s.(p := PTerminate(msg))
      else s.(slots := Write(s.slots, s.tail, i, if i < |CText(msg)| then CText(msg)[i] else NUL),
              p := PCopy(msg, i + 1))
    case PTerminate(msg) => s.(slots := Write(s.slots, s.tail, s.m - 1, NUL), p := PPublish(msg))
    case PPublish(msg) => s.(tail := NextIndex(s.tail, s.n), p := PDone(true), accepted := s.accepted + [msg])
  }

  function ReadStep(s: State): (r: State)
    requires Shape(s)
    ensures Shape(r) && r.n == s.n && r.m == s.m
  {
    match s.c
    case CIdle => s
    case CDone => s
    case CCheck => s.(c := if s.head != s.tail then CCopy([]) else CDone)
    case CCopy(buf) =>
      var buf' := buf + [s.slots[s.head][|buf|]];
      s.(c := if |buf'| < s.m then CCopy(buf') else CStoreHead(buf'))
    case CStoreHead(buf) =>  // decode, rstrip, append, then move head
      s.(messages := s.messages + [Stripped(buf)], head := NextIndex(s.head, s.n), c := CCheck,
         received := s.received + [buf])
  }

  // ------------------------------------------------------------------- invariant

  function Pending(s: State): seq<Text>
    requires |s.received| <= |s.accepted|
  {
    s.accepted[|s.received|..]
  }

  ghost predicate Delivered(s: State) {
    && |s.received| <= |s.accepted|
    && (forall k :: 0 <= k < |s.received| ==> s.received[k] == Slot(s.accepted[k], s.m))
    && |s.messages| <= |s.received|
    && forall k :: 0 <= k < |s.messages| ==>
         s.messages[k] == Stripped(s.received[|s.received| - |s.messages| + k])
  }

  /** The pending messages lie in order from head up to tail. */
  ghost predicate Stored(s: State)
    requires Shape(s)
  {
    && Delivered(s)
    && |Pending(s)| == Off(s.tail, s.head, s.n)
    && forall k :: 0 <= k < s.n && Off(k, s.head, s.n) < |Pending(s)| ==>
         s.slots[k] == Slot(Pending(s)[Off(k, s.head, s.n)], s.m)
  }

  ghost predicate ProducerInv(s: State)
    requires Shape(s)
  {
    var busy := s.p.PCopy? || s.p.PTerminate? || s.p.PPublish?;
    && s.attempts == |s.accepted| + s.dropped + (if busy then 1 else 0)
    && (busy ==> NextIndex(s.tail, s.n) != s.head)
    && (match s.p
        case PCopy(msg, i) => forall j :: 0 <= j < i ==> s.slots[s.tail][j] == Written(msg, s.m, j)
        case PTerminate(msg) => forall j :: 0 <= j < s.m - 1 ==> s.slots[s.tail][j] == Written(msg, s.m, j)
        case PPublish(msg) => s.slots[s.tail] == Slot(msg, s.m)
        case _ => true)
  }

  ghost predicate ConsumerInv(s: State)
    requires Shape(s)
  {
    match s.c
    case CCopy(buf) => s.head != s.tail && buf == s.slots[s.head][..|buf|]
    case CStoreHead(buf) => s.head != s.tail && buf == s.slots[s.head]
    case _ => true
  }

  ghost predicate Inv(s: State) {
    Shape(s) && Stored(s) && ProducerInv(s) && ConsumerInv(s)
  }

  lemma CopyKeepsStored(s: State)
    requires Inv(s) && (s.p.PCopy? || s.p.PTerminate?)
    ensures Stored(WriteStep(s))
  {
  }

  lemma CopyKeepsProducer(s: State)
    requires Inv(s) && (s.p.PCopy? || s.p.PTerminate?)
    ensures ProducerInv(WriteStep(s))
  {
  }

  lemma CopyKeepsConsumer(s: State)
    requires Inv(s) && (s.p.PCopy? || s.p.PTerminate?)
    ensures ConsumerInv(WriteStep(s))
  {
  }

  lemma CopyKeepsInv(s: State)
    requires Inv(s) && (s.p.PCopy? || s.p.PTerminate?)
    ensures Inv(WriteStep(s))
  {
    CopyKeepsStored(s);
    CopyKeepsProducer(s);
    CopyKeepsConsumer(s);
  }

  lemma PublishKeepsStored(s: State)
    requires Inv(s) && s.p.PPublish?
    ensures Stored(WriteStep(s))
  {
  }

  lemma PublishKeepsProducer(s: State)
    requires Inv(s) && s.p.PPublish?
    ensures ProducerInv(WriteStep(s))
  {
  }

  lemma PublishKeepsConsumer(s: State)
    requires Inv(s) && s.p.PPublish?
    ensures ConsumerInv(WriteStep(s))
  {
  }

  lemma PublishKeepsInv(s: State)
    requires Inv(s) && s.p.PPublish?
    ensures Inv(WriteStep(s))
  {
    PublishKeepsStored(s);
    PublishKeepsProducer(s);
    PublishKeepsConsumer(s);
  }

  lemma WriteKeepsInv(s: State)
    requires Inv(s)
    ensures Inv(WriteStep(s))
  {
    if s.p.PCopy? || s.p.PTerminate? {
      CopyKeepsInv(s);
    } else if s.p.PPublish? {
      PublishKeepsInv(s);
    }
  }

  lemma LoadKeepsStored(s: State)
    requires Inv(s) && !s.c.CStoreHead?
    ensures Stored(ReadStep(s))
  {
  }

  lemma LoadKeepsProducer(s: State)
    requires Inv(s) && !s.c.CStoreHead?
    ensures ProducerInv(ReadStep(s))
  {
  }

  lemma LoadKeepsConsumer(s: State)
    requires Inv(s) && !s.c.CStoreHead?
    ensures ConsumerInv(ReadStep(s))
  {
  }

  lemma LoadKeepsInv(s: State)
    requires Inv(s) && !s.c.CStoreHead?
    ensures Inv(ReadStep(s))
  {
    LoadKeepsStored(s);
    LoadKeepsProducer(s);
    LoadKeepsConsumer(s);
  }

  lemma StoreHeadKeepsStored(s: State)
    requires Inv(s) && s.c.CStoreHead?
    ensures Stored(ReadStep(s))
  {
    StoreHeadDelivers(s);
    HeadMoved(s, ReadStep(s));
  }

  lemma StoreHeadDelivers(s: State)
    requires Inv(s) && s.c.CStoreHead?
    ensures Delivered(ReadStep(s)) && |s.received| < |s.accepted|
  {
  }

  /** The oldest pending message is no longer pending. */
  lemma HeadMoved(s: State, r: State)
    requires Shape(s) && Shape(r) && Stored(s) && Delivered(r) && s.head != s.tail && |s.received| < |s.accepted|
    requires r.n == s.n && r.m == s.m && r.slots == s.slots && r.tail == s.tail && r.accepted == s.accepted
    requires r.head == NextIndex(s.head, s.n) && |r.received| == |s.received| + 1
    ensures Stored(r)
  {
    assert Pending(r) == Pending(s)[1..];
  }

  lemma StoreHeadKeepsProducer(s: State)
    requires Inv(s) && s.c.CStoreHead?
    ensures ProducerInv(ReadStep(s))
  {
  }

  lemma StoreHeadKeepsConsumer(s: State)
    requires Inv(s) && s.c.CStoreHead?
    ensures ConsumerInv(ReadStep(s))
  {
  }

  lemma StoreHeadKeepsInv(s: State)
    requires Inv(s) && s.c.CStoreHead?
    ensures Inv(ReadStep(s))
  {
    StoreHeadKeepsStored(s);
    StoreHeadKeepsProducer(s);
    StoreHeadKeepsConsumer(s);
  }

  lemma NextKeepsInv(s: State, ev: Event)
    requires Inv(s)
    ensures Inv(Next(s, ev))
  {
    match ev
    case CallWrite(_) =>
    case CallRead =>
    case StepWrite => WriteKeepsInv(s);
    case StepRead =>
      if s.c.CStoreHead? { StoreHeadKeepsInv(s); } else { LoadKeepsInv(s); }
  }

  // -------------------------------------------------------------------- theorems

  /** Fresh shared memory: whatever the slots held, both indices zero. */
  predicate Initial(s: State) {
    && Shape(s) && s.head == 0 && s.tail == 0 && s.dropped == 0 && s.attempts == 0
    && s.p == PIdle && s.c == CIdle && s.accepted == [] && s.received == [] && s.messages == []
  }

  ghost predicate IsRun(run: seq<State>, evs: seq<Event>) {
    && |run| == |evs| + 1 && Initial(run[0])
    && (forall k :: 0 <= k < |run| ==> Shape(run[k]))
    && (forall k :: 0 <= k < |evs| ==> run[k + 1] == Next(run[k], evs[k]))
  }

  lemma {:induction false} RunInv(run: seq<State>, evs: seq<Event>, k: nat)
    requires IsRun(run, evs) && k < |run|
    ensures Inv(run[k]) && run[k].n == run[0].n && run[k].m == run[0].m
  {
    if k != 0 {
      RunInv(run, evs, k - 1);
      NextKeepsInv(run[k - 1], evs[k - 1]);
    }
  }

  /** The slot being written is never the slot being read. */
  lemma NeverTheSameSlot(run: seq<State>, evs: seq<Event>, k: nat)
    requires IsRun(run, evs) && k < |run|
    requires run[k].p.PCopy? || run[k].p.PTerminate?
    requires run[k].c.CCopy?
    ensures run[k].head != run[k].tail
  {
    RunInv(run, evs, k);
  }

  /** A write is refused exactly when the ring is full as it loads head, and
      every non-empty message is accepted, dropped and counted, or under way. */
  lemma RefusedIffFull(run: seq<State>, evs: seq<Event>, k: nat)
    requires IsRun(run, evs) && k < |run|
    ensures run[k].attempts - |run[k].accepted| - run[k].dropped ==
              if run[k].p.PCopy? || run[k].p.PTerminate? || run[k].p.PPublish? then 1 else 0
    ensures run[k].p.PBegin? && run[k].p.msg != [] ==>
              (WriteStep(run[k]).p == PDone(false) <==> |run[k].accepted| - |run[k].received| == run[k].n - 1)
  {
    RunInv(run, evs, k);
  }

  // --------------------------------------------------------------- what calls return

  /** The texts of messages, up to the first NUL and cut to a slot of `m`. */
  function Texts(q: seq<Text>, m: nat): (r: seq<Text>)
    requires m >= 1
    ensures |r| == |q| && forall i :: 0 <= i < |q| ==> r[i] == Take(CText(q[i]), m - 1)
  {
    seq(|q|, i requires 0 <= i < |q| => Take(CText(q[i]), m - 1))
  }

  predicate Reading(c: ConsumerPc) { !c.CIdle? && !c.CDone? }

  /** What the calls completed by state `k` have returned, one list after the other. */
  function Returned(run: seq<State>, k: nat): seq<Text>
    requires k < |run|
  {
    if k == 0 then []
    else if Reading(run[k - 1].c) && run[k].c.CDone? then Returned(run, k - 1) + run[k].messages
    else Returned(run, k - 1)
  }

  /** The list of the call under way. */
  function UnderWay(s: State): seq<Text> { if Reading(s.c) then s.messages else [] }

  /** What a step adds to what was returned and is under way. */
  lemma StepReturns(s: State, ev: Event, r: State)
    requires Shape(s) && r == Next(s, ev)
    ensures s.accepted <= r.accepted && r.m == s.m && (r.received == s.received || |r.received| == |s.received| + 1)
    ensures !Reading(s.c) ==> r.received == s.received && (Reading(r.c) ==> r.messages == [])
    ensures Reading(s.c) ==> Reading(r.c) || r.c.CDone?
    ensures Reading(s.c) && r.received == s.received ==> r.messages == s.messages
    ensures r.received != s.received ==>
              Reading(s.c) && Reading(r.c) && r.messages == s.messages + [Stripped(r.received[|s.received|])]
  {
  }

  /** The text a step adds is that of the next accepted message. */
  lemma StepReadsNext(s: State, ev: Event, r: State)
    requires Inv(s) && Inv(r) && r == Next(s, ev) && r.received != s.received
    ensures |s.received| < |r.accepted| && |r.received| == |s.received| + 1
    ensures r.messages == s.messages + [Take(CText(r.accepted[|s.received|]), r.m - 1)]
  {
    StepReturns(s, ev, r);
    ReadsBack(r.accepted[|s.received|], r.m);
  }

  /** The lists `before` and then `list` are the texts of the first `n` messages of `q`. */
  predicate Told(before: seq<Text>, list: seq<Text>, q: seq<Text>, n: nat, m: nat) {
    m >= 1 && n <= |q| && before + list == Texts(q[..n], m)
  }

  lemma SameTold(before: seq<Text>, list: seq<Text>, q: seq<Text>, r: seq<Text>, n: nat, m: nat)
    requires Told(before, list, q, n, m) && q <= r
    ensures Told(before, list, r, n, m)
  {
    assert r[..n] == q[..n];
  }

  lemma OneMoreTold(before: seq<Text>, list: seq<Text>, r: seq<Text>, n: nat, m: nat)
    requires Told(before, list, r, n, m) && n < |r|
    ensures Told(before, list + [Take(CText(r[n]), m - 1)], r, n + 1, m)
  {
    var t := [Take(CText(r[n]), m - 1)];
    assert before + (list + t) == (before + list) + t;
    assert r[..n + 1] == r[..n] + [r[n]];
  }

  lemma DoneTold(before: seq<Text>, list: seq<Text>, q: seq<Text>, n: nat, m: nat)
    requires Told(before, list, q, n, m)
    ensures Told(before + list, [], q, n, m)
  {
    assert before + list + [] == before + list;
  }

  lemma StepTold(before: seq<Text>, s: State, ev: Event, r: State, after: seq<Text>)
    requires Inv(s) && Inv(r) && r == Next(s, ev) && Told(before, UnderWay(s), s.accepted, |s.received|, s.m)
    requires after == if Reading(s.c) && r.c.CDone? then before + r.messages else before
    ensures Told(after, UnderWay(r), r.accepted, |r.received|, r.m)
  {
    StepReturns(s, ev, r);
    SameTold(before, UnderWay(s), s.accepted, r.accepted, |s.received|, s.m);
    if r.received != s.received {
      StepReadsNext(s, ev, r);
      OneMoreTold(before, s.messages, r.accepted, |s.received|, s.m);
    } else if Reading(s.c) && r.c.CDone? {
      DoneTold(before, s.messages, r.accepted, |s.received|, s.m);
    }
  }

  lemma {:induction false} RunTold(run: seq<State>, evs: seq<Event>, k: nat)
    requires IsRun(run, evs) && k < |run|
    ensures Told(Returned(run, k), UnderWay(run[k]), run[k].accepted, |run[k].received|, run[k].m)
  {
    RunInv(run, evs, k);
    if k != 0 {
      RunTold(run, evs, k - 1);
      RunInv(run, evs, k - 1);
      StepTold(Returned(run, k - 1), run[k - 1], evs[k - 1], run[k], Returned(run, k));
    }
  }

  /** At every moment of every interleaving, down to single characters: the lists
      returned so far, one after the other, and then the one under way, are the texts of
      the accepted messages that were read, from the first on, each once and none left
      out, whatever the slots held before; and at most `n - 1` are still to be read. */
  lemma ReturnedOnceInOrder(run: seq<State>, evs: seq<Event>, k: nat)
    requires IsRun(run, evs) && k < |run|
    ensures |run[k].received| <= |run[k].accepted| <= |run[k].received| + run[k].n - 1 && run[k].m >= 1
    ensures Returned(run, k) + UnderWay(run[k]) == Texts(run[k].accepted[..|run[k].received|], run[k].m)
  {
    RunInv(run, evs, k);
    RunTold(run, evs, k);
  }

  /** A read call began with event `i` and was done at `j`. */
  ghost predicate ReadCall(run: seq<State>, i: nat, j: nat) {
    i + 1 < j < |run| && !Reading(run[i].c) && run[j].c.CDone? && forall k :: i < k < j ==> Reading(run[k].c)
  }

  lemma {:induction false} ReturnedInCall(run: seq<State>, evs: seq<Event>, i: nat, j: nat)
    requires IsRun(run, evs) && i < j < |run| && !Reading(run[i].c) && forall k :: i < k <= j ==> Reading(run[k].c)
    ensures Returned(run, j) == Returned(run, i)
  {
    if i + 1 < j {
      ReturnedInCall(run, evs, i, j - 1);
    }
  }

  /** A call is done only when it finds the ring empty. */
  lemma DoneFindsEmpty(s: State, ev: Event, r: State)
    requires Inv(s) && r == Next(s, ev) && Reading(s.c) && r.c.CDone?
    ensures r.accepted == s.accepted && r.received == s.received && |s.received| == |s.accepted|
  {
  }

  /** A call returns the texts of exactly the messages accepted by its end that no call
      before it has returned, in order. */
  lemma CallReturnsAll(run: seq<State>, evs: seq<Event>, i: nat, j: nat)
    requires IsRun(run, evs) && ReadCall(run, i, j)
    ensures run[i].m == run[j].m >= 1 && |run[i].received| <= |run[j].received| == |run[j].accepted|
    ensures run[j].messages == Texts(run[j].accepted[|run[i].received|..], run[j].m)
  {
    RunInv(run, evs, i);
    RunInv(run, evs, j);
    RunInv(run, evs, j - 1);
    DoneFindsEmpty(run[j - 1], evs[j - 1], run[j]);
    RunTold(run, evs, i);
    RunTold(run, evs, j);
    ReturnedInCall(run, evs, i, j - 1);
    HistoriesGrow(run, evs, i, j);
    SliceOfTexts(Returned(run, i), run[j].messages, run[i].accepted, run[j].accepted,
                 |run[i].received|, |run[j].received|, run[j].m);
  }

  lemma {:induction false} HistoriesGrow(run: seq<State>, evs: seq<Event>, i: nat, j: nat)
    requires IsRun(run, evs) && i <= j < |run|
    ensures run[i].accepted <= run[j].accepted && |run[i].received| <= |run[j].received|
  {
    if i < j {
      HistoriesGrow(run, evs, i, j - 1);
      StepReturns(run[j - 1], evs[j - 1], run[j - 1 + 1]);
    }
  }

  lemma SliceOfTexts(before: seq<Text>, list: seq<Text>, q: seq<Text>, r: seq<Text>, a: nat, b: nat, m: nat)
    requires q <= r && a <= b && Told(before, [], q, a, m) && Told(before, list, r, b, m)
    ensures list == Texts(r[a..b], m)
  {
    assert before + [] == before;
    assert |before| == a && |list| == b - a;
    forall k | 0 <= k < b - a
      ensures list[k] == Take(CText(r[a + k]), m - 1)
    {
      assert list[k] == (before + list)[a + k] == Texts(r[..b], m)[a + k];
    }
  }

  predicate Writing(p: ProducerPc) { !p.PIdle? && !p.PDone? }

  /** A write of `msg` began with event `i` and had just returned at `j`. */
  ghost predicate WriteCall(run: seq<State>, evs: seq<Event>, i: nat, j: nat, msg: Text) {
    && |run| == |evs| + 1 && i + 1 < j < |run| && evs[i] == CallWrite(msg)
    && !Writing(run[i].p) && run[j].p.PDone? && forall x :: i < x < j ==> Writing(run[x].p)
  }

  /** The call for `msg` found `before` accepted and `dropped` counted. */
  predicate Offering(s: State, before: seq<Text>, dropped: nat, msg: Text) {
    match s.p
    case PIdle => false
    case PDone(ok) =>
      && s.accepted == (if ok && msg != [] then before + [msg] else before)
      && s.dropped == dropped + (if ok then 0 else 1) && (msg == [] ==> ok)
    case PBegin(t) => t == msg && s.accepted == before && s.dropped == dropped
    case PCopy(t, _) => t == msg != [] && s.accepted == before && s.dropped == dropped
    case PTerminate(t) => t == msg != [] && s.accepted == before && s.dropped == dropped
    case PPublish(t) => t == msg != [] && s.accepted == before && s.dropped == dropped
  }

  lemma OfferingStep(s: State, ev: Event, r: State, before: seq<Text>, dropped: nat, msg: Text)
    requires Shape(s) && r == Next(s, ev) && Offering(s, before, dropped, msg) && Writing(s.p)
    ensures Offering(r, before, dropped, msg)
  {
  }

  lemma {:induction false} OfferingRun(run: seq<State>, evs: seq<Event>, i: nat, x: nat, j: nat, msg: Text)
    requires IsRun(run, evs) && WriteCall(run, evs, i, j, msg) && i < x <= j
    ensures Offering(run[x], run[i].accepted, run[i].dropped, msg)
  {
    if x > i + 1 {
      OfferingRun(run, evs, i, x - 1, j, msg);
      OfferingStep(run[x - 1], evs[x - 1], run[x], run[i].accepted, run[i].dropped, msg);
    }
  }

  /** In any interleaving, a write that returns true has its own message accepted and no
      other, unless it was empty, which is nothing to write; one that returns false has
      nothing accepted and is counted. */
  lemma WriteOffersItsOwn(run: seq<State>, evs: seq<Event>, i: nat, j: nat, msg: Text)
    requires IsRun(run, evs) && WriteCall(run, evs, i, j, msg)
    ensures run[j].accepted == if run[j].p.ok && msg != [] then run[i].accepted + [msg] else run[i].accepted
    ensures run[j].dropped == run[i].dropped + (if run[j].p.ok then 0 else 1)
    ensures msg == [] ==> run[j].p.ok
  {
    OfferingRun(run, evs, i, j, j, msg);
  }
}
