/** LightweightSemaphore with one waiter and one signaller, one atomic access at
    a time, over a counting kernel semaphore. */
module Semaphore {

  /** `initial`, `signalled` and `taken` are history: the starting count, the
      signals whose fetch-add is done, and the waits that succeeded. */
  datatype Sema = Sema(initial: nat, count: int, kernel: nat, signalled: nat, taken: nat)

  const SPINS: nat := 1024

  /** `mayBlock` tells wait from tryWait; a negative timeout waits for ever. */
  datatype WaiterPc =
    | WIdle
    | WDone(ok: bool)
    | WTry(mayBlock: bool, timeout: int)   // load, in tryWait
    | WTryTake                             // fetch_add(-1), in tryWait
    | WSpin(spin: nat, timeout: int)       // load, in the spin loop
    | WSpinTake                            // fetch_add(-1), in the spin loop
    | WClaim(timeout: int)                 // fetch_add(-1) after spinning
    | WKernel(timeout: int)                // wait on the kernel semaphore
    | WUndo                                // fetch_add(1) after the timeout
    | WRedo                                // fetch_add(-1): a signal came after all
    | WRetry                               // try_wait on the kernel semaphore

  datatype SignallerPc = SIdle | SAdd | SKernel

  function TryWaitCall(): WaiterPc { WTry(false, 0) }

  function WaitCall(timeout: int): WaiterPc { WTry(true, timeout) }

  predicate WaiterActive(w: WaiterPc) { !w.WIdle? && !w.WDone? }

  /** One access by the waiter. `expire` lets a timed kernel wait run out. */
  function WaiterStep(m: Sema, w: WaiterPc, expire: bool): (Sema, WaiterPc) {
    match w
    case WIdle => (m, w)
    case WDone(_) => (m, w)
    case WTry(mayBlock, t) =>
      (m, if m.count > 0 then WTryTake else if mayBlock then WSpin(SPINS, t) else WDone(false))
    case WTryTake => (Take(m), WDone(true))
    case WSpin(spin, t) =>
      if spin == 0 then (m, WClaim(t))
      else (m, if m.count > 0 then WSpinTake else WSpin(spin - 1, t))
    case WSpinTake => (Take(m), WDone(true))
    case WClaim(t) =>
      if m.count > 0 then (Take(m), WDone(true))
      else (m.(count := m.count - 1), if t == 0 then WUndo else WKernel(t))
    case WKernel(t) =>
      if m.kernel > 0 && !(expire && t > 0) then (KernelTake(m), WDone(true))
      else (m, if expire && t > 0 then WUndo else w)
    case WUndo => (m.(count := m.count + 1), if m.count < 0 then WDone(false) else WRedo)
    case WRedo => (m.(count := m.count - 1), if m.count > 0 then WRetry else WUndo)
    case WRetry => if m.kernel > 0 then (KernelTake(m), WDone(true)) else (m, WUndo)
  }

  /** fetch_add(-1) by a wait that thereby succeeds. */
  function Take(m: Sema): Sema { m.(count := m.count - 1, taken := m.taken + 1) }

  /** The kernel wait succeeds: the count was lowered already. */
  function KernelTake(m: Sema): Sema
    requires m.kernel > 0
  {
    m.(kernel := m.kernel - 1, taken := m.taken + 1)
  }

  /** One access by the signaller, `signal(1)`. */
  function SignallerStep(m: Sema, g: SignallerPc): (Sema, SignallerPc) {
    match g
    case SIdle => (m, g)
    case SAdd => (m.(count := m.count + 1, signalled := m.signalled + 1), if m.count < 0 then SKernel else SIdle)
    case SKernel => (m.(kernel := m.kernel + 1), SIdle)
  }

  // --------------------------------------------------------------- invariant

  /** The waiter has lowered the count and not yet been granted a token. */
  predicate Waiting(w: WaiterPc) { w.WKernel? || w.WUndo? || w.WRetry? }

  /** Tokens not yet taken. */
  function Tokens(m: Sema): int { m.initial + m.signalled - m.taken }

  /** Kernel posts made or about to be made. */
  function Posts(m: Sema, g: SignallerPc): nat { m.kernel + if g.SKernel? then 1 else 0 }

  ghost predicate Inv(m: Sema, w: WaiterPc, g: SignallerPc) {
    && m.count == Tokens(m) - (if Waiting(w) then 1 else 0)
    && (if Waiting(w) then m.count >= -1 && Posts(m, g) == if m.count >= 0 then 1 else 0
        else if w.WRedo? then m.count >= 1 && Posts(m, g) == 1
        else m.count >= 0 && Posts(m, g) == 0)
    && (w.WTryTake? || w.WSpinTake? ==> m.count >= 1)
    && (w.WRetry? ==> m.count >= 0)
  }

  lemma IdleInv(m: Sema, w: WaiterPc, g: SignallerPc)
    requires m.kernel == 0 && m.count == Tokens(m) && m.count >= 0 && w.WIdle? && g.SIdle?
    ensures Inv(m, w, g)
  {
  }

  lemma CallKeepsInv(m: Sema, w: WaiterPc, call: WaiterPc, g: SignallerPc)
    requires Inv(m, w, g) && !WaiterActive(w) && call.WTry?
    ensures Inv(m, call, g)
  {
  }

  lemma WaiterKeepsInv(m: Sema, w: WaiterPc, g: SignallerPc, expire: bool)
    requires Inv(m, w, g)
    ensures Inv(WaiterStep(m, w, expire).0, WaiterStep(m, w, expire).1, g)
  {
  }

  lemma SignallerKeepsInv(m: Sema, w: WaiterPc, g: SignallerPc)
    requires Inv(m, w, g)
    ensures Inv(SignallerStep(m, g).0, w, SignallerStep(m, g).1)
  {
  }

  // ---------------------------------------------------------------- the machine

  datatype State = State(m: Sema, w: WaiterPc, g: SignallerPc)

  datatype Event = CallSignal | StepSignal | CallTryWait | CallWait(timeout: int) | StepWait(expire: bool)

  function Next(s: State, ev: Event): State {
    match ev
    case CallSignal => if s.g.SIdle? then s.(g := SAdd) else s
    case StepSignal => var (m, g) := SignallerStep(s.m, s.g); State(m, s.w, g)
    case CallTryWait => if WaiterActive(s.w) then s else s.(w := TryWaitCall())
    case CallWait(t) => if WaiterActive(s.w) then s else s.(w := WaitCall(t))
    case StepWait(expire) => var (m, w) := WaiterStep(s.m, s.w, expire); State(m, w, s.g)
  }

  function Start(initial: nat): State {
    State(Sema(initial, initial, 0, 0, 0), WIdle, SIdle)
  }

  function Run(s: State, evs: seq<Event>): State {
    if evs == [] then s else Next(Run(s, evs[..|evs| - 1]), evs[|evs| - 1])
  }

  lemma {:induction false} RunKeepsInv(s: State, evs: seq<Event>)
    requires Inv(s.m, s.w, s.g)
    ensures var r := Run(s, evs); Inv(r.m, r.w, r.g)
  {
    if evs != [] {
      var p := Run(s, evs[..|evs| - 1]);
      RunKeepsInv(s, evs[..|evs| - 1]);
      match evs[|evs| - 1]
      case StepWait(expire) => WaiterKeepsInv(p.m, p.w, p.g, expire);
      case StepSignal => SignallerKeepsInv(p.m, p.w, p.g);
      case _ =>
    }
  }

  /** In every interleaving: the signaller's assert holds, waits never succeed
      more often than there were tokens, and when both sides are idle the
      kernel semaphore is zero and the count is exactly the tokens left. */
  lemma Conservation(initial: nat, evs: seq<Event>)
    ensures var s := Run(Start(initial), evs);
            && s.m.count >= -1
            && s.m.taken <= initial + s.m.signalled
            && (!WaiterActive(s.w) && s.g.SIdle? ==>
                  s.m.kernel == 0 && s.m.count == initial + s.m.signalled - s.m.taken)
  {
    RunKeepsInv(Start(initial), evs);
    InitialFixed(Start(initial), evs);
  }

  lemma {:induction false} InitialFixed(s: State, evs: seq<Event>)
    ensures Run(s, evs).m.initial == s.m.initial
  {
    if evs != [] {
      InitialFixed(s, evs[..|evs| - 1]);
    }
  }

  /** No wake-up is lost: a waiter blocked in the kernel while a token is left
      will be let through, by a post already made or by the signaller's next
      step. */
  lemma NoLostWakeup(initial: nat, evs: seq<Event>)
    ensures var s := Run(Start(initial), evs);
            s.w.WKernel? && s.m.taken < initial + s.m.signalled ==>
              s.m.kernel == 1 || (s.m.kernel == 0 && s.g.SKernel?)
  {
    RunKeepsInv(Start(initial), evs);
    InitialFixed(Start(initial), evs);
  }

  /** A step takes a token exactly when it makes the wait return true; so a wait
      that returns false has taken none. */
  lemma TokenPerSuccess(m: Sema, w: WaiterPc, expire: bool)
    requires WaiterActive(w)
    ensures var (n, v) := WaiterStep(m, w, expire);
            && n.taken == m.taken + (if v == WDone(true) then 1 else 0)
            && n.signalled == m.signalled && n.initial == m.initial
  {
  }

  // ------------------------------------------------------------------ whole calls

  /** Any event but the start of another call by the waiter. */
  predicate NoNewWait(ev: Event) { !ev.CallTryWait? && !ev.CallWait? }

  /** While a call is under way it has taken nothing, and when it has returned it
      has taken one token if it returned true and none if false. */
  lemma {:induction false} WaitUnderWay(s: State, evs: seq<Event>)
    requires WaiterActive(s.w) && forall ev :: ev in evs ==> NoNewWait(ev)
    ensures var r := Run(s, evs);
            r.m.taken == s.m.taken + (if r.w == WDone(true) then 1 else 0) && (WaiterActive(r.w) || r.w.WDone?)
  {
    if evs != [] {
      var q := Run(s, evs[..|evs| - 1]);
      WaitUnderWay(s, evs[..|evs| - 1]);
      assert NoNewWait(evs[|evs| - 1]);
      match evs[|evs| - 1]
      case StepWait(expire) =>
        if WaiterActive(q.w) {
          TokenPerSuccess(q.m, q.w, expire);
        }
      case _ =>
    }
  }

  /** Over a whole wait call, in any interleaving with the signaller: a call that
      returns false has taken no token, one that returns true exactly one. */
  lemma TokenPerCall(s: State, call: Event, evs: seq<Event>)
    requires !WaiterActive(s.w) && (call.CallTryWait? || call.CallWait?)
    requires forall ev :: ev in evs ==> NoNewWait(ev)
    requires Run(Next(s, call), evs).w.WDone?
    ensures Run(Next(s, call), evs).m.taken == s.m.taken + if Run(Next(s, call), evs).w.ok then 1 else 0
  {
    WaitUnderWay(Next(s, call), evs);
  }

  /** A wait that returns false has, just before, met a moment with no token left. */
  lemma FalseMetNoToken(m: Sema, w: WaiterPc, g: SignallerPc, expire: bool)
    requires Inv(m, w, g) && WaiterActive(w) && WaiterStep(m, w, expire).1 == WDone(false)
    ensures Tokens(m) == 0
  {
  }

  function Waits(evs: seq<Event>): nat {
    if evs == [] then 0 else Waits(evs[..|evs| - 1]) + if evs[|evs| - 1].StepWait? then 1 else 0
  }

  /** How many steps at most before the waiter has returned, or is at the kernel or past
      its timeout. */
  function SpinRank(w: WaiterPc): nat {
    match w
    case WTry(mayBlock, _) => if mayBlock then SPINS + 3 else 2
    case WSpin(spin, _) => spin + 2
    case WTryTake => 1
    case WSpinTake => 1
    case WClaim(_) => 1
    case _ => 0
  }

  lemma {:induction false} SpinRankFalls(s: State, evs: seq<Event>)
    requires WaiterActive(s.w) && forall ev :: ev in evs ==> NoNewWait(ev)
    ensures var r := SpinRank(Run(s, evs).w); r == 0 || r + Waits(evs) <= SpinRank(s.w)
  {
    if evs != [] {
      SpinRankFalls(s, evs[..|evs| - 1]);
      assert NoNewWait(evs[|evs| - 1]);
    }
  }

  /** Whatever the signaller does, a tryWait returns within two steps of its own, and a
      wait is done spinning within 1024 loads of the count and three steps more. */
  lemma SpinningEnds(s: State, call: Event, evs: seq<Event>)
    requires !WaiterActive(s.w) && (call == CallTryWait || call.CallWait?)
    requires forall ev :: ev in evs ==> NoNewWait(ev)
    requires Waits(evs) >= if call == CallTryWait then 2 else 1024 + 3
    ensures SpinRank(Run(Next(s, call), evs).w) == 0
    ensures call == CallTryWait ==> Run(Next(s, call), evs).w.WDone?
  {
    SpinRankFalls(Next(s, call), evs);
    if call == CallTryWait {
      TryStaysTry(s, evs);
    }
  }

  lemma {:induction false} TryStaysTry(s: State, evs: seq<Event>)
    requires !WaiterActive(s.w) && forall ev :: ev in evs ==> NoNewWait(ev)
    ensures var w := Run(Next(s, CallTryWait), evs).w; (w.WTry? && !w.mayBlock) || w.WTryTake? || w.WDone?
  {
    if evs != [] {
      TryStaysTry(s, evs[..|evs| - 1]);
      assert NoNewWait(evs[|evs| - 1]);
    }
  }

  /** A wait with timeout `t` that has not come to its undoing, and has not failed. */
  predicate Unexpired(w: WaiterPc, t: int) {
    match w
    case WTry(mayBlock, timeout) => mayBlock && timeout == t
    case WSpin(_, timeout) => timeout == t
    case WClaim(timeout) => timeout == t
    case WKernel(timeout) => timeout == t
    case WDone(ok) => ok
    case _ => w.WTryTake? || w.WSpinTake?
  }

  lemma UnexpiredAccess(m: Sema, w: WaiterPc, expire: bool, t: int)
    requires Unexpired(w, t) && t != 0 && (expire ==> t < 0)
    ensures Unexpired(WaiterStep(m, w, expire).1, t)
  {
  }

  lemma UnexpiredStep(q: State, ev: Event, r: State, t: int)
    requires Unexpired(q.w, t) && t != 0 && NoNewWait(ev) && (ev == StepWait(true) ==> t < 0) && r == Next(q, ev)
    ensures Unexpired(r.w, t)
  {
  }

  /** A wait fails only when its time is up: one that may wait for some time, or for
      ever, and whose time does not run out never returns false, whatever the signaller
      does. */
  lemma {:induction false} FailsOnlyExpired(s: State, t: int, evs: seq<Event>)
    requires !WaiterActive(s.w) && t != 0 && forall ev :: ev in evs ==> NoNewWait(ev)
    requires t < 0 || StepWait(true) !in evs
    ensures var w := Run(Next(s, CallWait(t)), evs).w; Unexpired(w, t) && w != WDone(false)
  {
    if evs != [] {
      var front, ev := evs[..|evs| - 1], evs[|evs| - 1];
      FailsOnlyExpired(s, t, front);
      assert ev in evs && NoNewWait(ev);
      UnexpiredStep(Run(Next(s, CallWait(t)), front), ev, Run(Next(s, CallWait(t)), evs), t);
    }
  }

  /** A call that has no time to wait, and is not at the kernel semaphore. */
  predicate Impatient(w: WaiterPc) {
    match w
    case WTry(_, timeout) => timeout == 0
    case WSpin(_, timeout) => timeout == 0
    case WClaim(timeout) => timeout == 0
    case _ => !w.WKernel?
  }

  lemma ImpatientAccess(m: Sema, w: WaiterPc, expire: bool)
    requires Impatient(w)
    ensures Impatient(WaiterStep(m, w, expire).1)
  {
  }

  /** And a tryWait, or a wait with timeout 0, never blocks in the kernel. */
  lemma {:induction false} ImpatientNeverBlocks(s: State, call: Event, evs: seq<Event>)
    requires !WaiterActive(s.w) && (call == CallTryWait || call == CallWait(0))
    requires forall ev :: ev in evs ==> NoNewWait(ev)
    ensures var w := Run(Next(s, call), evs).w; Impatient(w) && !w.WKernel?
  {
    if evs != [] {
      ImpatientNeverBlocks(s, call, evs[..|evs| - 1]);
      assert NoNewWait(evs[|evs| - 1]);
    }
  }

  // ------------------------------------------------------- the loop after a timeout

  /** A waiter that goes round the loop of undoing and redoing its claim. */
  predicate Undoing(m: Sema, w: WaiterPc) { w.WRetry? || w.WRedo? || (w.WUndo? && m.count >= 0) }

  function UndoRank(w: WaiterPc): nat {
    match w
    case WUndo => 3
    case WRedo => 2
    case WRetry => 1
    case _ => 0
  }

  /** In every interleaving the waiter goes round, or misses the post it is owed, only
      while the signaller is about to make it. */
  lemma RetryAwaitsPost(initial: nat, evs: seq<Event>)
    ensures var s := Run(Start(initial), evs);
            Undoing(s.m, s.w) ==> s.m.kernel == if s.g.SKernel? then 0 else 1
  {
    RunKeepsInv(Start(initial), evs);
  }

  /** The wait has succeeded, or goes round with its post made and is at most `rank`
      steps from the end, `waits` made. */
  predicate Ending(q: State, waits: nat, rank: nat) {
    q.w == WDone(true) || (Undoing(q.m, q.w) && q.m.kernel == 1 && waits + UndoRank(q.w) <= rank)
  }

  lemma EndingStep(q: State, ev: Event, r: State, waits: nat, rank: nat)
    requires Inv(q.m, q.w, q.g) && Ending(q, waits, rank) && NoNewWait(ev) && r == Next(q, ev)
    ensures Ending(r, waits + if ev.StepWait? then 1 else 0, rank)
  {
  }

  lemma {:induction false} RunEnding(s: State, evs: seq<Event>, rank: nat)
    requires Inv(s.m, s.w, s.g) && Ending(s, 0, rank) && forall ev :: ev in evs ==> NoNewWait(ev)
    ensures Ending(Run(s, evs), Waits(evs), rank)
  {
    if evs != [] {
      var front, ev := evs[..|evs| - 1], evs[|evs| - 1];
      RunEnding(s, front, rank);
      RunKeepsInv(s, front);
      assert NoNewWait(ev);
      EndingStep(Run(s, front), ev, Run(s, evs), Waits(front), rank);
    }
  }

  /** Once the post is made, the loop is over within three steps of the waiter, whatever
      the signaller does, and the wait succeeds. */
  lemma UndoEnds(initial: nat, before: seq<Event>, evs: seq<Event>)
    requires var s := Run(Start(initial), before); Undoing(s.m, s.w) && !s.g.SKernel?
    requires Waits(evs) >= 3 && forall ev :: ev in evs ==> NoNewWait(ev)
    ensures Run(Run(Start(initial), before), evs).w == WDone(true)
  {
    RetryAwaitsPost(initial, before);
    RunKeepsInv(Start(initial), before);
    RunEnding(Run(Start(initial), before), evs, 3);
  }
}
