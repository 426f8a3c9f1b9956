/** The RDMA ping protocol: one client and any number of servers over a fabric
    that may lose and reorder messages but neither copies nor alters them. A server
    takes a PING, posts a PONG, and when the PONG's send completes posts an ACK
    that carries the time from the PING's arrival to that completion. */
module Protocol {
  import opened TimeDelta
  import opened ExpiringTable
  import opened PingId
  import R = RdmaPingTable

  datatype Msg = Ping(id: nat, dst: nat) | Pong(id: nat) | Ack(id: nat, delay: nat)

  /** A PING as the receive thread hands it on, with the time it arrived. */
  datatype Taken = Taken(id: nat, time: nat)

  /** The thread that sends PONGs. */
  datatype Sender = Waiting | Storing(m: Taken) | Posting(m: Taken) | SenderDead

  /** The thread that handles send completions. */
  datatype Completer =
    | Polling
    | Looking(id: nat, completion: nat)
    | Acking(id: nat, delay: nat)
    | Dropping(id: nat)
    | CompleterDead

  /** `posted` holds the work request ids of sends not yet completed. */
  datatype Server = Server(queue: seq<Taken>, sender: Sender, table: Table<nat>, posted: multiset<nat>,
                           completer: Completer)

  /** What has happened to a ping; history only. `taken`: by the server, when its
      completion of the PING came at `arrival`. `pongs`: posted. `completed`: sends
      of its PONG, the last at `completion`. `acks`: the delays of the ACKs posted.
      `arrivals`: what the client has been told, in order. */
  datatype Ledger = Ledger(dst: nat, sent: nat, taken: nat, arrival: nat, pongs: nat, completed: nat, completion: nat,
                           acks: seq<nat>, arrivals: seq<R.Arrival>)

  /** `unsent` is the ping the client has recorded but not posted; `sending` holds
      the ids of its sends not yet completed. */
  datatype State = State(ip: nat, uid: nat, client: R.State, unsent: seq<nat>, sending: multiset<nat>,
                         fabric: multiset<Msg>, servers: seq<Server>, ledger: map<nat, Ledger>)

  datatype Event =
    | ClientRecord(dst: nat, dstip: nat, systemNow: nat, wait1: nat, wait2: nat)
    | ClientPost(ok: bool)
    | ClientCompletion(id: nat, time: nat, ok: bool)
    | ClientReceive(msg: Msg, recv: nat, cqe: nat)
    | Lose(msg: Msg)
    | ServerTake(j: nat, id: nat, time: nat, room: bool)
    | SenderDequeue(j: nat)
    | SenderStore(j: nat, threshold: int, now1: nat, now2: nat)
    | SenderPost(j: nat, ok: bool)
    | SendCompletion(j: nat, wrId: nat, time: nat, ok: bool)
    | CompleterLook(j: nat)
    | CompleterAck(j: nat, ok: bool)
    | CompleterDrop(j: nat)

  function Blank(dst: nat): Ledger { Ledger(dst, 0, 0, 0, 0, 0, 0, [], []) }

  function LedgerOf(s: State, k: nat): Ledger {
    if k in s.ledger then s.ledger[k] else Blank(0)
  }

  function NextId(s: State): nat { MakePingid(s.ip, s.uid) }

  // ------------------------------------------------------------------ the client

  function Told(s: State, id: nat, a: R.Arrival): State {
    s.(client := R.Next(s.client, R.Arrive(id, a)),
       ledger := s.ledger[id := LedgerOf(s, id).(arrivals := LedgerOf(s, id).arrivals + [a])])
  }

  /** The counter wraps after 2^32 pings, which ends the run. */
  function Record(s: State, dst: nat, dstip: nat, systemNow: nat, wait1: nat, wait2: nat): State {
    if s.unsent == [] && s.uid < MODULO && dst < |s.servers|
    then s.(client := R.Next(s.client, R.Insert(NextId(s), NextId(s), dstip, systemNow, wait1, wait2)),
            unsent := [NextId(s)], uid := s.uid + 1, ledger := s.ledger[NextId(s) := Blank(dst)])
    else s
  }

  function Post(s: State, ok: bool): State {
    if s.unsent == [] then s
    else if !ok then s.(unsent := [])
    else
      var id := s.unsent[0];
      s.(unsent := [], sending := s.sending + multiset{id},
         fabric := s.fabric + multiset{Ping(id, LedgerOf(s, id).dst)},
         ledger := s.ledger[id := LedgerOf(s, id).(sent := LedgerOf(s, id).sent + 1)])
  }

  /** An unsuccessful completion is skipped. */
  function Completed(s: State, id: nat, time: nat, ok: bool): State {
    if id !in s.sending then s
    else
      var m := s.(sending := s.sending - multiset{id});
      if ok then Told(m, id, R.Cqe(time)) else m
  }

  function Receive(s: State, msg: Msg, recv: nat, cqe: nat): State {
    if msg !in s.fabric then s
    else
      var m := s.(fabric := s.fabric - multiset{msg});
      match msg
      case Ping(_, _) => s
      case Pong(id) => Told(m, id, R.Pong(recv, cqe))
      case Ack(id, delay) => Told(m, id, R.Ack(delay))
  }

  // ------------------------------------------------------------------ a server

  function Take(sv: Server, id: nat, time: nat, room: bool): Server {
    if room then sv.(queue := sv.queue + [Taken(id, time)]) else sv
  }

  function Dequeue(sv: Server): Server {
    if sv.sender == Waiting && sv.queue != [] then sv.(queue := sv.queue[1..], sender := Storing(sv.queue[0])) else sv
  }

  /** Expires, then stores unless the id is there. */
  function Store(sv: Server, threshold: int, now1: nat, now2: nat): Server {
    if !sv.sender.Storing? then sv
    else
      var t, m := Expire(sv.table, now1, threshold), sv.sender.m;
      sv.(sender := Posting(m), table := if m.id in t.entries then t else Append(t, m.id, m.time, now2))
  }

  /** The PONG is posted whether or not its ping was stored. */
  function PostPong(sv: Server, ok: bool): Server {
    if !sv.sender.Posting? then sv
    else if ok then sv.(sender := Waiting, posted := sv.posted + multiset{sv.sender.m.id})
    else sv.(sender := SenderDead)
  }

  /** A completion with the ACKs' work request id is ignored. */
  function SendDone(sv: Server, wrId: nat, time: nat, ok: bool): Server {
    if wrId !in sv.posted || sv.completer != Polling then sv
    else sv.(posted := sv.posted - multiset{wrId},
             completer := if ok && wrId != WRID_PONG_ACK then Looking(wrId, time) else Polling)
  }

  function Look(sv: Server): Server {
    if !sv.completer.Looking? then sv
    else
      var id := sv.completer.id;
      sv.(completer := if id in sv.table.entries
                       then Acking(id, DeltaModulo(sv.table.entries[id].value, sv.completer.completion, MODULO))
                       else Dropping(id))
  }

  /** An ACK that cannot be posted stops the thread before the entry is removed. */
  function PostAck(sv: Server, ok: bool): Server {
    if !sv.completer.Acking? then sv
    else if ok then sv.(completer := Dropping(sv.completer.id), posted := sv.posted + multiset{WRID_PONG_ACK})
    else sv.(completer := CompleterDead)
  }

  function Drop(sv: Server): Server {
    if !sv.completer.Dropping? then sv
    else sv.(completer := Polling, table := Remove(sv.table, sv.completer.id))
  }

  // ------------------------------------------------------------------ the system

  function Next(s: State, ev: Event): State {
    match ev
    case ClientRecord(dst, dstip, systemNow, wait1, wait2) => Record(s, dst, dstip, systemNow, wait1, wait2)
    case ClientPost(ok) => Post(s, ok)
    case ClientCompletion(id, time, ok) => Completed(s, id, time, ok)
    case ClientReceive(msg, recv, cqe) => Receive(s, msg, recv, cqe)
    case Lose(msg) => s.(fabric := s.fabric - multiset{msg})
    case _ => if ev.j < |s.servers| then AtServer(s, ev.j, ev) else s
  }

  /** A step of server `j`, with what it does to the fabric and the ledger. */
  function AtServer(s: State, j: nat, ev: Event): State
    requires j < |s.servers|
  {
    var sv := s.servers[j];
    match ev
    case ServerTake(_, id, time, room) =>
      if Ping(id, j) in s.fabric
      then s.(fabric := s.fabric - multiset{Ping(id, j)}, servers := s.servers[j := Take(sv, id, time, room)],
              ledger := s.ledger[id := LedgerOf(s, id).(taken := LedgerOf(s, id).taken + 1, arrival := time)])
      else s
    case SenderDequeue(_) => s.(servers := s.servers[j := Dequeue(sv)])
    case SenderStore(_, threshold, now1, now2) => s.(servers := s.servers[j := Store(sv, threshold, now1, now2)])
    case SenderPost(_, ok) =>
      var r := s.(servers := s.servers[j := PostPong(sv, ok)]);
      if sv.sender.Posting? && ok
      then
        var id := sv.sender.m.id;
        r.(fabric := s.fabric + multiset{Pong(id)},
           ledger := s.ledger[id := LedgerOf(s, id).(pongs := LedgerOf(s, id).pongs + 1)])
      else r
    case SendCompletion(_, wrId, time, ok) =>
      var r := s.(servers := s.servers[j := SendDone(sv, wrId, time, ok)]);
      if wrId in sv.posted && sv.completer == Polling && ok && wrId != WRID_PONG_ACK
      then r.(ledger := s.ledger[wrId := LedgerOf(s, wrId).(completed := LedgerOf(s, wrId).completed + 1,
                                                            completion := time)])
      else r
    case CompleterLook(_) => s.(servers := s.servers[j := Look(sv)])
    case CompleterAck(_, ok) =>
      var r := s.(servers := s.servers[j := PostAck(sv, ok)]);
      if sv.completer.Acking? && ok
      then
        var id, delay := sv.completer.id, sv.completer.delay;
        r.(fabric := s.fabric + multiset{Ack(id, delay)},
           ledger := s.ledger[id := LedgerOf(s, id).(acks := LedgerOf(s, id).acks + [delay])])
      else r
    case CompleterDrop(_) => s.(servers := s.servers[j := Drop(sv)])
    case _ => s
  }

  function Run(s: State, evs: seq<Event>): State {
    if evs == [] then s else Next(Run(s, evs[..|evs| - 1]), evs[|evs| - 1])
  }

  function IdleServer(): Server {
    Server([], Waiting, Table(map[], []), multiset{}, Polling)
  }

  function Start(ip: nat, threshold: int, clock: nat, n: nat): State {
    State(ip, 0, R.Start(threshold, clock), [], multiset{}, multiset{}, seq(n, _ => IdleServer()), map[])
  }
}
