/**
 * The L4 stream manager, as a function on values. The TCP stack is an oracle: each scan is given what it
 * observes of every socket, which fresh handles new sockets get, and the order in which the stream table
 * is walked.
 */
module StreamManager {
  import opened Common
  import opened A = Http2Activator

  newtype U16 = x: int | 0 <= x < 0x1_0000

  const PORT_RANGE_START: U16 := 49152
  const PORT_RANGE_SIZE: U16 := 16384

  type Port = p: U16 | 49152 <= p witness 49152

  datatype Direction = Downstream | Upstream

  datatype TcpState =
    | Closed | Listen | SynSent | SynReceived | Established
    | FinWait1 | FinWait2 | CloseWait | Closing | LastAck | TimeWait

  datatype Stream = Stream(
    handle: nat,
    direction: Direction,
    openedNotified: bool,
    closedNotified: bool,
    paused: bool,
    localPort: Option<Port>)

  /** What one scan sees of a socket: `received` is what a receive returns, `moreToRecv` what is readable after it. */
  datatype Socket = Socket(
    state: TcpState,
    canRecv: bool,
    received: seq<Byte>,
    moreToRecv: bool,
    localPort: Option<nat>)

  /** `written` records, by stream id, the bytes that the stream's socket has taken to send. */
  datatype Manager = Manager(
    streams: map<nat, Stream>,
    handleToStream: map<nat, nat>,
    listeners: seq<nat>,
    nextStreamId: nat,
    sockets: set<nat>,
    ports: set<Port>,
    nextPort: Port,
    backend: bool,
    written: map<nat, seq<Byte>>)

  datatype Scanned = Scanned(manager: Manager, events: seq<Event>)

  /** The oracle for one scan. */
  datatype Oracle = Oracle(socket: nat -> Socket, relisten: nat -> Option<nat>, order: seq<nat>)

  // ---------------------------------------------------------------------
  // Accepting connections
  // ---------------------------------------------------------------------

  function EstablishedIn(listeners: seq<nat>, socket: nat -> Socket, yes: bool): seq<nat>
  {
    if listeners == [] then []
    else (if socket(listeners[0]).state.Established? == yes then [listeners[0]] else [])
         + EstablishedIn(listeners[1..], socket, yes)
  }

  /** Enters a stream in both tables under the next stream id. */
  function AddStream(m: Manager, st: Stream): Manager
  {
    m.(nextStreamId := m.nextStreamId + 1,
       streams := m.streams[m.nextStreamId := st],
       handleToStream := m.handleToStream[st.handle := m.nextStreamId])
  }

  function AddListener(m: Manager, handle: Option<nat>): Manager
  {
    if handle == None then m
    else m.(listeners := m.listeners + [handle.value], sockets := m.sockets + {handle.value})
  }

  /** A listener has become a connection: give it a stream id and replace the listener. */
  function Accept(m: Manager, handle: nat, o: Oracle): Scanned
  {
    if o.socket(handle).localPort == None then Scanned(m, [])
    else
      Scanned(AddListener(AddStream(m, Stream(handle, Downstream, true, false, false, None)), o.relisten(handle)),
              [StreamOpen(m.nextStreamId)])
  }

  function AcceptAll(m: Manager, handles: seq<nat>, o: Oracle): Scanned
    decreases |handles|
  {
    if handles == [] then Scanned(m, [])
    else
      var first := Accept(m, handles[0], o);
      var others := AcceptAll(first.manager, handles[1..], o);
      Scanned(others.manager, first.events + others.events)
  }

  // ---------------------------------------------------------------------
  // Scanning one stream
  // ---------------------------------------------------------------------

  datatype Observed = Observed(stream: Stream, events: seq<Event>, closes: bool)

  predicate Reads(st: Stream, s: Socket) { !st.paused && s.canRecv }

  function DataEvents(id: nat, st: Stream, s: Socket): seq<Event>
  {
    if !Reads(st, s) || s.received == [] then []
    else if st.direction.Downstream? then [StreamData(id, s.received)]
    else [UpstreamData(id, s.received)]
  }

  predicate IsClosed(st: Stream, s: Socket)
  {
    match s.state
    case Closed => true
    case TimeWait => true
    case Closing => true
    case LastAck => true
    case CloseWait => !(if Reads(st, s) then s.moreToRecv else s.canRecv)
    case _ => false
  }

  /** The connect result, for an upstream stream that has not reported one. */
  function ObserveConnect(id: nat, st: Stream, s: Socket): Observed
  {
    if st.direction.Downstream? || st.openedNotified then Observed(st, [], false)
    else
      match s.state
      case Established => Observed(st.(openedNotified := true), [UpstreamConnectResult(id, true)], false)
      case Closed =>
        Observed(st.(openedNotified := true, closedNotified := true), [UpstreamConnectResult(id, false)], true)
      case TimeWait =>
        Observed(st.(openedNotified := true, closedNotified := true), [UpstreamConnectResult(id, false)], true)
      case _ => Observed(st, [], false)
  }

  function ObserveClose(id: nat, st: Stream, s: Socket): Observed
  {
    if st.closedNotified || !IsClosed(st, s) then Observed(st, [], false)
    else
      Observed(st.(closedNotified := true),
               [if st.direction.Downstream? then StreamClose(id) else UpstreamClosed(id)],
               true)
  }

  function Observe(id: nat, st: Stream, s: Socket): Observed
  {
    var connect := ObserveConnect(id, st, s);
    var close := ObserveClose(id, connect.stream, s);
    Observed(close.stream, DataEvents(id, st, s) + connect.events + close.events, connect.closes || close.closes)
  }

  // ---------------------------------------------------------------------
  // The whole scan
  // ---------------------------------------------------------------------

  datatype Walked = Walked(streams: map<nat, Stream>, events: seq<Event>, closed: seq<nat>)

  function Walk(streams: map<nat, Stream>, o: Oracle, order: seq<nat>): Walked
    decreases |order|
  {
    if order == [] then Walked(streams, [], [])
    else if order[0] !in streams then Walk(streams, o, order[1..])
    else
      var id := order[0];
      var seen := Observe(id, streams[id], o.socket(streams[id].handle));
      var others := Walk(streams[id := seen.stream], o, order[1..]);
      Walked(others.streams, seen.events + others.events, (if seen.closes then [id] else []) + others.closed)
  }

  /** Forgets a closed stream: both tables, its socket and its port. */
  function Drop(m: Manager, id: nat): Manager
  {
    if id !in m.streams then m
    else
      var st := m.streams[id];
      m.(streams := m.streams - {id},
         handleToStream := m.handleToStream - {st.handle},
         sockets := m.sockets - {st.handle},
         ports := if st.localPort == None then m.ports else m.ports - {st.localPort.value})
  }

  function DropAll(m: Manager, ids: seq<nat>): Manager
    decreases |ids|
  {
    if ids == [] then m else DropAll(Drop(m, ids[0]), ids[1..])
  }

  function AcceptPhase(m: Manager, o: Oracle): Scanned
  {
    AcceptAll(m.(listeners := EstablishedIn(m.listeners, o.socket, false)),
              EstablishedIn(m.listeners, o.socket, true), o)
  }

  function Scan(m: Manager, o: Oracle): Scanned
  {
    var accepted := AcceptPhase(m, o);
    var walked := Walk(accepted.manager.streams, o, o.order);
    Scanned(DropAll(accepted.manager.(streams := walked.streams), walked.closed), accepted.events + walked.events)
  }

  // ---------------------------------------------------------------------
  // Actions
  // ---------------------------------------------------------------------

  function NextPort(p: Port): Port
  {
    PORT_RANGE_START + (p - PORT_RANGE_START + 1) % PORT_RANGE_SIZE
  }

  datatype PortChoice = PortChoice(port: Port, taken: bool, next: Port)

  /** The first unused port in at most `n` tries from `next`; when there is none, the port where the search ended. */
  function ChoosePort(ports: set<Port>, next: Port, n: nat): PortChoice
    decreases n, ports
  {
    if n == 0 then PortChoice(next, false, next)
    else if next !in ports then PortChoice(next, true, NextPort(next))
    else ChoosePort(ports, NextPort(next), n - 1)
  }

  /** How a socket answers a send: it cannot send now, it takes some of the bytes, or the call fails. */
  datatype SendReply = CannotSend | Takes(count: nat) | SendFails

  datatype ManagerAction =
    | Connect(handle: nat)
    | SendDown(id: nat, data: seq<Byte>, reply: SendReply)
    | SendUp(id: nat, data: seq<Byte>, reply: SendReply)
    | CloseDown(id: nat)
    | CloseUp(id: nat)
    | Pause(id: nat)
    | Resume(id: nat)
    | PauseIfUpstream(id: nat)
    | ResumeIfUpstream(id: nat)
    | SetBackend(present: bool)
    | Other

  function OpenUpstream(m: Manager, handle: nat): Manager
  {
    var choice := ChoosePort(m.ports, m.nextPort, PORT_RANGE_SIZE as nat);
    AddStream(m.(sockets := m.sockets + {handle},
                 ports := if choice.taken then m.ports + {choice.port} else m.ports,
                 nextPort := choice.next),
              Stream(handle, Upstream, false, false, false, Some(choice.port)))
  }

  function Written(m: Manager, id: nat): seq<Byte> { if id in m.written then m.written[id] else [] }

  /** The part of the data that the socket takes; the rest is dropped. */
  function Accepted(data: seq<Byte>, reply: SendReply): seq<Byte>
  {
    if !reply.Takes? then [] else if reply.count < |data| then data[..reply.count] else data
  }

  function Write(m: Manager, id: nat, bytes: seq<Byte>): Manager
  {
    m.(written := m.written[id := Written(m, id) + bytes])
  }

  /** What an action does to the tables and to what was written; closes only touch the TCP stack. */
  function Execute(m: Manager, a: ManagerAction): Manager
  {
    match a
    case Connect(handle) => if m.backend then OpenUpstream(m, handle) else m
    case SendDown(id, d, reply) => if id in m.streams then Write(m, id, Accepted(d, reply)) else m
    case SendUp(id, d, reply) =>
      if id in m.streams && m.streams[id].direction.Upstream? then Write(m, id, Accepted(d, reply)) else m
    case CloseDown(_) => m
    case CloseUp(_) => m
    case Pause(id) => SetPaused(m, id, true, false)
    case Resume(id) => SetPaused(m, id, false, false)
    case PauseIfUpstream(id) => SetPaused(m, id, true, true)
    case ResumeIfUpstream(id) => SetPaused(m, id, false, true)
    case SetBackend(present) => m.(backend := present)
    case Other => m
  }

  function SetPaused(m: Manager, id: nat, paused: bool, upstreamOnly: bool): Manager
  {
    if id !in m.streams || (upstreamOnly && m.streams[id].direction.Downstream?) then m
    else m.(streams := m.streams[id := m.streams[id].(paused := paused)])
  }

  // ---------------------------------------------------------------------
  // Runs
  // ---------------------------------------------------------------------

  /** A step: an action followed by a scan. Packets and timeouts scan after `Other`. */
  datatype Input = Input(action: ManagerAction, oracle: Oracle)

  function Step(m: Manager, i: Input): Scanned
  {
    Scan(Execute(m, i.action), i.oracle)
  }

  /** The socket set never hands out a handle that is in use, and the walk visits every stream once. */
  ghost predicate Plausible(m: Manager, i: Input)
  {
    && (i.action.Connect? ==> i.action.handle !in m.sockets)
    && FreshHandles(Execute(m, i.action), i.oracle)
    && Enumerates(i.oracle.order, AcceptPhase(Execute(m, i.action), i.oracle).manager.streams.Keys)
  }

  /** A manager that has just been built, with its pool of listening sockets. */
  ghost predicate Initial(m: Manager)
  {
    && m.streams == map[] && m.handleToStream == map[] && m.ports == {}
    && m.nextStreamId == 1 && m.nextPort == PORT_RANGE_START && !m.backend && m.written == map[]
    && NoDuplicates(m.listeners) && m.sockets == set h | h in m.listeners
  }

  /** All events of a run, from the manager it started with. */
  function Run(m: Manager, inputs: seq<Input>): Scanned
  {
    if inputs == [] then Scanned(m, [])
    else
      var before := Run(m, inputs[..|inputs| - 1]);
      var last := Step(before.manager, inputs[|inputs| - 1]);
      Scanned(last.manager, before.events + last.events)
  }

  ghost predicate PlausibleRun(m: Manager, inputs: seq<Input>)
  {
    inputs != [] ==>
      && PlausibleRun(m, inputs[..|inputs| - 1])
      && Plausible(Run(m, inputs[..|inputs| - 1]).manager, inputs[|inputs| - 1])
  }

  lemma RunNext(m: Manager, inputs: seq<Input>, i: Input)
    ensures var before := Run(m, inputs);
            var last := Step(before.manager, i);
            Run(m, inputs + [i]) == Scanned(last.manager, before.events + last.events)
    ensures PlausibleRun(m, inputs + [i]) <==> PlausibleRun(m, inputs) && Plausible(Run(m, inputs).manager, i)
  {
    assert (inputs + [i])[..|inputs|] == inputs;
  }

  ghost predicate FreshHandles(m: Manager, o: Oracle)
  {
    && (forall h :: h in m.listeners && o.relisten(h).Some? ==> o.relisten(h).value !in m.sockets)
    && (forall g, h :: g in m.listeners && h in m.listeners && g != h && o.relisten(g).Some? ==>
                         o.relisten(g) != o.relisten(h))
  }
}
