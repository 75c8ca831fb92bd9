/**
 * The HTTP/2 activator, as a function on values: many connections behind one routing table, one queue of
 * pending connects and one global stream counter. The class in Http2ActivatorImpl.dfy computes these functions.
 */
module Http2Activator {
  import opened Common
  import C = Http2Connection

  type Conn = C.Conn

  datatype BackendNeed = NeedNone | NeedTraffic | NeedActive

  /**
   * Events from the fabric. The two orders of `BackendAvailable` are the iteration orders of the hash
   * tables it walks (live connections, mapped upstreams), which the runtime chooses.
   */
  datatype Event =
    | StreamOpen(stream: nat)
    | StreamData(stream: nat, data: seq<Byte>)
    | StreamClose(stream: nat)
    | BackendAvailable(available: bool, connOrder: seq<nat>, upstreamOrder: seq<nat>)
    | UpstreamConnectResult(stream: nat, ok: bool)
    | UpstreamData(stream: nat, data: seq<Byte>)
    | UpstreamClosed(stream: nat)
    | Tick
    | Packet

  datatype Action =
    | SetBackendNeed(need: BackendNeed)
    | LogInfo(message: string)
    | DownstreamSend(stream: nat, data: seq<Byte>, origin: C.Origin)
    | DownstreamClose(stream: nat)
    | UpstreamConnect(port: nat)
    | UpstreamSend(stream: nat, data: seq<Byte>, origin: C.Origin)
    | UpstreamClose(stream: nat)

  datatype State = State(
    conns: map<nat, Conn>,
    up: map<nat, nat>,
    pending: seq<nat>,
    available: bool,
    total: nat)

  datatype Out = Out(state: State, actions: seq<Action>)

  const INITIAL := State(map[], map[], [], false, 0)

  const BACKEND_PORT := 80

  /** The upstream that serves connection `h`: any one of those mapped to it. */
  ghost function UpstreamOf(up: map<nat, nat>, h: nat): Option<nat>
  {
    if u :| u in up && up[u] == h then Some(u) else None
  }

  // ---------------------------------------------------------------------
  // Connection actions become fabric actions
  // ---------------------------------------------------------------------

  ghost function Translate(up: map<nat, nat>, h: nat, a: C.ConnAction): seq<Action>
  {
    match a
    case DownstreamSend(d, origin) => [DownstreamSend(h, d, origin)]
    case UpstreamSend(d, origin) =>
      var u := UpstreamOf(up, h);
      if u.Some? then [UpstreamSend(u.value, d, origin)] else []
    case DownstreamClose => [DownstreamClose(h)]
    case UpstreamClose =>
      var u := UpstreamOf(up, h);
      if u.Some? then [UpstreamClose(u.value)] else []
    case StreamOpened => []
    case StreamClosed => []
    case Log(m) => [LogInfo(m)]
  }

  ghost function TranslateAll(up: map<nat, nat>, h: nat, acts: seq<C.ConnAction>): seq<Action>
  {
    if acts == [] then [] else Translate(up, h, acts[0]) + TranslateAll(up, h, acts[1..])
  }

  /** The global counter, with the code's saturating subtraction. */
  function Count(n: nat, a: C.ConnAction): nat
  {
    match a
    case StreamOpened => n + 1
    case StreamClosed => if n == 0 then 0 else n - 1
    case _ => n
  }

  function SaturatingTally(n: nat, acts: seq<C.ConnAction>): nat
    decreases |acts|
  {
    if acts == [] then n else SaturatingTally(Count(n, acts[0]), acts[1..])
  }

  function NeedTransition(before: nat, after: nat): seq<Action>
  {
    if before == 0 && after > 0 then [SetBackendNeed(NeedActive)]
    else if before > 0 && after == 0 then [SetBackendNeed(NeedNone)]
    else []
  }

  /** Installs the result of a connection call and carries out its actions. */
  ghost function Commit(s: State, h: nat, o: C.ConnOutcome): Out
  {
    Out(s.(conns := s.conns[h := o.conn], total := SaturatingTally(s.total, o.actions)),
        TranslateAll(s.up, h, o.actions))
  }

  ghost function CommitWithNeed(s: State, h: nat, o: C.ConnOutcome): Out
  {
    var out := Commit(s, h, o);
    Out(out.state, out.actions + NeedTransition(s.total, out.state.total))
  }

  // ---------------------------------------------------------------------
  // Event handlers
  // ---------------------------------------------------------------------

  /** A connection with frames to deliver and no upstream yet. */
  predicate Waiting(c: Conn) { c.core.upstream.NoUpstream? && c.core.buffered != [] }

  function WaitingIn(conns: map<nat, Conn>, order: seq<nat>): seq<nat>
  {
    if order == [] then []
    else (if order[0] in conns && Waiting(conns[order[0]]) then [order[0]] else []) + WaitingIn(conns, order[1..])
  }

  function Connects(n: nat): seq<Action>
  {
    if n == 0 then [] else [UpstreamConnect(BACKEND_PORT)] + Connects(n - 1)
  }

  function StartConnects(s: State, handles: seq<nat>): Out
  {
    Out(s.(conns := map h | h in s.conns ::
                      if h in handles then C.SetUpstream(s.conns[h], C.Connecting) else s.conns[h],
           pending := s.pending + handles),
        Connects(|handles|))
  }

  ghost function OnStreamData(s: State, h: nat, data: seq<Byte>): Out
  {
    if h !in s.conns then Out(s, [])
    else
      var out := Commit(s, h, C.OnClientData(s.conns[h], data));
      var handles := if s.available && Waiting(out.state.conns[h]) then [h] else [];
      var started := StartConnects(out.state, handles);
      Out(started.state, out.actions + (started.actions + NeedTransition(s.total, out.state.total)))
  }

  ghost function OnStreamClose(s: State, h: nat): Out
  {
    if h !in s.conns then Out(s, [])
    else
      var u := UpstreamOf(s.up, h);
      var n := |s.conns[h].core.streams|;
      var total := if s.total < n then 0 else s.total - n;
      Out(s.(conns := s.conns - {h},
             up := if u.Some? then s.up - {u.value} else s.up,
             pending := Without(s.pending, h),
             total := total),
          (if u.Some? then [UpstreamClose(u.value)] else []) + NeedTransition(s.total, total))
  }

  /** The backend went away: every connection sees its upstream close. */
  ghost function CloseConns(s: State, order: seq<nat>): Out
    decreases |order|
  {
    if order == [] then Out(s, [])
    else if order[0] !in s.conns then CloseConns(s, order[1..])
    else
      var first := Commit(s, order[0], C.OnUpstreamClosed(s.conns[order[0]]));
      var others := CloseConns(first.state, order[1..]);
      Out(others.state, first.actions + others.actions)
  }

  function CloseUpstreams(us: seq<nat>): seq<Action>
  {
    if us == [] then [] else [UpstreamClose(us[0])] + CloseUpstreams(us[1..])
  }

  ghost function OnBackendAvailable(s: State, available: bool, connOrder: seq<nat>, upstreamOrder: seq<nat>): Out
  {
    var s := s.(available := available);
    if available then StartConnects(s, WaitingIn(s.conns, connOrder))
    else
      var closed := CloseConns(s, connOrder);
      Out(closed.state.(up := closed.state.up - set u | u in upstreamOrder),
          closed.actions + CloseUpstreams(upstreamOrder) + NeedTransition(s.total, closed.state.total))
  }

  ghost function OnConnectResult(s: State, u: nat, ok: bool): Out
  {
    if s.pending == [] then Out(s, [UpstreamClose(u)])
    else
      var h := s.pending[0];
      var popped := s.(pending := s.pending[1..]);
      if ok then
        var mapped := popped.(up := popped.up[u := h]);
        if h in s.conns then Commit(mapped, h, C.OnUpstreamConnected(s.conns[h])) else Out(mapped, [])
      else if h in s.conns then CommitWithNeed(popped, h, C.OnUpstreamFailed(s.conns[h]))
      else Out(popped, [])
  }

  ghost function OnUpstreamData(s: State, u: nat, data: seq<Byte>): Out
  {
    if u !in s.up || s.up[u] !in s.conns then Out(s, [])
    else CommitWithNeed(s, s.up[u], C.OnUpstreamData(s.conns[s.up[u]], data))
  }

  ghost function OnUpstreamClosed(s: State, u: nat): Out
  {
    if u !in s.up then Out(s, [])
    else
      var h := s.up[u];
      var unmapped := s.(up := s.up - {u});
      if h in s.conns then CommitWithNeed(unmapped, h, C.OnUpstreamClosed(s.conns[h])) else Out(unmapped, [])
  }

  ghost function Step(s: State, e: Event): Out
  {
    match e
    case StreamOpen(h) => Out(s.(conns := s.conns[h := C.NEW_CONN]), [])
    case StreamData(h, d) => OnStreamData(s, h, d)
    case StreamClose(h) => OnStreamClose(s, h)
    case BackendAvailable(a, cs, us) => OnBackendAvailable(s, a, cs, us)
    case UpstreamConnectResult(u, ok) => OnConnectResult(s, u, ok)
    case UpstreamData(u, d) => OnUpstreamData(s, u, d)
    case UpstreamClosed(u) => OnUpstreamClosed(s, u)
    case Tick => Out(s, [])
    case Packet => Out(s, [])
  }

  ghost function Run(es: seq<Event>): Out
  {
    if es == [] then Out(INITIAL, [])
    else
      var before := Run(es[..|es| - 1]);
      var last := Step(before.state, es[|es| - 1]);
      Out(last.state, before.actions + last.actions)
  }

  lemma RunSnoc(es: seq<Event>, e: Event)
    ensures Run(es + [e]).state == Step(Run(es).state, e).state
    ensures Run(es + [e]).actions == Run(es).actions + Step(Run(es).state, e).actions
  {
    assert (es + [e])[..|es|] == es;
  }

  // ---------------------------------------------------------------------
  // What the environment promises
  // ---------------------------------------------------------------------

  /** A new stream handle is not live, a new upstream handle is not mapped, and orders list the tables walked. */
  ghost predicate Fresh(s: State, e: Event)
  {
    match e
    case StreamOpen(h) => h !in s.conns
    case UpstreamConnectResult(u, ok) => ok ==> u !in s.up
    case BackendAvailable(_, cs, us) => Enumerates(cs, s.conns.Keys) && Enumerates(us, s.up.Keys)
    case _ => true
  }

  ghost predicate FreshRun(es: seq<Event>)
  {
    es != [] ==> FreshRun(es[..|es| - 1]) && Fresh(Run(es[..|es| - 1]).state, es[|es| - 1])
  }
}
