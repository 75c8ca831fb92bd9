/** Runs of the stream manager that reach its two surprising states. */
module FindingsStreamManager {
  import opened Common
  import A = Http2Activator
  import opened StreamManager
  import opened StreamManagerLaws
  import opened StreamManagerPorts

  /** Every socket shows the same state, with nothing to read; no listener is replaced. */
  function Uniform(state: TcpState, order: seq<nat>): Oracle
  {
    Oracle(_ => Socket(state, false, [], false, None), _ => None, order)
  }

  /** A manager without listeners, as built. */
  const NEW_MANAGER := Manager(map[], map[], [], 1, {}, {}, PORT_RANGE_START, false, map[])

  // ---------------------------------------------------------------------
  // Scans that see nothing
  // ---------------------------------------------------------------------

  /** No listener has become a connection, and every stream is as it was. */
  ghost predicate Still(m: Manager, o: Oracle)
  {
    && (forall i :: 0 <= i < |m.listeners| ==> !o.socket(m.listeners[i]).state.Established?)
    && AllAsBefore(m.streams, o)
  }

  ghost predicate AllAsBefore(streams: map<nat, Stream>, o: Oracle)
  {
    forall id :: id in streams ==>
      Observe(id, streams[id], o.socket(streams[id].handle)) == Observed(streams[id], [], false)
  }

  lemma {:induction false} NoneEstablished(listeners: seq<nat>, socket: nat -> Socket)
    requires forall i :: 0 <= i < |listeners| ==> !socket(listeners[i]).state.Established?
    ensures EstablishedIn(listeners, socket, true) == [] && EstablishedIn(listeners, socket, false) == listeners
  {
    if listeners != [] {
      NoneEstablished(listeners[1..], socket);
    }
  }

  lemma {:induction false} WalkStill(streams: map<nat, Stream>, o: Oracle, order: seq<nat>)
    requires AllAsBefore(streams, o)
    ensures Walk(streams, o, order) == Walked(streams, [], [])
    decreases |order|
  {
    if order != [] {
      var id := order[0];
      if id in streams {
        assert streams[id := streams[id]] == streams;
      }
      WalkStill(streams, o, order[1..]);
    }
  }

  lemma ScanStill(m: Manager, o: Oracle)
    requires Still(m, o)
    ensures AcceptPhase(m, o) == Scanned(m, []) && Scan(m, o) == Scanned(m, [])
  {
    NoneEstablished(m.listeners, o.socket);
    WalkStill(m.streams, o, o.order);
  }

  /** An action after which nothing is to be seen. */
  lemma StepStill(m: Manager, i: Input)
    requires var m' := Execute(m, i.action); Still(m', i.oracle) && Enumerates(i.oracle.order, m'.streams.Keys)
    requires i.action.Connect? ==> i.action.handle !in m.sockets
    requires forall h :: i.oracle.relisten(h) == None
    ensures Plausible(m, i) && Step(m, i) == Scanned(Execute(m, i.action), [])
  {
    ScanStill(Execute(m, i.action), i.oracle);
  }

  /** An upstream stream that has not been answered. */
  predicate Unanswered(st: Stream) { st.direction.Upstream? && !st.openedNotified && !st.closedNotified }

  predicate Handshaking(state: TcpState) { state.SynSent? || state.SynReceived? }

  /** While its handshake is under way, there is nothing to see of it. */
  lemma HandshakeIsStill(id: nat, st: Stream, s: Socket)
    requires st.direction.Upstream? && Handshaking(s.state) && !s.canRecv
    ensures Observe(id, st, s) == Observed(st, [], false)
  {
  }

  /** When it is next seen half closed, its end is all there is to see. */
  lemma EndIsSeen(id: nat, st: Stream, s: Socket)
    requires Unanswered(st) && s.state.CloseWait? && !s.canRecv
    ensures Observe(id, st, s) == Observed(st.(closedNotified := true), [A.UpstreamClosed(id)], true)
  {
  }

  // ---------------------------------------------------------------------
  // An upstream that ends without a connect result
  // ---------------------------------------------------------------------

  const CONFIGURED := Input(SetBackend(true), Uniform(SynSent, []))
  const DIALLED := Input(Connect(7), Uniform(SynSent, [1]))
  const ANSWERED := Input(Other, Uniform(SynReceived, [1]))
  const HALF_CLOSED := Input(Other, Uniform(CloseWait, [1]))

  /** The backend is set, and nothing happens. */
  lemma Configured(m: Manager)
    requires Initial(m) && m.listeners == []
    ensures PlausibleRun(m, [CONFIGURED]) && Run(m, [CONFIGURED]) == Scanned(m.(backend := true), [])
  {
    StepStill(m, CONFIGURED);
    RunNext(m, [], CONFIGURED);
    assert [] + [CONFIGURED] == [CONFIGURED];
  }

  /** One unanswered upstream stream, and no listener. */
  ghost predicate OneUnanswered(m: Manager)
  {
    m.listeners == [] && m.streams.Keys == {1} && Unanswered(m.streams[1])
  }

  lemma Dialled(m: Manager)
    requires m.backend && m.listeners == [] && m.streams == map[] && m.nextStreamId == 1 && m.sockets == {}
    ensures Plausible(m, DIALLED) && Step(m, DIALLED).events == [] && OneUnanswered(Step(m, DIALLED).manager)
  {
    var m' := Execute(m, DIALLED.action);
    assert m' == OpenUpstream(m, 7);
    HandshakeIsStill(1, m'.streams[1], DIALLED.oracle.socket(m'.streams[1].handle));
    StepStill(m, DIALLED);
  }

  lemma Answered(m: Manager)
    requires OneUnanswered(m)
    ensures Plausible(m, ANSWERED) && Step(m, ANSWERED) == Scanned(m, [])
  {
    var o := ANSWERED.oracle;
    HandshakeIsStill(1, m.streams[1], o.socket(m.streams[1].handle));
    assert AllAsBefore(m.streams, o) && Still(m, o);
    StepStill(m, ANSWERED);
  }

  lemma HalfClosed(m: Manager)
    requires OneUnanswered(m)
    ensures Plausible(m, HALF_CLOSED) && Step(m, HALF_CLOSED).events == [A.UpstreamClosed(1)]
  {
    var o := HALF_CLOSED.oracle;
    var seen := Observe(1, m.streams[1], o.socket(m.streams[1].handle));
    EndIsSeen(1, m.streams[1], o.socket(m.streams[1].handle));
    NoneEstablished([], o.socket);
    assert [1][1..] == [];
    assert Walk(m.streams[1 := seen.stream], o, []).events == [];
    assert Walk(m.streams, o, [1]).events == seen.events + [];
  }

  /**
   * A backend is set and dialled; the handshake crosses with the backend's own, and the segment that completes it
   * ends the backend's side as well. The only event is the end.
   */
  lemma EndsUnreported()
    ensures Initial(NEW_MANAGER) && PlausibleRun(NEW_MANAGER, [CONFIGURED] + [DIALLED] + [ANSWERED] + [HALF_CLOSED])
    ensures Run(NEW_MANAGER, [CONFIGURED] + [DIALLED] + [ANSWERED] + [HALF_CLOSED]).events == [A.UpstreamClosed(1)]
  {
    EndsUnreportedFrom(NEW_MANAGER);
  }

  lemma EndsUnreportedFrom(m: Manager)
    requires Initial(m) && m.listeners == []
    ensures PlausibleRun(m, [CONFIGURED] + [DIALLED] + [ANSWERED] + [HALF_CLOSED])
    ensures Run(m, [CONFIGURED] + [DIALLED] + [ANSWERED] + [HALF_CLOSED]).events == [A.UpstreamClosed(1)]
  {
    Configured(m);
    Dialled(m.(backend := true));
    RunNext(m, [CONFIGURED], DIALLED);
    EndsNext(m, [CONFIGURED] + [DIALLED]);
  }

  lemma EndsNext(m: Manager, inputs: seq<Input>)
    requires PlausibleRun(m, inputs) && Run(m, inputs).events == [] && OneUnanswered(Run(m, inputs).manager)
    ensures PlausibleRun(m, inputs + [ANSWERED] + [HALF_CLOSED])
    ensures Run(m, inputs + [ANSWERED] + [HALF_CLOSED]).events == [A.UpstreamClosed(1)]
  {
    Answered(Run(m, inputs).manager);
    RunNext(m, inputs, ANSWERED);
    HalfClosed(Run(m, inputs).manager);
    RunNext(m, inputs + [ANSWERED], HALF_CLOSED);
  }

  // ---------------------------------------------------------------------
  // As many upstreams as there are ports
  // ---------------------------------------------------------------------

  /** The stream ids 1 to n. */
  function Ids(n: nat): seq<nat> { seq(n, i => i + 1) }

  /** Upstreams 1 to n are waiting, with the sockets 1 to n, and no one is listening. */
  ghost predicate Waiting(m: Manager, n: nat)
  {
    && m.backend && m.listeners == [] && m.nextStreamId == n + 1
    && (forall id :: id in m.streams <==> 1 <= id <= n)
    && (forall h :: h in m.sockets ==> 1 <= h <= n)
    && (forall id :: id in m.streams ==> Unanswered(m.streams[id]) && m.streams[id].localPort.Some?)
  }

  lemma ScanWaiting(m: Manager, n: nat)
    requires Waiting(m, n)
    ensures Scan(m, Uniform(SynSent, Ids(n))) == Scanned(m, [])
    ensures Enumerates(Ids(n), AcceptPhase(m, Uniform(SynSent, Ids(n))).manager.streams.Keys)
  {
    AllWaiting(m, Ids(n));
    ScanStill(m, Uniform(SynSent, Ids(n)));
    IdsEnumerate(m, n);
  }

  lemma AllWaiting(m: Manager, order: seq<nat>)
    requires m.listeners == [] && forall id :: id in m.streams ==> Unanswered(m.streams[id])
    ensures Still(m, Uniform(SynSent, order))
  {
    var o := Uniform(SynSent, order);
    forall id | id in m.streams
      ensures Observe(id, m.streams[id], o.socket(m.streams[id].handle)) == Observed(m.streams[id], [], false)
    {
      HandshakeIsStill(id, m.streams[id], o.socket(m.streams[id].handle));
    }
  }

  lemma IdsEnumerate(m: Manager, n: nat)
    requires Waiting(m, n)
    ensures Enumerates(Ids(n), m.streams.Keys)
  {
    forall id ensures id in Ids(n) <==> id in m.streams {
      if id in m.streams {
        assert Ids(n)[id - 1] == id;
      }
    }
  }

  lemma DialOnce(m: Manager, n: nat)
    requires Waiting(m, n)
    ensures Waiting(OpenUpstream(m, n + 1), n + 1)
  {
  }

  function Dial(n: nat): Input { Input(Connect(n), Uniform(SynSent, Ids(n))) }

  /** One more connect: the scan after it sees nothing. */
  lemma DialStep(m: Manager, n: nat)
    requires n > 0 && Waiting(m, n - 1)
    ensures Plausible(m, Dial(n)) && Step(m, Dial(n)) == Scanned(OpenUpstream(m, n), [])
    ensures Waiting(OpenUpstream(m, n), n)
  {
    var m' := OpenUpstream(m, n);
    DialOnce(m, n - 1);
    ScanWaiting(m', n);
    assert Execute(m, Connect(n)) == m';
    assert n !in m.sockets && m'.listeners == [];
  }

  lemma {:induction false} LiveCount(m: Manager, n: nat, k: nat)
    requires Waiting(m, n) && k <= n
    ensures |set id: nat | id in m.streams && id <= k| == k
  {
    var live := set id: nat | id in m.streams && id <= k;
    if k == 0 {
      assert live == {};
    } else {
      LiveCount(m, n, k - 1);
      assert live == (set id: nat | id in m.streams && id <= k - 1) + {k};
    }
  }

  lemma WaitingLive(m: Manager, n: nat)
    requires Waiting(m, n)
    ensures |LiveUpstreams(m.streams)| == n
  {
    LiveCount(m, n, n);
    assert LiveUpstreams(m.streams) == set id: nat | id in m.streams && id <= n;
  }

  /** A plausible run without events that has led to upstreams 1 to n waiting, each with a port of its own. */
  ghost predicate Leads(m: Manager, inputs: seq<Input>, r: Manager, n: nat)
  {
    && PlausibleRun(m, inputs) && Run(m, inputs) == Scanned(r, [])
    && Waiting(r, n) && PortsExact(r.streams, r.ports)
  }

  lemma JustConfigured(m: Manager)
    requires Initial(m) && m.listeners == []
    ensures Leads(m, [CONFIGURED], m.(backend := true), 0)
  {
    Configured(m);
  }

  lemma DialMore(m: Manager, inputs: seq<Input>, r: Manager, n: nat)
    requires Leads(m, inputs, r, n)
    ensures PlausibleRun(m, inputs + [Dial(n + 1)])
    ensures Run(m, inputs + [Dial(n + 1)]) == Scanned(OpenUpstream(r, n + 1), [])
            && Waiting(OpenUpstream(r, n + 1), n + 1)
  {
    DialStep(r, n + 1);
    RunNext(m, inputs, Dial(n + 1));
  }

  lemma DialWithin(m: Manager, inputs: seq<Input>, r: Manager, n: nat)
    requires Leads(m, inputs, r, n) && n < 16384
    ensures Leads(m, inputs + [Dial(n + 1)], OpenUpstream(r, n + 1), n + 1)
  {
    DialMore(m, inputs, r, n);
    WaitingLive(r, n);
    OpenUpstreamPorts(r, n + 1);
  }

  /** The run: the backend is set, and then asked for n connections that it never answers. */
  lemma {:induction false} Dialling(m: Manager, n: nat) returns (inputs: seq<Input>, r: Manager)
    requires Initial(m) && m.listeners == [] && n <= 16384
    ensures Leads(m, inputs, r, n)
  {
    inputs, r := [CONFIGURED], m.(backend := true);
    JustConfigured(m);
    for k := 0 to n
      invariant Leads(m, inputs, r, k)
    {
      DialWithin(m, inputs, r, k);
      inputs, r := inputs + [Dial(k + 1)], OpenUpstream(r, k + 1);
    }
  }

  /** A run that opens as many upstreams as there are ports leaves the ports exact; with one more, two share one. */
  lemma PortsRunOut() returns (inputs: seq<Input>, last: Input)
    ensures Initial(NEW_MANAGER)
    ensures PlausibleRun(NEW_MANAGER, inputs) && PlausibleRun(NEW_MANAGER, inputs + [last])
    ensures var r := Run(NEW_MANAGER, inputs).manager;
            PortsExact(r.streams, r.ports) && |LiveUpstreams(r.streams)| == 16384
    ensures var r := Run(NEW_MANAGER, inputs + [last]).manager; !PortsExact(r.streams, r.ports)
  {
    inputs, last := PortsRunOutFrom(NEW_MANAGER);
  }

  lemma PortsRunOutFrom(m: Manager) returns (inputs: seq<Input>, last: Input)
    requires Initial(m) && m.listeners == []
    ensures PlausibleRun(m, inputs) && PlausibleRun(m, inputs + [last])
    ensures var r := Run(m, inputs).manager; PortsExact(r.streams, r.ports) && |LiveUpstreams(r.streams)| == 16384
    ensures var r := Run(m, inputs + [last]).manager; !PortsExact(r.streams, r.ports)
  {
    var n := 16384;
    var r;
    inputs, r := Dialling(m, n);
    last := Dial(n + 1);
    WaitingLive(r, n);
    DialMore(m, inputs, r, n);
    OpenUpstreamPorts(r, n + 1);
  }
}
