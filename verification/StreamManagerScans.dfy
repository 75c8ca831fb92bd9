/** Exactly when a scan opens a stream, reports a connect result and ends a stream, by what it sees of the sockets. */
module StreamManagerScans {
  import opened Common
  import A = Http2Activator
  import opened StreamManager
  import opened StreamManagerLaws

  // ---------------------------------------------------------------------
  // New connections
  // ---------------------------------------------------------------------

  /** The listeners that have become connections and still have a local address, in order. */
  function Arrived(listeners: seq<nat>, o: Oracle): seq<nat>
  {
    if listeners == [] then []
    else
      var s := o.socket(listeners[0]);
      (if s.state.Established? && s.localPort.Some? then [listeners[0]] else []) + Arrived(listeners[1..], o)
  }

  /** The listeners that take the place of the given ones, where one could be made. */
  function Replacements(handles: seq<nat>, o: Oracle): seq<nat>
  {
    if handles == [] then []
    else (if o.relisten(handles[0]) == None then [] else [o.relisten(handles[0]).value]) + Replacements(handles[1..], o)
  }

  function Opens(id: nat, n: nat): seq<A.Event>
    decreases n
  {
    if n == 0 then [] else [A.StreamOpen(id)] + Opens(id + 1, n - 1)
  }

  /** Streams numbered from `id` for the given sockets, none of them paused or ended. */
  ghost predicate NumberedFrom(streams: map<nat, Stream>, id: nat, handles: seq<nat>)
  {
    forall k :: 0 <= k < |handles| ==>
      id + k in streams && streams[id + k] == Stream(handles[k], Downstream, true, false, false, None)
  }

  /** `acc` is `m` with a new stream for each of the handles, and listeners for those that could be replaced. */
  ghost predicate Accepts(m: Manager, handles: seq<nat>, o: Oracle, acc: Scanned)
  {
    var m' := acc.manager;
    && acc.events == Opens(m.nextStreamId, |handles|)
    && m'.nextStreamId == m.nextStreamId + |handles|
    && NumberedFrom(m'.streams, m.nextStreamId, handles)
    && (forall id :: id in m'.streams <==> id in m.streams || m.nextStreamId <= id < m'.nextStreamId)
    && (forall id :: id in m.streams && id < m.nextStreamId ==> m'.streams[id] == m.streams[id])
    && m'.listeners == m.listeners + Replacements(handles, o)
  }

  lemma AcceptsNone(m: Manager, o: Oracle)
    ensures Accepts(m, [], o, Scanned(m, []))
  {
  }

  lemma AcceptsFirst(m: Manager, handle: nat, handles: seq<nat>, o: Oracle, acc: Scanned)
    requires o.socket(handle).localPort.Some?
    requires Accepts(Accept(m, handle, o).manager, handles, o, acc)
    ensures Accepts(m, [handle] + handles, o, Scanned(acc.manager, Accept(m, handle, o).events + acc.events))
  {
    var m1, m' := Accept(m, handle, o).manager, acc.manager;
    var all := [handle] + handles;
    assert m1.nextStreamId == m.nextStreamId + 1;
    forall k | 0 <= k < |all|
      ensures m.nextStreamId + k in m'.streams
              && m'.streams[m.nextStreamId + k] == Stream(all[k], Downstream, true, false, false, None)
    {
      if k > 0 {
        assert all[k] == handles[k - 1];
        assert m1.nextStreamId + (k - 1) in m'.streams;
      }
    }
    assert all[1..] == handles;
    assert m'.listeners == m.listeners + Replacements(all, o);
  }

  lemma {:induction false} AcceptAllAccepts(m: Manager, handles: seq<nat>, o: Oracle)
    requires forall i :: 0 <= i < |handles| ==> o.socket(handles[i]).state.Established?
    ensures Accepts(m, Arrived(handles, o), o, AcceptAll(m, handles, o))
    decreases |handles|
  {
    if handles == [] {
      AcceptsNone(m, o);
    } else {
      var first := Accept(m, handles[0], o);
      AcceptAllAccepts(first.manager, handles[1..], o);
      if o.socket(handles[0]).localPort.Some? {
        AcceptsFirst(m, handles[0], Arrived(handles[1..], o), o, AcceptAll(first.manager, handles[1..], o));
      } else {
        var rest := AcceptAll(m, handles[1..], o);
        assert [] + rest.events == rest.events && [] + Arrived(handles[1..], o) == Arrived(handles[1..], o);
      }
    }
  }

  lemma {:induction false} ArrivedEstablished(listeners: seq<nat>, o: Oracle)
    ensures Arrived(EstablishedIn(listeners, o.socket, true), o) == Arrived(listeners, o)
    ensures var es := EstablishedIn(listeners, o.socket, true);
            forall i :: 0 <= i < |es| ==> o.socket(es[i]).state.Established?
  {
    if listeners != [] {
      ArrivedEstablished(listeners[1..], o);
      var tail := EstablishedIn(listeners[1..], o.socket, true);
      if o.socket(listeners[0]).state.Established? {
        assert ([listeners[0]] + tail)[1..] == tail;
      } else {
        assert EstablishedIn(listeners, o.socket, true) == tail;
        assert [] + Arrived(listeners[1..], o) == Arrived(listeners[1..], o);
      }
    }
  }

  /**
   * For arbitrary sockets: a scan opens one stream for each listener that has become a connection and has a local
   * address, in order, with the next ids, and reports each of them; other streams are as they were. A listener stays
   * if and only if it has not become a connection, and those that could be replaced are.
   */
  lemma ScanOpens(m: Manager, o: Oracle)
    ensures Accepts(m.(listeners := EstablishedIn(m.listeners, o.socket, false)), Arrived(m.listeners, o), o,
                    AcceptPhase(m, o))
    ensures forall h :: h in EstablishedIn(m.listeners, o.socket, false)
                        <==> h in m.listeners && !o.socket(h).state.Established?
  {
    ArrivedEstablished(m.listeners, o);
    AcceptAllAccepts(m.(listeners := EstablishedIn(m.listeners, o.socket, false)),
                     EstablishedIn(m.listeners, o.socket, true), o);
    EstablishedInSpec(m.listeners, o.socket, false);
  }

  // ---------------------------------------------------------------------
  // Results and ends
  // ---------------------------------------------------------------------

  /** There is something to read that this scan leaves in the socket. */
  predicate LeftToRead(st: Stream, s: Socket) { if st.paused || !s.canRecv then s.canRecv else s.moreToRecv }

  /** The connection has ended, and nothing is left to read unless it was aborted or closed by us. */
  predicate EndSeen(st: Stream, s: Socket)
  {
    || s.state in {Closed, TimeWait, Closing, LastAck}
    || (s.state.CloseWait? && !LeftToRead(st, s))
  }

  predicate Unreported(st: Stream) { st.direction.Upstream? && !st.openedNotified }

  /** What one look at a live stream reports besides data. */
  lemma ObserveExactly(id: nat, st: Stream, s: Socket)
    requires !st.closedNotified
    ensures var seen := Observe(id, st, s);
            var fails := Unreported(st) && s.state in {Closed, TimeWait};
            && (seen.closes <==> EndSeen(st, s))
            && (A.UpstreamConnectResult(id, true) in seen.events <==> Unreported(st) && s.state.Established?)
            && (A.UpstreamConnectResult(id, false) in seen.events <==> fails)
            && (A.StreamClose(id) in seen.events <==> st.direction.Downstream? && EndSeen(st, s))
            && (A.UpstreamClosed(id) in seen.events <==> st.direction.Upstream? && EndSeen(st, s) && !fails)
  {
    var data := DataEvents(id, st, s);
    var connect := ObserveConnect(id, st, s);
    var close := ObserveClose(id, connect.stream, s);
    assert Observe(id, st, s).events == data + connect.events + close.events;
    ConnectExactly(id, st, s);
    CloseExactly(id, connect.stream, s);
  }

  lemma ConnectExactly(id: nat, st: Stream, s: Socket)
    ensures var seen := ObserveConnect(id, st, s);
            && seen.stream == st.(openedNotified := seen.stream.openedNotified,
                                  closedNotified := st.closedNotified || seen.closes)
            && (seen.closes <==> Unreported(st) && s.state in {Closed, TimeWait})
            && seen.events == (if !Unreported(st) then []
                               else if s.state.Established? then [A.UpstreamConnectResult(id, true)]
                               else if seen.closes then [A.UpstreamConnectResult(id, false)]
                               else [])
  {
  }

  lemma CloseExactly(id: nat, st: Stream, s: Socket)
    ensures var seen := ObserveClose(id, st, s);
            && (seen.closes <==> !st.closedNotified && EndSeen(st, s))
            && seen.events == (if !seen.closes then []
                               else if st.direction.Downstream? then [A.StreamClose(id)]
                               else [A.UpstreamClosed(id)])
  {
  }

  /** In a walk, an event about a stream comes from its one observation. */
  lemma {:induction false} WalkEvents(streams: map<nat, Stream>, o: Oracle, order: seq<nat>, id: nat, e: A.Event)
    requires NoDuplicates(order) && About(e) == Some(id)
    ensures e in Walk(streams, o, order).events
            <==> id in order && id in streams && e in Observe(id, streams[id], o.socket(streams[id].handle)).events
    decreases |order|
  {
    if order != [] {
      var g := order[0];
      assert order == [g] + order[1..] && g !in order[1..];
      if g in streams {
        var seen := Observe(g, streams[g], o.socket(streams[g].handle));
        var streams' := streams[g := seen.stream];
        ObserveAbout(g, streams[g], o.socket(streams[g].handle));
        WalkEvents(streams', o, order[1..], id, e);
        assert Walk(streams, o, order).events == seen.events + Walk(streams', o, order[1..]).events;
      } else {
        WalkEvents(streams, o, order[1..], id, e);
      }
    }
  }

  lemma {:induction false} OpensOnly(id: nat, n: nat, e: A.Event)
    requires !e.StreamOpen?
    ensures e !in Opens(id, n)
    decreases n
  {
    if n > 0 {
      OpensOnly(id + 1, n - 1, e);
    }
  }

  lemma ScanEvents(m: Manager, o: Oracle, id: nat, e: A.Event)
    requires Enumerates(o.order, AcceptPhase(m, o).manager.streams.Keys) && About(e) == Some(id) && !e.StreamOpen?
    ensures var streams := AcceptPhase(m, o).manager.streams;
            e in Scan(m, o).events
            <==> id in streams && e in Observe(id, streams[id], o.socket(streams[id].handle)).events
  {
    var acc := AcceptPhase(m, o);
    ScanOpens(m, o);
    OpensOnly(m.nextStreamId, |Arrived(m.listeners, o)|, e);
    WalkEvents(acc.manager.streams, o, o.order, id, e);
    assert Scan(m, o).events == acc.events + Walk(acc.manager.streams, o, o.order).events;
  }

  /**
   * For arbitrary sockets, and for every stream that a scan looks at: the scan reports a connect result if and only
   * if none was reported before and the socket is established or has failed, it reports the end if and only if the
   * connection has ended with nothing left to read, and it forgets exactly the streams that ended or failed.
   */
  lemma ScanReportsExactly(m: Manager, o: Oracle, id: nat)
    requires Tables(m) && AllOpen(m.streams) && FreshHandles(m, o)
    requires Enumerates(o.order, AcceptPhase(m, o).manager.streams.Keys) && id in AcceptPhase(m, o).manager.streams
    ensures var st, es := AcceptPhase(m, o).manager.streams[id], Scan(m, o).events;
            var s := o.socket(st.handle);
            var fails := Unreported(st) && s.state in {Closed, TimeWait};
            && (A.UpstreamConnectResult(id, true) in es <==> Unreported(st) && s.state.Established?)
            && (A.UpstreamConnectResult(id, false) in es <==> fails)
            && (A.StreamClose(id) in es <==> st.direction.Downstream? && EndSeen(st, s))
            && (A.UpstreamClosed(id) in es <==> st.direction.Upstream? && EndSeen(st, s) && !fails)
            && (id !in Scan(m, o).manager.streams <==> EndSeen(st, s))
  {
    var st := AcceptPhase(m, o).manager.streams[id];
    AcceptPhaseTables(m, o);
    ObserveExactly(id, st, o.socket(st.handle));
    ScanEvents(m, o, id, A.UpstreamConnectResult(id, true));
    ScanEvents(m, o, id, A.UpstreamConnectResult(id, false));
    ScanEvents(m, o, id, A.StreamClose(id));
    ScanEvents(m, o, id, A.UpstreamClosed(id));
    ScanForgets(m, o, id);
  }

  lemma ScanForgets(m: Manager, o: Oracle, id: nat)
    requires Tables(m) && AllOpen(m.streams) && FreshHandles(m, o)
    requires Enumerates(o.order, AcceptPhase(m, o).manager.streams.Keys) && id in AcceptPhase(m, o).manager.streams
    ensures var st := AcceptPhase(m, o).manager.streams[id];
            id !in Scan(m, o).manager.streams <==> Observe(id, st, o.socket(st.handle)).closes
  {
    var m1 := AcceptPhase(m, o).manager;
    AcceptPhaseTables(m, o);
    WalkTables(m1, o);
    WalkSpec(m1.streams, o, o.order);
    DropAllSpec(m1.(streams := Walk(m1.streams, o, o.order).streams), Walk(m1.streams, o, o.order).closed);
  }

  // ---------------------------------------------------------------------
  // Sockets and the backend, over runs
  // ---------------------------------------------------------------------

  /** Listeners that have become connections but have no local address any more: nobody looks at them again. */
  function Lost(listeners: seq<nat>, o: Oracle): set<nat>
  {
    set h | h in listeners && o.socket(h).state.Established? && o.socket(h).localPort == None
  }

  function LostInRun(m: Manager, inputs: seq<Input>): set<nat>
  {
    if inputs == [] then {}
    else
      var init, i := inputs[..|inputs| - 1], inputs[|inputs| - 1];
      LostInRun(m, init) + Lost(Run(m, init).manager.listeners, i.oracle)
  }

  /** Every socket listens, serves a stream or is lost, and only one of these. */
  ghost predicate SocketsInUse(m: Manager, lost: set<nat>)
  {
    && (forall h :: h in m.sockets <==> h in m.listeners || h in m.handleToStream || h in lost)
    && (forall h :: h in lost ==> h !in m.listeners && h !in m.handleToStream)
  }

  lemma ExecuteSockets(m: Manager, a: ManagerAction, lost: set<nat>)
    requires SocketsInUse(m, lost) && (a.Connect? ==> a.handle !in m.sockets)
    ensures SocketsInUse(Execute(m, a), lost) && Execute(m, a).listeners == m.listeners
  {
    if a.Connect? && m.backend {
      assert Execute(m, a) == OpenUpstream(m, a.handle);
    }
  }

  /** While listeners are being accepted, those still to come are sockets that nothing else uses. */
  ghost predicate SocketsAccepting(m: Manager, handles: seq<nat>, lost: set<nat>)
  {
    && (forall h :: h in m.sockets <==> h in m.listeners || h in m.handleToStream || h in lost || h in handles)
    && (forall h :: h in lost ==> h !in m.listeners && h !in m.handleToStream && h !in handles)
  }

  lemma AcceptSockets(m: Manager, handles: seq<nat>, o: Oracle, lost: set<nat>)
    requires handles != [] && Acceptable(m, handles, o) && SocketsAccepting(m, handles, lost)
    ensures SocketsAccepting(Accept(m, handles[0], o).manager, handles[1..],
                             if o.socket(handles[0]).localPort == None then lost + {handles[0]} else lost)
  {
    assert handles == [handles[0]] + handles[1..] && handles[0] !in handles[1..];
  }

  lemma {:induction false} AcceptAllSockets(m: Manager, handles: seq<nat>, o: Oracle, lost: set<nat>)
    requires Acceptable(m, handles, o) && SocketsAccepting(m, handles, lost)
    ensures SocketsInUse(AcceptAll(m, handles, o).manager,
                         lost + set h | h in handles && o.socket(h).localPort == None)
    decreases |handles|
  {
    if handles == [] {
      assert lost + {} == lost;
    } else {
      var h := handles[0];
      var lost' := if o.socket(h).localPort == None then lost + {h} else lost;
      assert handles == [h] + handles[1..];
      AcceptSockets(m, handles, o, lost);
      AcceptRest(m, handles, o);
      AcceptAllSockets(Accept(m, h, o).manager, handles[1..], o, lost');
      assert lost + (set g | g in handles && o.socket(g).localPort == None)
             == lost' + set g | g in handles[1..] && o.socket(g).localPort == None;
    }
  }

  lemma AcceptPhaseSockets(m: Manager, o: Oracle, lost: set<nat>)
    requires Tables(m) && FreshHandles(m, o) && SocketsInUse(m, lost)
    ensures SocketsInUse(AcceptPhase(m, o).manager, lost + Lost(m.listeners, o))
  {
    var kept := EstablishedIn(m.listeners, o.socket, false);
    var handles := EstablishedIn(m.listeners, o.socket, true);
    EstablishedInSpec(m.listeners, o.socket, false);
    EstablishedInSpec(m.listeners, o.socket, true);
    AcceptAllSockets(m.(listeners := kept), handles, o, lost);
    assert (set h | h in handles && o.socket(h).localPort == None) == Lost(m.listeners, o);
  }

  lemma {:induction false} DropAllSockets(m: Manager, ids: seq<nat>, lost: set<nat>)
    requires Tables(m) && SocketsInUse(m, lost)
    ensures SocketsInUse(DropAll(m, ids), lost)
    decreases |ids|
  {
    if ids != [] {
      DropTables(m, ids[0]);
      DropAllSockets(Drop(m, ids[0]), ids[1..], lost);
    }
  }

  /** On every run, for arbitrary sockets: an open one listens, serves a live stream or was lost; no other is kept. */
  lemma {:induction false} SocketsOnEveryRun(m: Manager, inputs: seq<Input>)
    requires Initial(m) && PlausibleRun(m, inputs)
    ensures SocketsInUse(Run(m, inputs).manager, LostInRun(m, inputs))
  {
    if inputs != [] {
      var init, i := inputs[..|inputs| - 1], inputs[|inputs| - 1];
      var before, lost := Run(m, init).manager, LostInRun(m, init);
      var m1 := Execute(before, i.action);
      SocketsOnEveryRun(m, init);
      TablesOnEveryRun(m, init);
      ExecuteSockets(before, i.action, lost);
      ExecuteTables(before, i.action);
      AcceptPhaseSockets(m1, i.oracle, lost);
      AcceptPhaseTables(m1, i.oracle);
      ScanSocketsEnd(AcceptPhase(m1, i.oracle).manager, i.oracle, LostInRun(m, inputs));
    }
  }

  lemma ScanSocketsEnd(m: Manager, o: Oracle, lost: set<nat>)
    requires Tables(m) && AllOpen(m.streams) && Enumerates(o.order, m.streams.Keys) && SocketsInUse(m, lost)
    ensures var w := Walk(m.streams, o, o.order); SocketsInUse(DropAll(m.(streams := w.streams), w.closed), lost)
  {
    var w := Walk(m.streams, o, o.order);
    WalkTables(m, o);
    DropAllSockets(m.(streams := w.streams), w.closed, lost);
  }

  /** Whether the backend's address was last given or taken away. */
  function BackendGiven(inputs: seq<Input>): bool
  {
    if inputs == [] then false
    else
      var a := inputs[|inputs| - 1].action;
      if a.SetBackend? then a.present else BackendGiven(inputs[..|inputs| - 1])
  }

  lemma {:induction false} AcceptAllBackend(m: Manager, handles: seq<nat>, o: Oracle)
    ensures AcceptAll(m, handles, o).manager.backend == m.backend
    decreases |handles|
  {
    if handles != [] {
      AcceptAllBackend(Accept(m, handles[0], o).manager, handles[1..], o);
    }
  }

  lemma {:induction false} DropAllBackend(m: Manager, ids: seq<nat>)
    ensures DropAll(m, ids).backend == m.backend
    decreases |ids|
  {
    if ids != [] {
      DropAllBackend(Drop(m, ids[0]), ids[1..]);
    }
  }

  lemma ScanBackend(m: Manager, o: Oracle)
    ensures Scan(m, o).manager.backend == m.backend
  {
    var acc := AcceptPhase(m, o).manager;
    var w := Walk(acc.streams, o, o.order);
    AcceptAllBackend(m.(listeners := EstablishedIn(m.listeners, o.socket, false)),
                     EstablishedIn(m.listeners, o.socket, true), o);
    DropAllBackend(acc.(streams := w.streams), w.closed);
  }

  /**
   * On every run: a connect opens an upstream stream, with the next id and on the socket given, if and only if the
   * backend's address was last given and not taken away.
   */
  lemma ConnectOpensIffBackendGiven(m: Manager, inputs: seq<Input>, handle: nat)
    requires Initial(m) && PlausibleRun(m, inputs)
    ensures var before := Run(m, inputs).manager;
            var after := Execute(before, Connect(handle));
            && (!BackendGiven(inputs) ==> after == before)
            && (BackendGiven(inputs) ==>
                  && after.streams.Keys == before.streams.Keys + {before.nextStreamId}
                  && before.nextStreamId !in before.streams
                  && after.streams[before.nextStreamId].handle == handle
                  && Unreported(after.streams[before.nextStreamId])
                  && !after.streams[before.nextStreamId].closedNotified)
  {
    BackendOnEveryRun(m, inputs);
    TablesOnEveryRun(m, inputs);
    var before := Run(m, inputs).manager;
    if before.backend {
      assert Execute(before, Connect(handle)) == OpenUpstream(before, handle);
    }
  }

  lemma {:induction false} BackendOnEveryRun(m: Manager, inputs: seq<Input>)
    requires Initial(m)
    ensures Run(m, inputs).manager.backend == BackendGiven(inputs)
  {
    if inputs != [] {
      var before, i := Run(m, inputs[..|inputs| - 1]).manager, inputs[|inputs| - 1];
      BackendOnEveryRun(m, inputs[..|inputs| - 1]);
      ExecuteBackend(before, i.action);
      ScanBackend(Execute(before, i.action), i.oracle);
    }
  }

  lemma ExecuteBackend(m: Manager, a: ManagerAction)
    ensures Execute(m, a).backend == if a.SetBackend? then a.present else m.backend
  {
  }
}
