/** The stream manager object: tables and flags updated in place, proved to compute the functions of StreamManager. */
module StreamManagerImpl {
  import opened Common
  import A = Http2Activator
  import opened Spec = StreamManager
  import opened StreamManagerLaws

  class Manager {
    var streams: map<nat, Stream>
    var handleToStream: map<nat, nat>
    var listeners: seq<nat>
    var nextStreamId: nat
    var sockets: set<nat>
    var upstreamPorts: set<Port>
    var nextUpstreamPort: Port
    var backendConfigured: bool
    var written: map<nat, seq<Byte>>

    function View(): Spec.Manager
      reads this
    {
      Spec.Manager(streams, handleToStream, listeners, nextStreamId, sockets, upstreamPorts, nextUpstreamPort,
                   backendConfigured, written)
    }

    constructor (pool: seq<nat>)
      requires NoDuplicates(pool)
      ensures Initial(View()) && listeners == pool
    {
      streams, handleToStream, listeners := map[], map[], pool;
      nextStreamId, sockets := 1, set h | h in pool;
      upstreamPorts, nextUpstreamPort, backendConfigured := {}, PORT_RANGE_START, false;
      written := map[];
    }

    /** All arithmetic is on 16-bit ports and never overflows. */
    method AllocUpstreamPort() returns (port: Port)
      modifies this`upstreamPorts, this`nextUpstreamPort
      ensures var c := ChoosePort(old(upstreamPorts), old(nextUpstreamPort), PORT_RANGE_SIZE as nat);
              && port == c.port && nextUpstreamPort == c.next
              && upstreamPorts == if c.taken then old(upstreamPorts) + {port} else old(upstreamPorts)
    {
      for i := 0 to PORT_RANGE_SIZE as nat
        invariant upstreamPorts == old(upstreamPorts)
        invariant ChoosePort(upstreamPorts, nextUpstreamPort, PORT_RANGE_SIZE as nat - i)
                  == ChoosePort(old(upstreamPorts), old(nextUpstreamPort), PORT_RANGE_SIZE as nat)
      {
        port := nextUpstreamPort;
        nextUpstreamPort := PORT_RANGE_START + (nextUpstreamPort - PORT_RANGE_START + 1) % PORT_RANGE_SIZE;
        if port !in upstreamPorts {
          upstreamPorts := upstreamPorts + {port};
          return;
        }
      }
      port := nextUpstreamPort;
    }

    method AllocStreamId() returns (id: nat)
      modifies this`nextStreamId
      ensures id == old(nextStreamId) && nextStreamId == id + 1
    {
      id := nextStreamId;
      nextStreamId := nextStreamId + 1;
    }

    method ExecuteAction(a: ManagerAction)
      requires Tables(View()) && AllOpen(streams) && (a.Connect? ==> a.handle !in sockets)
      modifies this
      ensures View() == Execute(old(View()), a)
      ensures Tables(View()) && AllOpen(streams)
    {
      ExecuteTables(View(), a);
      match a {
        case Connect(handle) =>
          if backendConfigured {
            StartUpstream(handle);
          }
        case SendDown(id, data, reply) =>
          if id in streams {
            SendSlice(id, data, reply);
          }
        case SendUp(id, data, reply) =>
          if id in streams && streams[id].direction == Upstream {
            SendSlice(id, data, reply);
          }
        case CloseDown(_) =>
        case CloseUp(_) =>
        case Pause(id) =>
          if id in streams {
            streams := streams[id := streams[id].(paused := true)];
          }
        case Resume(id) =>
          if id in streams {
            streams := streams[id := streams[id].(paused := false)];
          }
        case PauseIfUpstream(id) =>
          if id in streams && streams[id].direction == Upstream {
            streams := streams[id := streams[id].(paused := true)];
          }
        case ResumeIfUpstream(id) =>
          if id in streams && streams[id].direction == Upstream {
            streams := streams[id := streams[id].(paused := false)];
          }
        case SetBackend(present) => backendConfigured := present;
        case Other =>
      }
    }

    /** Offers the data to the socket once; what it does not take is lost. */
    method SendSlice(id: nat, data: seq<Byte>, reply: SendReply)
      modifies this`written
      ensures View() == Write(old(View()), id, Accepted(data, reply))
    {
      var before := Written(View(), id);
      written := written[id := before];
      assert before + [] == before;
      if reply.Takes? {
        written := written[id := before + if reply.count < |data| then data[..reply.count] else data];
      }
    }

    /** Adds an upstream socket with a stream id and a local port of its own. */
    method StartUpstream(handle: nat)
      modifies this
      ensures View() == OpenUpstream(old(View()), handle)
    {
      sockets := sockets + {handle};
      var id := AllocStreamId();
      var port := AllocUpstreamPort();
      streams := streams[id := Stream(handle, Upstream, false, false, false, Some(port))];
      handleToStream := handleToStream[handle := id];
    }

    /** Scans every socket; each lookup in the socket set succeeds. */
    method ScanSockets(o: Oracle) returns (events: seq<A.Event>)
      requires Tables(View()) && AllOpen(streams) && FreshHandles(View(), o)
      requires Enumerates(o.order, AcceptPhase(View(), o).manager.streams.Keys)
      modifies this
      ensures Scanned(View(), events) == Scan(old(View()), o)
      ensures Tables(View()) && AllOpen(streams)
    {
      ScanTables(View(), o);
      AcceptPhaseTables(View(), o);
      var established := SplitListeners(o);
      events := AcceptEstablished(established, o);
      var more, closed := WalkStreams(o);
      events := events + more;
      DropClosed(closed);
    }

    method SplitListeners(o: Oracle) returns (established: seq<nat>)
      requires ListenersInv(View())
      modifies this`listeners
      ensures listeners == EstablishedIn(old(listeners), o.socket, false)
      ensures established == EstablishedIn(old(listeners), o.socket, true)
    {
      var kept: seq<nat> := [];
      established := [];
      var all := listeners;
      assert forall h :: h in all ==> h in sockets;
      for i := 0 to |all|
        invariant kept + EstablishedIn(all[i..], o.socket, false) == EstablishedIn(all, o.socket, false)
        invariant established + EstablishedIn(all[i..], o.socket, true) == EstablishedIn(all, o.socket, true)
      {
        var handle := all[i];
        assert handle in sockets;
        DropTwice(all, i, 1);
        EstablishedFirst(all[i..], o.socket);
        if o.socket(handle).state == Established {
          Associate(established, [handle], EstablishedIn(all[i + 1..], o.socket, true));
          established := established + [handle];
        } else {
          Associate(kept, [handle], EstablishedIn(all[i + 1..], o.socket, false));
          kept := kept + [handle];
        }
      }
      listeners := kept;
    }

    method AcceptEstablished(handles: seq<nat>, o: Oracle) returns (events: seq<A.Event>)
      modifies this
      ensures Scanned(View(), events) == AcceptAll(old(View()), handles, o)
    {
      events := [];
      ghost var whole := AcceptAll(View(), handles, o);
      assert handles[0..] == handles;
      for i := 0 to |handles|
        invariant whole == Scanned(AcceptAll(View(), handles[i..], o).manager,
                                   events + AcceptAll(View(), handles[i..], o).events)
      {
        assert handles[i..][0] == handles[i] && handles[i..][1..] == handles[i + 1..];
        AcceptFirst(View(), handles[i..], o);
        var more := AcceptOne(handles[i], o);
        Associate(events, more, AcceptAll(View(), handles[i + 1..], o).events);
        events := events + more;
      }
    }

    method AcceptOne(handle: nat, o: Oracle) returns (events: seq<A.Event>)
      modifies this
      ensures Scanned(View(), events) == Accept(old(View()), handle, o)
    {
      events := [];
      if o.socket(handle).localPort == None {
        return;
      }
      var id := AllocStreamId();
      streams := streams[id := Stream(handle, Downstream, true, false, false, None)];
      handleToStream := handleToStream[handle := id];
      events := [A.StreamOpen(id)];
      var added := o.relisten(handle);
      if added.Some? {
        listeners := listeners + [added.value];
        sockets := sockets + {added.value};
      }
    }

    method WalkStreams(o: Oracle) returns (events: seq<A.Event>, closed: seq<nat>)
      requires Tables(View()) && AllOpen(streams)
      modifies this`streams
      ensures Walked(streams, events, closed) == Walk(old(streams), o, o.order)
    {
      events, closed := [], [];
      ghost var whole := Walk(streams, o, o.order);
      assert o.order[0..] == o.order;
      for i := 0 to |o.order|
        invariant streams.Keys == old(streams).Keys
        invariant forall id :: id in streams ==> streams[id].handle == old(streams)[id].handle
        invariant whole == After(events, closed, Walk(streams, o, o.order[i..]))
      {
        var id := o.order[i];
        assert o.order[i..][0] == id && o.order[i..][1..] == o.order[i + 1..];
        if id in streams {
          assert streams[id].handle in sockets;
          var seen := ObserveStreamState(id, streams[id], o.socket(streams[id].handle));
          ObserveKeepsHandle(id, streams[id], o.socket(streams[id].handle));
          WalkFirst(streams, o, o.order[i..]);
          var ends := if seen.closes then [id] else [];
          AfterTwice(events, closed, seen.events, ends, Walk(streams[id := seen.stream], o, o.order[i + 1..]));
          streams := streams[id := seen.stream];
          events := events + seen.events;
          closed := closed + ends;
        }
      }
    }

    /** The body of the walk: data, then the connect result, then the close check. */
    method ObserveStreamState(id: nat, st: Stream, s: Socket) returns (seen: Observed)
      ensures seen == Observe(id, st, s)
    {
      var state := st;
      var events: seq<A.Event> := [];
      var closes := false;
      if !state.paused && s.canRecv && s.received != [] {
        events := events + [if state.direction == Downstream then A.StreamData(id, s.received)
                            else A.UpstreamData(id, s.received)];
      }
      if state.direction == Upstream && !state.openedNotified {
        if s.state == Established {
          state := state.(openedNotified := true);
          events := events + [A.UpstreamConnectResult(id, true)];
        } else if s.state == Closed || s.state == TimeWait {
          state := state.(openedNotified := true, closedNotified := true);
          events := events + [A.UpstreamConnectResult(id, false)];
          closes := true;
        }
      }
      if !state.closedNotified && IsClosed(state, s) {
        state := state.(closedNotified := true);
        events := events + [if state.direction == Downstream then A.StreamClose(id) else A.UpstreamClosed(id)];
        closes := true;
      }
      seen := Observed(state, events, closes);
    }

    method DropClosed(ids: seq<nat>)
      modifies this
      ensures View() == DropAll(old(View()), ids)
    {
      for i := 0 to |ids|
        invariant DropAll(View(), ids[i..]) == DropAll(old(View()), ids)
      {
        assert ids[i..][1..] == ids[i + 1..];
        if ids[i] in streams {
          var state := streams[ids[i]];
          streams := streams - {ids[i]};
          handleToStream := handleToStream - {state.handle};
          sockets := sockets - {state.handle};
          if state.localPort.Some? {
            upstreamPorts := upstreamPorts - {state.localPort.value};
          }
        }
      }
    }
  }

  lemma EstablishedFirst(ls: seq<nat>, socket: nat -> Socket)
    requires ls != []
    ensures var yes := socket(ls[0]).state.Established?;
            && EstablishedIn(ls, socket, yes) == [ls[0]] + EstablishedIn(ls[1..], socket, yes)
            && EstablishedIn(ls, socket, !yes) == EstablishedIn(ls[1..], socket, !yes)
  {
    var no := !socket(ls[0]).state.Established?;
    assert [] + EstablishedIn(ls[1..], socket, no) == EstablishedIn(ls[1..], socket, no);
  }

  lemma AcceptFirst(m: StreamManager.Manager, handles: seq<nat>, o: Oracle)
    requires handles != []
    ensures var first := Accept(m, handles[0], o);
            var others := AcceptAll(first.manager, handles[1..], o);
            AcceptAll(m, handles, o) == Scanned(others.manager, first.events + others.events)
  {
  }

  lemma ObserveKeepsHandle(id: nat, st: Stream, s: Socket)
    ensures Observe(id, st, s).stream.handle == st.handle
  {
  }

  /** The walk `rest` preceded by the events and closings of earlier streams. */
  ghost function After(events: seq<A.Event>, closed: seq<nat>, rest: Walked): Walked
  {
    Walked(rest.streams, events + rest.events, closed + rest.closed)
  }

  lemma AfterTwice(events: seq<A.Event>, closed: seq<nat>, more: seq<A.Event>, ends: seq<nat>, rest: Walked)
    ensures After(events, closed, After(more, ends, rest)) == After(events + more, closed + ends, rest)
  {
    Associate(events, more, rest.events);
    Associate(closed, ends, rest.closed);
  }

  lemma WalkFirst(streams: map<nat, Stream>, o: Oracle, order: seq<nat>)
    requires order != [] && order[0] in streams
    ensures var seen := Observe(order[0], streams[order[0]], o.socket(streams[order[0]].handle));
            var others := Walk(streams[order[0] := seen.stream], o, order[1..]);
            Walk(streams, o, order) == After(seen.events, if seen.closes then [order[0]] else [], others)
  {
  }
}
