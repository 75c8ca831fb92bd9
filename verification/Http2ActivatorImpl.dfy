/**
 * The activator object: tables, queue and counter updated in place, proved to compute the functions of
 * Http2Activator. Its hash table owns the connections, so they are values here; Http2ConnectionImpl proves
 * that the connection object computes the functions applied to them.
 */
module Http2ActivatorImpl {
  import opened Common
  import C = Http2Connection
  import Spec = Http2Activator
  import opened Http2ActivatorRouting

  type Event = Spec.Event
  type Action = Spec.Action

  /** A batch of events, one after the other. */
  ghost function Steps(s: Spec.State, es: seq<Event>): Spec.Out
    decreases |es|
  {
    if es == [] then Spec.Out(s, [])
    else
      var first := Spec.Step(s, es[0]);
      var others := Steps(first.state, es[1..]);
      Spec.Out(others.state, first.actions + others.actions)
  }

  /** No event of the batch re-opens a handle that waits for an upstream or has one. */
  ghost predicate TolerableSteps(s: Spec.State, es: seq<Event>)
    decreases |es|
  {
    es != [] ==> Tolerable(s, es[0]) && TolerableSteps(Spec.Step(s, es[0]).state, es[1..])
  }

  class Activator {
    var connections: map<nat, C.Conn>
    var upstreamToDownstream: map<nat, nat>
    var pendingConnects: seq<nat>
    var backendAvailable: bool
    var totalH2Streams: nat

    function View(): Spec.State
      reads this
    {
      Spec.State(connections, upstreamToDownstream, pendingConnects, backendAvailable, totalH2Streams)
    }

    constructor ()
      ensures View() == Spec.INITIAL
    {
      connections, upstreamToDownstream, pendingConnects := map[], map[], [];
      backendAvailable, totalH2Streams := false, 0;
    }

    method ProcessEvents(events: seq<Event>) returns (actions: seq<Action>)
      requires Unambiguous(View()) && TolerableSteps(View(), events)
      modifies this
      ensures Unambiguous(View()) && Spec.Out(View(), actions) == Steps(old(View()), events)
    {
      actions := [];
      for i := 0 to |events|
        invariant Unambiguous(View()) && TolerableSteps(View(), events[i..])
        invariant Steps(View(), events[i..]).state == Steps(old(View()), events).state
        invariant actions + Steps(View(), events[i..]).actions == Steps(old(View()), events).actions
      {
        assert events[i..][0] == events[i] && events[i..][1..] == events[i + 1..];
        StepsFirst(View(), events[i..]);
        var more := ProcessEvent(events[i]);
        Associate(actions, more, Steps(View(), events[i + 1..]).actions);
        actions := actions + more;
      }
    }

    method ProcessEvent(e: Event) returns (actions: seq<Action>)
      requires Unambiguous(View()) && Tolerable(View(), e)
      modifies this
      ensures Unambiguous(View()) && Spec.Out(View(), actions) == Spec.Step(old(View()), e)
    {
      StepUnambiguous(View(), e);
      match e {
        case StreamOpen(h) => actions := []; connections := connections[h := C.NEW_CONN];
        case StreamData(h, d) => actions := HandleStreamData(h, d);
        case StreamClose(h) => actions := HandleStreamClose(h);
        case BackendAvailable(a, cs, us) => actions := HandleBackendAvailable(a, cs, us);
        case UpstreamConnectResult(u, ok) => actions := HandleUpstreamConnectResult(u, ok);
        case UpstreamData(u, d) => actions := HandleUpstreamData(u, d);
        case UpstreamClosed(u) => actions := HandleUpstreamClose(u);
        case Tick => actions := [];
        case Packet => actions := [];
      }
    }

    /** The upstream serving a connection, found by searching the routing map. */
    method FindUpstream(h: nat) returns (u: Option<nat>)
      requires Injective(upstreamToDownstream)
      ensures u == Spec.UpstreamOf(upstreamToDownstream, h)
    {
      if v :| v in upstreamToDownstream && upstreamToDownstream[v] == h {
        u := Some(v);
      } else {
        u := None;
      }
    }

    method ProcessConnActions(h: nat, connActions: seq<C.ConnAction>) returns (actions: seq<Action>)
      requires Injective(upstreamToDownstream)
      modifies this`totalH2Streams
      ensures totalH2Streams == Spec.SaturatingTally(old(totalH2Streams), connActions)
      ensures actions == Spec.TranslateAll(upstreamToDownstream, h, connActions)
    {
      actions := [];
      for i := 0 to |connActions|
        invariant Spec.SaturatingTally(totalH2Streams, connActions[i..])
                  == Spec.SaturatingTally(old(totalH2Streams), connActions)
        invariant actions + Spec.TranslateAll(upstreamToDownstream, h, connActions[i..])
                  == Spec.TranslateAll(upstreamToDownstream, h, connActions)
      {
        assert connActions[i..][1..] == connActions[i + 1..];
        var more := ProcessConnAction(h, connActions[i]);
        actions := actions + more;
      }
    }

    method ProcessConnAction(h: nat, a: C.ConnAction) returns (actions: seq<Action>)
      requires Injective(upstreamToDownstream)
      modifies this`totalH2Streams
      ensures totalH2Streams == Spec.Count(old(totalH2Streams), a)
      ensures actions == Spec.Translate(upstreamToDownstream, h, a)
    {
      actions := [];
      match a {
        case DownstreamSend(d, origin) => actions := [Spec.DownstreamSend(h, d, origin)];
        case UpstreamSend(d, origin) =>
          var u := FindUpstream(h);
          if u.Some? {
            actions := [Spec.UpstreamSend(u.value, d, origin)];
          }
        case DownstreamClose => actions := [Spec.DownstreamClose(h)];
        case UpstreamClose =>
          var u := FindUpstream(h);
          if u.Some? {
            actions := [Spec.UpstreamClose(u.value)];
          }
        case StreamOpened => totalH2Streams := totalH2Streams + 1;
        case StreamClosed => totalH2Streams := if totalH2Streams == 0 then 0 else totalH2Streams - 1;
        case Log(m) => actions := [Spec.LogInfo(m)];
      }
    }

    method HandleStreamData(h: nat, data: seq<Byte>) returns (actions: seq<Action>)
      requires Injective(upstreamToDownstream)
      modifies this
      ensures Spec.Out(View(), actions) == Spec.OnStreamData(old(View()), h, data)
    {
      actions := [];
      if h !in connections {
        return;
      }
      var oldStreams := totalH2Streams;
      var o := C.OnClientData(connections[h], data);
      connections := connections[h := o.conn];
      actions := ProcessConnActions(h, o.actions);
      ghost var mid := View();
      var connects: seq<Action> := [];
      if backendAvailable && Spec.Waiting(o.conn) {
        connections := connections[h := C.SetUpstream(o.conn, C.Connecting)];
        pendingConnects := pendingConnects + [h];
        connects := [Spec.UpstreamConnect(Spec.BACKEND_PORT)];
        StartOne(mid, h);
      } else {
        StartNone(mid);
      }
      actions := actions + (connects + Spec.NeedTransition(oldStreams, totalH2Streams));
    }

    method HandleStreamClose(h: nat) returns (actions: seq<Action>)
      requires Injective(upstreamToDownstream)
      modifies this
      ensures Spec.Out(View(), actions) == Spec.OnStreamClose(old(View()), h)
    {
      actions := [];
      var oldStreams := totalH2Streams;
      if h in connections {
        var conn := connections[h];
        connections := connections - {h};
        var uh := FindUpstream(h);
        if uh.Some? {
          upstreamToDownstream := upstreamToDownstream - {uh.value};
          actions := [Spec.UpstreamClose(uh.value)];
        }
        pendingConnects := Without(pendingConnects, h);
        var remaining := |conn.core.streams|;
        totalH2Streams := if totalH2Streams < remaining then 0 else totalH2Streams - remaining;
      }
      actions := actions + Spec.NeedTransition(oldStreams, totalH2Streams);
    }

    method HandleBackendAvailable(available: bool, connOrder: seq<nat>, upstreamOrder: seq<nat>)
      returns (actions: seq<Action>)
      requires Injective(upstreamToDownstream)
      modifies this
      ensures Spec.Out(View(), actions) == Spec.OnBackendAvailable(old(View()), available, connOrder, upstreamOrder)
    {
      backendAvailable := available;
      if available {
        actions := StartWaiting(Spec.WaitingIn(connections, connOrder));
      } else {
        var oldStreams := totalH2Streams;
        actions := CloseConnections(connOrder);
        var closes := CloseUpstreams(upstreamOrder);
        actions := actions + closes + Spec.NeedTransition(oldStreams, totalH2Streams);
      }
    }

    /** Starts a connect for each handle. */
    method StartWaiting(handles: seq<nat>) returns (actions: seq<Action>)
      modifies this`connections, this`pendingConnects
      ensures Spec.Out(View(), actions) == Spec.StartConnects(old(View()), handles)
    {
      actions := [];
      for i := 0 to |handles|
        invariant connections.Keys == old(connections).Keys
        invariant forall h :: h in connections ==>
                    connections[h] == if h in handles[..i] then C.SetUpstream(old(connections)[h], C.Connecting)
                                      else old(connections)[h]
        invariant pendingConnects == old(pendingConnects) + handles[..i]
        invariant actions + Spec.Connects(|handles| - i) == Spec.Connects(|handles|)
      {
        assert handles[..i + 1] == handles[..i] + [handles[i]];
        if handles[i] in connections {
          connections := connections[handles[i] := C.SetUpstream(connections[handles[i]], C.Connecting)];
        }
        Associate(old(pendingConnects), handles[..i], [handles[i]]);
        Associate(actions, [Spec.UpstreamConnect(Spec.BACKEND_PORT)], Spec.Connects(|handles| - i - 1));
        pendingConnects := pendingConnects + [handles[i]];
        actions := actions + [Spec.UpstreamConnect(Spec.BACKEND_PORT)];
      }
      assert handles[..|handles|] == handles;
      assert connections == Spec.StartConnects(old(View()), handles).state.conns;
    }

    /** Tells every connection that its upstream is gone. */
    method CloseConnections(order: seq<nat>) returns (actions: seq<Action>)
      requires Injective(upstreamToDownstream)
      modifies this`connections, this`totalH2Streams
      ensures Spec.Out(View(), actions) == Spec.CloseConns(old(View()), order)
    {
      actions := [];
      ghost var whole := Spec.CloseConns(View(), order);
      assert order[0..] == order;
      for i := 0 to |order|
        invariant whole == Spec.Out(Spec.CloseConns(View(), order[i..]).state,
                                    actions + Spec.CloseConns(View(), order[i..]).actions)
      {
        assert order[i..][1..] == order[i + 1..];
        if order[i] in connections {
          var o := C.OnUpstreamClosed(connections[order[i]]);
          connections := connections[order[i] := o.conn];
          var more := ProcessConnActions(order[i], o.actions);
          Associate(actions, more, Spec.CloseConns(View(), order[i + 1..]).actions);
          actions := actions + more;
        }
      }
    }

    /** Unmaps and closes every upstream. */
    method CloseUpstreams(order: seq<nat>) returns (actions: seq<Action>)
      modifies this`upstreamToDownstream
      ensures upstreamToDownstream == old(upstreamToDownstream) - set u | u in order
      ensures actions == Spec.CloseUpstreams(order)
    {
      actions := [];
      for i := 0 to |order|
        invariant upstreamToDownstream == old(upstreamToDownstream) - set u | u in order[..i]
        invariant actions + Spec.CloseUpstreams(order[i..]) == Spec.CloseUpstreams(order)
      {
        assert order[..i + 1] == order[..i] + [order[i]];
        assert order[i..][0] == order[i] && order[i..][1..] == order[i + 1..];
        Associate(actions, [Spec.UpstreamClose(order[i])], Spec.CloseUpstreams(order[i + 1..]));
        WithoutUpstreams(old(upstreamToDownstream), order[..i], order[i]);
        upstreamToDownstream := upstreamToDownstream - {order[i]};
        actions := actions + [Spec.UpstreamClose(order[i])];
      }
      assert order[..|order|] == order;
    }

    method HandleUpstreamConnectResult(u: nat, ok: bool) returns (actions: seq<Action>)
      requires Unambiguous(View())
      modifies this
      ensures Spec.Out(View(), actions) == Spec.OnConnectResult(old(View()), u, ok)
    {
      actions := [];
      if pendingConnects == [] {
        actions := [Spec.UpstreamClose(u)];
        return;
      }
      var h := pendingConnects[0];
      pendingConnects := pendingConnects[1..];
      if ok {
        upstreamToDownstream := upstreamToDownstream[u := h];
        if h in connections {
          var o := C.OnUpstreamConnected(connections[h]);
          connections := connections[h := o.conn];
          actions := ProcessConnActions(h, o.actions);
        }
      } else if h in connections {
        var oldStreams := totalH2Streams;
        var o := C.OnUpstreamFailed(connections[h]);
        connections := connections[h := o.conn];
        actions := ProcessConnActions(h, o.actions);
        actions := actions + Spec.NeedTransition(oldStreams, totalH2Streams);
      }
    }

    method HandleUpstreamData(u: nat, data: seq<Byte>) returns (actions: seq<Action>)
      requires Injective(upstreamToDownstream)
      modifies this
      ensures Spec.Out(View(), actions) == Spec.OnUpstreamData(old(View()), u, data)
    {
      actions := [];
      if u !in upstreamToDownstream || upstreamToDownstream[u] !in connections {
        return;
      }
      var h := upstreamToDownstream[u];
      var oldStreams := totalH2Streams;
      var o := C.OnUpstreamData(connections[h], data);
      connections := connections[h := o.conn];
      actions := ProcessConnActions(h, o.actions);
      actions := actions + Spec.NeedTransition(oldStreams, totalH2Streams);
    }

    method HandleUpstreamClose(u: nat) returns (actions: seq<Action>)
      requires Injective(upstreamToDownstream)
      modifies this
      ensures Spec.Out(View(), actions) == Spec.OnUpstreamClosed(old(View()), u)
    {
      actions := [];
      if u !in upstreamToDownstream {
        return;
      }
      var h := upstreamToDownstream[u];
      upstreamToDownstream := upstreamToDownstream - {u};
      if h !in connections {
        return;
      }
      var oldStreams := totalH2Streams;
      var o := C.OnUpstreamClosed(connections[h]);
      connections := connections[h := o.conn];
      actions := ProcessConnActions(h, o.actions);
      actions := actions + Spec.NeedTransition(oldStreams, totalH2Streams);
    }
  }

  lemma WithoutUpstreams(up: map<nat, nat>, us: seq<nat>, u: nat)
    ensures up - (set v | v in us) - {u} == up - set v | v in us + [u]
  {
  }

  lemma StepsFirst(s: Spec.State, es: seq<Event>)
    requires es != []
    ensures var first := Spec.Step(s, es[0]);
            && Steps(s, es).state == Steps(first.state, es[1..]).state
            && Steps(s, es).actions == first.actions + Steps(first.state, es[1..]).actions
            && TolerableSteps(s, es) == (Tolerable(s, es[0]) && TolerableSteps(first.state, es[1..]))
  {
  }

  lemma StartOne(s: Spec.State, h: nat)
    requires h in s.conns
    ensures Spec.StartConnects(s, [h]).state
            == s.(conns := s.conns[h := C.SetUpstream(s.conns[h], C.Connecting)], pending := s.pending + [h])
    ensures Spec.StartConnects(s, [h]).actions == [Spec.UpstreamConnect(Spec.BACKEND_PORT)]
  {
    assert Spec.StartConnects(s, [h]).state.conns == s.conns[h := C.SetUpstream(s.conns[h], C.Connecting)];
    assert Spec.Connects(1) == [Spec.UpstreamConnect(Spec.BACKEND_PORT)] + Spec.Connects(0);
  }

  lemma StartNone(s: Spec.State)
    ensures Spec.StartConnects(s, []) == Spec.Out(s, [])
  {
    assert Spec.StartConnects(s, []).state.conns == s.conns;
  }
}
