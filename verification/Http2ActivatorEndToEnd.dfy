/**
 * The activator is a product of independent connections: what one connection experiences and emits on any
 * run is what it would have experienced and emitted alone. So the laws of one connection hold end to end.
 */
module Http2ActivatorEndToEnd {
  import opened Common
  import C = Http2Connection
  import F = Http2Frames
  import D = Http2Delivery
  import W = Http2Framing
  import B = Http2StreamTable
  import S = Http2StreamLife
  import H = Http2Replies
  import K = Http2Handshake
  import opened Http2Activator
  import opened Http2ActivatorRouting

  // ---------------------------------------------------------------------
  // Projections on one connection
  // ---------------------------------------------------------------------

  /** The inputs that an event amounts to for connection `h`. */
  ghost function Route(s: State, e: Event, h: nat): seq<D.ConnEvent>
  {
    if h !in s.conns then []
    else
      match e
      case StreamData(g, d) =>
        if g != h then []
        else if s.available && Waiting(C.OnClientData(s.conns[h], d).conn) then [D.ClientData(d), D.ConnectStarted]
        else [D.ClientData(d)]
      case BackendAvailable(a, cs, us) =>
        if h !in cs then []
        else if !a then [D.UpstreamClosed]
        else if Waiting(s.conns[h]) then [D.ConnectStarted]
        else []
      case UpstreamConnectResult(u, ok) =>
        if s.pending == [] || s.pending[0] != h then []
        else if ok then [D.UpstreamConnected]
        else [D.UpstreamFailed]
      case UpstreamData(u, d) => if u in s.up && s.up[u] == h then [D.UpstreamData(d)] else []
      case UpstreamClosed(u) => if u in s.up && s.up[u] == h then [D.UpstreamClosed] else []
      case _ => []
  }

  /** The routing map in force while the event's actions are carried out. */
  ghost function InForce(s: State, e: Event): map<nat, nat>
  {
    if e.UpstreamConnectResult? && e.ok && s.pending != [] then s.up[e.stream := s.pending[0]] else s.up
  }

  /** The fabric actions addressed to connection `h` or to its upstream, read as that connection's own. */
  function Seen(up: map<nat, nat>, acts: seq<Action>, h: nat): seq<C.ConnAction>
  {
    if acts == [] then []
    else SeenOne(up, acts[0], h) + Seen(up, acts[1..], h)
  }

  function SeenOne(up: map<nat, nat>, a: Action, h: nat): seq<C.ConnAction>
  {
    match a
    case DownstreamSend(g, d, o) => if g == h then [C.DownstreamSend(d, o)] else []
    case DownstreamClose(g) => if g == h then [C.DownstreamClose] else []
    case UpstreamSend(u, d, o) => if u in up && up[u] == h then [C.UpstreamSend(d, o)] else []
    case _ => []
  }

  /** The part of a connection's actions that leaves the activator with its address on it. */
  function Visible(acts: seq<C.ConnAction>): seq<C.ConnAction>
  {
    if acts == [] then []
    else VisibleOne(acts[0]) + Visible(acts[1..])
  }

  function VisibleOne(a: C.ConnAction): seq<C.ConnAction>
  {
    if a.DownstreamSend? || a.DownstreamClose? || a.UpstreamSend? then [a] else []
  }

  lemma {:induction false} SeenAppend(up: map<nat, nat>, a: seq<Action>, b: seq<Action>, h: nat)
    ensures Seen(up, a + b, h) == Seen(up, a, h) + Seen(up, b, h)
  {
    if a == [] {
      assert a + b == b;
    } else {
      assert (a + b)[1..] == a[1..] + b;
      SeenAppend(up, a[1..], b, h);
      Associate(SeenOne(up, a[0], h), Seen(up, a[1..], h), Seen(up, b, h));
    }
  }

  lemma {:induction false} VisibleAppend(a: seq<C.ConnAction>, b: seq<C.ConnAction>)
    ensures Visible(a + b) == Visible(a) + Visible(b)
  {
    if a == [] {
      assert a + b == b;
    } else {
      assert (a + b)[1..] == a[1..] + b;
      VisibleAppend(a[1..], b);
      Associate(VisibleOne(a[0]), Visible(a[1..]), Visible(b));
    }
  }

  lemma SeenTranslateOne(up: map<nat, nat>, inForce: map<nat, nat>, g: nat, h: nat, a: C.ConnAction)
    requires !a.UpstreamSend? || (inForce == up && UpstreamOf(up, g).Some?)
    ensures Seen(inForce, Translate(up, g, a), h) == if g == h then Visible([a]) else []
  {
    var first := Translate(up, g, a);
    if |first| == 1 {
      assert Seen(inForce, first, h) == SeenOne(inForce, first[0], h) + Seen(inForce, first[1..], h);
    }
    assert Visible([a][1..]) == [];
  }

  /** Nothing a connection asks for is dropped, misdirected or reordered on its way out. */
  lemma {:induction false} SeenTranslate(up: map<nat, nat>, inForce: map<nat, nat>, g: nat, h: nat,
                                         acts: seq<C.ConnAction>)
    requires W.NoUpstreamSends(acts) || (inForce == up && UpstreamOf(up, g).Some?)
    ensures Seen(inForce, TranslateAll(up, g, acts), h) == if g == h then Visible(acts) else []
  {
    if acts != [] {
      SeenTranslate(up, inForce, g, h, acts[1..]);
      SeenTranslateOne(up, inForce, g, h, acts[0]);
      SeenAppend(inForce, Translate(up, g, acts[0]), TranslateAll(up, g, acts[1..]), h);
      VisibleAppend(acts[..1], acts[1..]);
      assert acts == acts[..1] + acts[1..] && acts[..1] == [acts[0]];
    }
  }

  predicate Unaddressed(acts: seq<Action>)
  {
    forall i :: 0 <= i < |acts| ==>
                  !acts[i].DownstreamSend? && !acts[i].DownstreamClose? && !acts[i].UpstreamSend?
  }

  lemma {:induction false} SeenUnaddressed(up: map<nat, nat>, acts: seq<Action>, h: nat)
    requires Unaddressed(acts)
    ensures Seen(up, acts, h) == []
  {
    if acts != [] {
      SeenUnaddressed(up, acts[1..], h);
    }
  }

  lemma {:induction false} ConnectsUnaddressed(n: nat)
    ensures Unaddressed(Connects(n))
  {
    if n > 0 {
      ConnectsUnaddressed(n - 1);
    }
  }

  lemma {:induction false} CloseUpstreamsUnaddressed(us: seq<nat>)
    ensures Unaddressed(CloseUpstreams(us))
  {
    if us != [] {
      CloseUpstreamsUnaddressed(us[1..]);
    }
  }

  // ---------------------------------------------------------------------
  // One event
  // ---------------------------------------------------------------------

  /** The step `s -> out` is, for connection `h`, exactly the inputs `route`. */
  ghost predicate Projects(s: State, e: Event, out: Out, h: nat, route: seq<D.ConnEvent>)
    requires h in s.conns
  {
    var alone := D.RunFrom(s.conns[h], route);
    && (h in out.state.conns ==> out.state.conns[h] == alone.conn)
    && Seen(InForce(s, e), out.actions, h) == Visible(alone.actions)
  }

  lemma RunOne(c: Conn, e: D.ConnEvent)
    ensures D.RunFrom(c, [e]) == D.Apply(c, e)
  {
    D.RunWithOne(D.Applier(), c, e);
  }

  lemma RunTwo(c: Conn, e: D.ConnEvent)
    ensures D.RunFrom(c, [e, D.ConnectStarted]).conn == C.SetUpstream(D.Apply(c, e).conn, C.Connecting)
    ensures D.RunFrom(c, [e, D.ConnectStarted]).actions == D.Apply(c, e).actions
  {
    D.RunWithTwo(D.Applier(), c, e, D.ConnectStarted);
  }

  /** A committed call, followed by actions that address nobody. */
  lemma CommitProjects(s: State, e: Event, g: nat, o: C.ConnOutcome, tail: seq<Action>, h: nat)
    requires W.NoUpstreamSends(o.actions) || (InForce(s, e) == s.up && UpstreamOf(s.up, g).Some?)
    requires Unaddressed(tail)
    ensures Seen(InForce(s, e), Commit(s, g, o).actions + tail, h) == if g == h then Visible(o.actions) else []
  {
    SeenTranslate(s.up, InForce(s, e), g, h, o.actions);
    SeenAppend(InForce(s, e), Commit(s, g, o).actions, tail, h);
    SeenUnaddressed(InForce(s, e), tail, h);
  }

  lemma StreamDataProjects(s: State, g: nat, d: seq<Byte>, h: nat)
    requires Linked(s) && h in s.conns && g in s.conns
    ensures Projects(s, StreamData(g, d), OnStreamData(s, g, d), h, Route(s, StreamData(g, d), h))
  {
    var o := C.OnClientData(s.conns[g], d);
    var out := OnStreamData(s, g, d);
    StreamDataSeen(s, g, d, h);
    if g == h {
      RunOne(s.conns[h], D.ClientData(d));
      RunTwo(s.conns[h], D.ClientData(d));
      assert out.state.conns[h]
             == if s.available && Waiting(o.conn) then C.SetUpstream(o.conn, C.Connecting) else o.conn;
    }
  }

  lemma StreamDataSeen(s: State, g: nat, d: seq<Byte>, h: nat)
    requires Linked(s) && g in s.conns
    ensures Seen(s.up, OnStreamData(s, g, d).actions, h)
            == if g == h then Visible(C.OnClientData(s.conns[g], d).actions) else []
  {
    var o := C.OnClientData(s.conns[g], d);
    var mid := Commit(s, g, o);
    var n := if s.available && Waiting(o.conn) then 1 else 0;
    var need := NeedTransition(s.total, mid.state.total);
    W.ClientDataQuiet(s.conns[g], d);
    ConnectsUnaddressed(n);
    assert Unaddressed(Connects(n) + need);
    CommitProjects(s, StreamData(g, d), g, o, Connects(n) + need, h);
  }

  lemma {:induction false} SeenCloseConns(s: State, order: seq<nat>, up: map<nat, nat>, h: nat)
    requires NoDuplicates(order)
    ensures Seen(up, CloseConns(s, order).actions, h)
            == if h in order && h in s.conns then Visible(C.OnUpstreamClosed(s.conns[h]).actions) else []
    decreases |order|
  {
    if order != [] {
      assert order == [order[0]] + order[1..];
      assert order[0] !in order[1..];
      if order[0] in s.conns {
        var o := C.OnUpstreamClosed(s.conns[order[0]]);
        var first := Commit(s, order[0], o);
        W.GoneQuiet(s.conns[order[0]]);
        SeenTranslate(s.up, up, order[0], h, o.actions);
        SeenCloseConns(first.state, order[1..], up, h);
        SeenAppend(up, first.actions, CloseConns(first.state, order[1..]).actions, h);
      } else {
        SeenCloseConns(s, order[1..], up, h);
      }
    }
  }

  lemma BackendUpProjects(s: State, cs: seq<nat>, us: seq<nat>, h: nat)
    requires Linked(s) && h in s.conns && Fresh(s, BackendAvailable(true, cs, us))
    ensures var e := BackendAvailable(true, cs, us); Projects(s, e, Step(s, e), h, Route(s, e, h))
  {
    var handles := WaitingIn(s.conns, cs);
    WaitingInSpec(s.conns, cs);
    ConnectsUnaddressed(|handles|);
    SeenUnaddressed(s.up, Connects(|handles|), h);
    RunOne(s.conns[h], D.ConnectStarted);
  }

  lemma BackendDownSeen(s: State, cs: seq<nat>, us: seq<nat>, h: nat)
    requires h in s.conns && NoDuplicates(cs) && h in cs
    ensures Seen(s.up, OnBackendAvailable(s, false, cs, us).actions, h)
            == Visible(C.OnUpstreamClosed(s.conns[h]).actions)
  {
    var s1 := s.(available := false);
    var closed := CloseConns(s1, cs);
    var need := NeedTransition(s.total, closed.state.total);
    SeenCloseConns(s1, cs, s.up, h);
    CloseUpstreamsUnaddressed(us);
    SeenUnaddressed(s.up, CloseUpstreams(us), h);
    SeenUnaddressed(s.up, need, h);
    SeenAppend(s.up, closed.actions, CloseUpstreams(us), h);
    SeenAppend(s.up, closed.actions + CloseUpstreams(us), need, h);
  }

  lemma BackendDownState(s: State, cs: seq<nat>, us: seq<nat>, h: nat)
    requires h in s.conns && h in cs
    ensures var s' := OnBackendAvailable(s, false, cs, us).state;
            h in s'.conns && s'.conns[h] == C.OnUpstreamClosed(s.conns[h]).conn
  {
    CloseConnsState(s.(available := false), cs);
  }

  lemma ProjectsOne(s: State, e: Event, out: Out, h: nat, input: D.ConnEvent)
    requires h in s.conns
    requires h in out.state.conns ==> out.state.conns[h] == D.Apply(s.conns[h], input).conn
    requires Seen(InForce(s, e), out.actions, h) == Visible(D.Apply(s.conns[h], input).actions)
    ensures Projects(s, e, out, h, [input])
  {
    RunOne(s.conns[h], input);
  }

  lemma ProjectsNone(s: State, e: Event, out: Out, h: nat)
    requires h in s.conns
    requires h in out.state.conns ==> out.state.conns[h] == s.conns[h]
    requires Seen(InForce(s, e), out.actions, h) == []
    ensures Projects(s, e, out, h, [])
  {
  }

  lemma ProjectsClosed(s: State, e: Event, out: Out, h: nat)
    requires h in s.conns && e.BackendAvailable?
    requires h in out.state.conns ==> out.state.conns[h] == C.OnUpstreamClosed(s.conns[h]).conn
    requires Seen(s.up, out.actions, h) == Visible(C.OnUpstreamClosed(s.conns[h]).actions)
    ensures Projects(s, e, out, h, [D.UpstreamClosed])
  {
    ProjectsOne(s, e, out, h, D.UpstreamClosed);
  }

  lemma BackendDownProjects(s: State, cs: seq<nat>, us: seq<nat>, h: nat)
    requires h in s.conns && Fresh(s, BackendAvailable(false, cs, us))
    ensures Projects(s, BackendAvailable(false, cs, us), OnBackendAvailable(s, false, cs, us), h, [D.UpstreamClosed])
  {
    BackendDownState(s, cs, us, h);
    BackendDownSeen(s, cs, us, h);
    ProjectsClosed(s, BackendAvailable(false, cs, us), OnBackendAvailable(s, false, cs, us), h);
  }

  lemma ConnectOkProjects(s: State, u: nat, h: nat)
    requires Linked(s) && h in s.conns && s.pending != []
    ensures var e := UpstreamConnectResult(u, true);
            Projects(s, e, OnConnectResult(s, u, true), h, if s.pending[0] == h then [D.UpstreamConnected] else [])
  {
    var e := UpstreamConnectResult(u, true);
    var g := s.pending[0];
    var o := C.OnUpstreamConnected(s.conns[g]);
    var up := s.up[u := g];
    assert u in up && up[u] == g;
    SeenTranslate(up, up, g, h, o.actions);
    if g == h {
      ProjectsOne(s, e, OnConnectResult(s, u, true), h, D.UpstreamConnected);
    } else {
      ProjectsNone(s, e, OnConnectResult(s, u, true), h);
    }
  }

  lemma ConnectFailedProjects(s: State, u: nat, h: nat)
    requires Linked(s) && h in s.conns && s.pending != []
    ensures var e := UpstreamConnectResult(u, false);
            Projects(s, e, OnConnectResult(s, u, false), h, if s.pending[0] == h then [D.UpstreamFailed] else [])
  {
    var e := UpstreamConnectResult(u, false);
    var g := s.pending[0];
    var o := C.OnUpstreamFailed(s.conns[g]);
    var popped := s.(pending := s.pending[1..]);
    W.GoneQuiet(s.conns[g]);
    CommitProjects(popped, Tick, g, o, NeedTransition(s.total, Commit(popped, g, o).state.total), h);
    if g == h {
      ProjectsOne(s, e, OnConnectResult(s, u, false), h, D.UpstreamFailed);
    } else {
      ProjectsNone(s, e, OnConnectResult(s, u, false), h);
    }
  }

  lemma ConnectResultProjects(s: State, u: nat, ok: bool, h: nat)
    requires Linked(s) && h in s.conns
    ensures var e := UpstreamConnectResult(u, ok); Projects(s, e, OnConnectResult(s, u, ok), h, Route(s, e, h))
  {
    if s.pending == [] {
      SeenUnaddressed(s.up, [UpstreamClose(u)], h);
    } else if ok {
      ConnectOkProjects(s, u, h);
    } else {
      ConnectFailedProjects(s, u, h);
    }
  }

  lemma UpstreamDataProjects(s: State, u: nat, d: seq<Byte>, h: nat)
    requires Linked(s) && h in s.conns && u in s.up
    ensures Projects(s, UpstreamData(u, d), OnUpstreamData(s, u, d), h, Route(s, UpstreamData(u, d), h))
  {
    var g := s.up[u];
    var o := C.OnUpstreamData(s.conns[g], d);
    CommitSeen(s.up, s, g, o, h);
    RoutedProjects(s, UpstreamData(u, d), CommitWithNeed(s, g, o), g, o, D.UpstreamData(d), h);
  }

  /** What is seen of a connection call whose actions are carried out with the routes `inForce` in view. */
  lemma CommitSeen(inForce: map<nat, nat>, s: State, g: nat, o: C.ConnOutcome, h: nat)
    requires W.NoUpstreamSends(o.actions) || (inForce == s.up && UpstreamOf(s.up, g).Some?)
    ensures Seen(inForce, CommitWithNeed(s, g, o).actions, h) == if g == h then Visible(o.actions) else []
  {
    var need := NeedTransition(s.total, Commit(s, g, o).state.total);
    SeenTranslate(s.up, inForce, g, h, o.actions);
    SeenUnaddressed(inForce, need, h);
    SeenAppend(inForce, TranslateAll(s.up, g, o.actions), need, h);
    assert Visible(o.actions) + [] == Visible(o.actions);
  }

  /** A step that is one input to connection `g` is that for `g` and nothing for the others. */
  lemma RoutedProjects(s: State, e: Event, out: Out, g: nat, o: C.ConnOutcome, input: D.ConnEvent, h: nat)
    requires g in s.conns && h in s.conns && out.state.conns == s.conns[g := o.conn] && o == D.Apply(s.conns[g], input)
    requires Seen(InForce(s, e), out.actions, h) == if g == h then Visible(o.actions) else []
    ensures Projects(s, e, out, h, if g == h then [input] else [])
  {
    if g == h {
      ProjectsOne(s, e, out, h, input);
    } else {
      ProjectsNone(s, e, out, h);
    }
  }

  lemma UpstreamClosedProjects(s: State, u: nat, h: nat)
    requires Linked(s) && h in s.conns && u in s.up
    ensures Projects(s, UpstreamClosed(u), OnUpstreamClosed(s, u), h, Route(s, UpstreamClosed(u), h))
  {
    var g := s.up[u];
    var o := C.OnUpstreamClosed(s.conns[g]);
    var unmapped := s.(up := s.up - {u});
    W.GoneQuiet(s.conns[g]);
    CommitSeen(s.up, unmapped, g, o, h);
    RoutedProjects(s, UpstreamClosed(u), CommitWithNeed(unmapped, g, o), g, o, D.UpstreamClosed, h);
  }

  /** One event is, for each connection alive before it, exactly the inputs routed to that connection. */
  lemma StepProjects(s: State, e: Event, h: nat)
    requires Linked(s) && Fresh(s, e) && h in s.conns
    ensures Projects(s, e, Step(s, e), h, Route(s, e, h))
  {
    match e
    case StreamData(g, d) =>
      if g in s.conns {
        StreamDataProjects(s, g, d, h);
      }
    case StreamClose(g) =>
      SeenUnaddressed(s.up, Step(s, e).actions, h);
    case BackendAvailable(a, cs, us) =>
      if a {
        BackendUpProjects(s, cs, us, h);
      } else {
        BackendDownProjects(s, cs, us, h);
      }
    case UpstreamConnectResult(u, ok) =>
      ConnectResultProjects(s, u, ok, h);
    case UpstreamData(u, d) =>
      if u in s.up {
        UpstreamDataProjects(s, u, d, h);
      }
    case UpstreamClosed(u) =>
      if u in s.up {
        UpstreamClosedProjects(s, u, h);
      }
    case _ =>
  }

  lemma ConnsAfterStep(s: State, e: Event, h: nat)
    requires Linked(s) && Fresh(s, e) && h in Step(s, e).state.conns
    ensures h in s.conns || e == StreamOpen(h)
  {
    if e.BackendAvailable? {
      CloseConnsState(s.(available := e.available), e.connOrder);
    }
  }

  lemma RoutesAfterStep(s: State, e: Event, u: nat)
    requires u in Step(s, e).state.up
    ensures u in s.up || e == UpstreamConnectResult(u, true)
  {
    if e.BackendAvailable? {
      CloseConnsState(s.(available := e.available), e.connOrder);
    }
  }

  // ---------------------------------------------------------------------
  // Runs
  // ---------------------------------------------------------------------

  /** The inputs connection `h` has had since its handle was last opened. */
  ghost function Life(es: seq<Event>, h: nat): seq<D.ConnEvent>
  {
    if es == [] || es[|es| - 1] == StreamOpen(h) then []
    else Life(es[..|es| - 1], h) + Route(Run(es[..|es| - 1]).state, es[|es| - 1], h)
  }

  /** What left the activator for connection `h` or its upstream since its handle was last opened. */
  ghost function SeenBy(es: seq<Event>, h: nat): seq<C.ConnAction>
  {
    if es == [] || es[|es| - 1] == StreamOpen(h) then []
    else
      var s, e := Run(es[..|es| - 1]).state, es[|es| - 1];
      SeenBy(es[..|es| - 1], h) + Seen(InForce(s, e), Step(s, e).actions, h)
  }

  /**
   * On every run with fresh handles, a live connection is in the state it would have reached alone on its
   * own inputs, and exactly what it would have emitted alone has been emitted for it.
   */
  lemma {:induction false} ActivatorIsProduct(es: seq<Event>, h: nat)
    requires FreshRun(es) && h in Run(es).state.conns
    ensures Run(es).state.conns[h] == D.Run(Life(es, h)).conn
    ensures SeenBy(es, h) == Visible(D.Run(Life(es, h)).actions)
  {
    if es[|es| - 1] != StreamOpen(h) {
      var init, e := es[..|es| - 1], es[|es| - 1];
      var s := Run(init).state;
      LinkedOnEveryRun(init);
      ConnsAfterStep(s, e, h);
      ActivatorIsProduct(init, h);
      StepProjects(s, e, h);
      D.RunWithAppend(D.Applier(), C.NEW_CONN, Life(init, h), Route(s, e, h));
      VisibleAppend(D.Run(Life(init, h)).actions, D.RunFrom(s.conns[h], Route(s, e, h)).actions);
    }
  }

  // --- At most one upstream per connection life ---

  ghost predicate LifeInv(s: State, life: seq<D.ConnEvent>, h: nat)
    requires h in s.conns
  {
    && W.OneUpstream(life)
    && (W.HasConnect(life) ==> h !in s.pending && !s.conns[h].core.upstream.NoUpstream?)
    && (HasUpstream(s.conns[h]) ==> W.HasConnect(life))
  }

  lemma OneUpstreamAppend(life: seq<D.ConnEvent>, route: seq<D.ConnEvent>)
    requires W.OneUpstream(life) && |route| <= 2
    requires |route| == 2 ==> route[1] == D.ConnectStarted
    requires |route| > 0 ==> (route[0].UpstreamConnected? ==> !W.HasConnect(life))
                             && (route[0].UpstreamData? ==> W.HasConnect(life))
    ensures W.OneUpstream(life + route)
    ensures W.HasConnect(life + route) <==> W.HasConnect(life) || (|route| > 0 && route[0].UpstreamConnected?)
  {
    var all := life + route;
    forall i | 0 <= i < |all|
      ensures (all[i].UpstreamConnected? ==> !W.HasConnect(all[..i]))
              && (all[i].UpstreamData? ==> W.HasConnect(all[..i]))
    {
      if i < |life| {
        assert all[..i] == life[..i];
      } else if i == |life| {
        assert all[..i] == life;
      }
    }
    if W.HasConnect(life) {
      var i :| 0 <= i < |life| && life[i].UpstreamConnected?;
      assert all[i].UpstreamConnected?;
    }
    if |route| > 0 && route[0].UpstreamConnected? {
      assert all[|life|].UpstreamConnected?;
    }
  }

  lemma LifeStep(s: State, e: Event, life: seq<D.ConnEvent>, h: nat)
    requires Linked(s) && Fresh(s, e) && h in s.conns && h in Step(s, e).state.conns && e != StreamOpen(h)
    requires LifeInv(s, life, h)
    ensures LifeInv(Step(s, e).state, life + Route(s, e, h), h)
  {
    var route := Route(s, e, h);
    OneUpstreamAppend(life, route);
    StepProjects(s, e, h);
    StepQueue(s, e, h);
    RouteUpstreamState(s.conns[h], route);
    if |route| > 0 && route[0].UpstreamConnected? {
      RunOne(s.conns[h], D.UpstreamConnected);
    }
  }

  /** A connection joins the queue only when it has had no upstream, and leaves it when one is connected. */
  lemma StepQueue(s: State, e: Event, h: nat)
    requires Linked(s) && Fresh(s, e) && h in s.conns
    ensures h in Step(s, e).state.pending ==> h in s.pending || s.conns[h].core.upstream.NoUpstream?
    ensures var route := Route(s, e, h);
            |route| > 0 && route[0].UpstreamConnected? ==> h in s.pending && h !in Step(s, e).state.pending
  {
    match e
    case StreamData(g, d) =>
      if g in s.conns {
        W.ClientDataQuiet(s.conns[g], d);
      }
    case StreamClose(g) =>
      WithoutMembers(s.pending, g);
    case BackendAvailable(a, cs, us) =>
      WaitingInSpec(s.conns, cs);
      CloseConnsState(s.(available := a), cs);
    case _ =>
  }

  /** What one input does to a connection's upstream state. */
  lemma ApplyUpstreamState(c: Conn, e: D.ConnEvent)
    ensures var c' := D.Apply(c, e).conn;
            && (c'.core.upstream.NoUpstream? ==> c.core.upstream.NoUpstream?)
            && (HasUpstream(c') ==> HasUpstream(c) || e.UpstreamConnected?)
  {
    match e
    case ClientData(d) => W.ClientDataQuiet(c, d);
    case UpstreamData(d) => UpstreamDataKeepsLink(c, d);
    case _ =>
  }

  lemma RouteUpstreamState(c: Conn, route: seq<D.ConnEvent>)
    requires |route| <= 2 && (|route| == 2 ==> route[1] == D.ConnectStarted)
    ensures var c' := D.RunFrom(c, route).conn;
            && (c'.core.upstream.NoUpstream? ==> c.core.upstream.NoUpstream?)
            && (HasUpstream(c') ==> HasUpstream(c) || (|route| > 0 && route[0].UpstreamConnected?))
  {
    if |route| > 0 {
      ApplyUpstreamState(c, route[0]);
      if |route| == 1 {
        assert route == [route[0]];
        RunOne(c, route[0]);
      } else {
        assert route == [route[0], D.ConnectStarted];
        RunTwo(c, route[0]);
      }
    }
  }

  lemma {:induction false} OneUpstreamPerLife(es: seq<Event>, h: nat)
    requires FreshRun(es) && h in Run(es).state.conns
    ensures LifeInv(Run(es).state, Life(es, h), h)
  {
    var init, e := es[..|es| - 1], es[|es| - 1];
    var s := Run(init).state;
    LinkedOnEveryRun(init);
    if e == StreamOpen(h) {
      assert h !in s.pending;
    } else {
      ConnsAfterStep(s, e, h);
      OneUpstreamPerLife(init, h);
      LifeStep(s, e, Life(init, h), h);
    }
  }

  // ---------------------------------------------------------------------
  // The laws of one connection, end to end
  // ---------------------------------------------------------------------

  lemma {:induction false} VisibleKeeps(acts: seq<C.ConnAction>)
    ensures D.ClientSends(Visible(acts)) == D.ClientSends(acts)
    ensures W.DownBytes(Visible(acts)) == W.DownBytes(acts)
    ensures W.UpBytes(Visible(acts)) == W.UpBytes(acts)
  {
    if acts != [] {
      VisibleKeeps(acts[1..]);
      var tail := Visible(acts[1..]);
      assert ([acts[0]] + tail)[1..] == tail;
      assert Visible(acts) == [acts[0]] + tail || Visible(acts) == tail;
    }
  }

  /**
   * On every run with fresh handles, for every live connection: the client frames handed to its upstream
   * followed by those still buffered are exactly what the client's bytes owe the backend, in order.
   */
  lemma DeliveryEndToEnd(es: seq<Event>, h: nat)
    requires FreshRun(es) && h in Run(es).state.conns
    ensures D.ClientSends(SeenBy(es, h)) + Run(es).state.conns[h].core.buffered
            == D.Owed(D.LedgerOf(Life(es, h)).clientBytes)
  {
    ActivatorIsProduct(es, h);
    D.ClientFramesConserved(Life(es, h));
    VisibleKeeps(D.Run(Life(es, h)).actions);
  }

  /**
   * On every run with fresh handles, for every live connection: the bytes sent to the client are complete
   * frames with no remainder, and its one upstream hears nothing, or the preface and then complete frames.
   */
  lemma FramingEndToEnd(es: seq<Event>, h: nat)
    requires FreshRun(es) && h in Run(es).state.conns
    ensures F.IsFramed(W.DownBytes(SeenBy(es, h)))
    ensures W.UpBytes(SeenBy(es, h)) == [] || W.PrefaceThenFrames(W.UpBytes(SeenBy(es, h)))
  {
    ActivatorIsProduct(es, h);
    OneUpstreamPerLife(es, h);
    W.DownstreamIsFramed(Life(es, h));
    W.UpstreamIsFramed(Life(es, h));
    VisibleKeeps(D.Run(Life(es, h)).actions);
  }

  lemma {:induction false} VisiblePicked<T>(pick: C.ConnAction -> seq<T>, acts: seq<C.ConnAction>)
    requires forall a :: VisibleOne(a) == [] ==> pick(a) == []
    ensures H.Picked(pick, Visible(acts)) == H.Picked(pick, acts)
  {
    if acts != [] {
      VisiblePicked(pick, acts[1..]);
      H.PickedAppend(pick, VisibleOne(acts[0]), Visible(acts[1..]));
      H.PickedOne(pick, acts[0]);
    }
  }

  /**
   * On every run with fresh handles, for every live connection: the client has been sent exactly the backend's frames
   * that do not end at the proxy, in order, and the proxy's own greeting, answers and notices; and its one upstream
   * has been sent the proxy's greeting and answers.
   */
  lemma RepliesEndToEnd(es: seq<Event>, h: nat)
    requires FreshRun(es) && h in Run(es).state.conns
    ensures var l := D.LedgerOf(Life(es, h));
            && H.BackendSends(SeenBy(es, h)) == D.Forwardable(F.CutFrames(l.backendBytes).frames)
            && H.ProxyToClient(SeenBy(es, h)) == H.ClientHears(l.clientBytes) + H.Notices(Life(es, h))
            && H.ProxyToBackend(SeenBy(es, h))
               == if W.HasConnect(Life(es, h)) then [H.HELLO] + H.Answers(F.CutFrames(l.backendBytes).frames) else []
  {
    ActivatorIsProduct(es, h);
    OneUpstreamPerLife(es, h);
    H.BackendFramesRelayed(Life(es, h));
    H.ClientIsAnswered(Life(es, h));
    H.BackendIsAnswered(Life(es, h));
    VisibleHeard(D.Run(Life(es, h)).actions);
  }

  lemma VisibleHeard(acts: seq<C.ConnAction>)
    ensures H.BackendSends(Visible(acts)) == H.BackendSends(acts)
    ensures H.ProxyToClient(Visible(acts)) == H.ProxyToClient(acts)
    ensures H.ProxyToBackend(Visible(acts)) == H.ProxyToBackend(acts)
  {
    VisiblePicked(H.BackendSend, acts);
    VisiblePicked(H.ToClient, acts);
    VisiblePicked(H.ToBackend, acts);
  }

  /**
   * On every run with fresh handles, for every live connection: its upstream is in the state that its own inputs lead
   * to, and once that is ready, every frame owed to the backend has been handed to it.
   */
  lemma HandshakesEndToEnd(es: seq<Event>, h: nat)
    requires FreshRun(es) && h in Run(es).state.conns
    ensures var c, life := Run(es).state.conns[h].core, Life(es, h);
            && c.upstream == K.UpstreamAfter(life) && c.phase == K.PhaseAfter(D.LedgerOf(life))
            && (K.UpstreamAfter(life).Ready? ==> D.ClientSends(SeenBy(es, h)) == D.Owed(D.LedgerOf(life).clientBytes))
  {
    ActivatorIsProduct(es, h);
    K.HandshakesOnEveryRun(Life(es, h));
    VisibleKeeps(D.Run(Life(es, h)).actions);
  }

  /**
   * On every run with fresh handles, for every live connection: each stream in its table is what that stream's
   * own state machine makes of the frames of both byte streams.
   */
  lemma StreamsEndToEnd(es: seq<Event>, h: nat, id: nat)
    requires FreshRun(es) && h in Run(es).state.conns
    ensures B.Find(Run(es).state.conns[h].core.streams, id)
            == B.TrackRun(B.Track(None, false), id, S.Arrivals(Life(es, h))).stream
  {
    ActivatorIsProduct(es, h);
    S.StreamTableOnEveryRun(Life(es, h), id);
  }
}
