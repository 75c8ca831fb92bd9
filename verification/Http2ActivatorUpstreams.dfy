/**
 * The life of an upstream: one is asked for whenever frames wait for it and the backend is there, and each one that
 * was connected is mapped until it ends or the activator closes it, once.
 */
module Http2ActivatorUpstreams {
  import opened Common
  import C = Http2Connection
  import F = Http2Frames
  import W = Http2Framing
  import opened Http2Activator
  import opened Http2ActivatorRouting

  // ---------------------------------------------------------------------
  // Closes
  // ---------------------------------------------------------------------

  /** How often the actions close upstream `u`. */
  function Closes(acts: seq<Action>, u: nat): nat
  {
    if acts == [] then 0 else (if acts[0] == UpstreamClose(u) then 1 else 0) + Closes(acts[1..], u)
  }

  lemma {:induction false} ClosesAppend(a: seq<Action>, b: seq<Action>, u: nat)
    ensures Closes(a + b, u) == Closes(a, u) + Closes(b, u)
  {
    if a == [] {
      assert a + b == b;
    } else {
      assert (a + b)[1..] == a[1..] + b;
      ClosesAppend(a[1..], b, u);
    }
  }

  lemma {:induction false} ClosesIsMultiplicity(acts: seq<Action>, u: nat)
    ensures Closes(acts, u) == multiset(acts)[UpstreamClose(u)]
  {
    if acts != [] {
      ClosesIsMultiplicity(acts[1..], u);
      assert acts == [acts[0]] + acts[1..];
    }
  }

  predicate NoCloses(acts: seq<Action>) { forall i :: 0 <= i < |acts| ==> !acts[i].UpstreamClose? }

  lemma {:induction false} NoneClosed(acts: seq<Action>, u: nat)
    requires NoCloses(acts)
    ensures Closes(acts, u) == 0
  {
    if acts != [] {
      NoneClosed(acts[1..], u);
    }
  }

  lemma ThenNone(a: seq<Action>, b: seq<Action>, u: nat)
    requires NoCloses(b)
    ensures Closes(a + b, u) == Closes(a, u)
  {
    ClosesAppend(a, b, u);
    NoneClosed(b, u);
  }

  /** A connection never asks for its upstream to be closed. */
  predicate Keeps(acts: seq<C.ConnAction>) { forall i :: 0 <= i < |acts| ==> !acts[i].UpstreamClose? }

  lemma {:induction false} TranslateKeeps(up: map<nat, nat>, h: nat, acts: seq<C.ConnAction>)
    requires Keeps(acts)
    ensures NoCloses(TranslateAll(up, h, acts))
  {
    if acts != [] {
      TranslateKeeps(up, h, acts[1..]);
    }
  }

  lemma {:induction false} SendsKeep(frames: seq<seq<Byte>>)
    ensures Keeps(C.Sends(frames))
  {
    if frames != [] {
      SendsKeep(frames[1..]);
    }
  }

  lemma ReceiveKeeps(side: C.Side, c: C.Core, raw: F.RawFrame)
    ensures Keeps(C.Receive(side, c, raw).actions)
  {
    SendsKeep(c.buffered);
    if side.FromClient? {
      ClientFrameKeeps(c, F.DecodeFrame(raw), raw);
    } else {
      BackendFrameKeeps(c, F.DecodeFrame(raw), raw);
    }
  }

  lemma TableKeeps(c: C.Core, f: F.Frame, byClient: bool, raw: seq<Byte>)
    ensures Keeps(C.EndIfFlagged(c, f, byClient).actions) && Keeps(C.OpenStream(c, f.streamId).actions)
    ensures Keeps(C.ResetStream(c, f.streamId).actions) && Keeps(C.BufferOrForward(c, raw).actions)
    ensures Keeps(C.ClientCredit(f)) && Keeps(C.UpstreamCredit(f))
  {
  }

  lemma HeadersKeep(c: C.Core, f: F.Frame, raw: seq<Byte>)
    requires f.frameType.Headers?
    ensures Keeps(C.HandleClientFrame(c, f, raw).actions)
  {
    var started := C.OpenStream(c, f.streamId).core;
    TableKeeps(c, f, true, raw);
    TableKeeps(started, f, true, raw);
    TableKeeps(C.EndIfFlagged(started, f, true).core, f, true, raw);
  }

  lemma ClientFrameKeeps(c: C.Core, f: F.Frame, raw: seq<Byte>)
    ensures Keeps(C.HandleClientFrame(c, f, raw).actions)
  {
    TableKeeps(c, f, true, raw);
    match f.frameType
    case Headers => HeadersKeep(c, f, raw);
    case Data => TableKeeps(C.EndIfFlagged(c, f, true).core, f, true, raw);
    case RstStream => TableKeeps(C.ResetStream(c, f.streamId).core, f, true, raw);
    case Goaway => TableKeeps(c.(phase := C.Closing), f, true, raw);
    case _ =>
  }

  lemma BackendFrameKeeps(c: C.Core, f: F.Frame, raw: seq<Byte>)
    ensures Keeps(C.HandleUpstreamFrame(c, f, raw).actions)
  {
    SendsKeep(c.buffered);
    TableKeeps(c, f, false, raw);
    match f.frameType
    case Settings => assert Keeps(C.BecomeReady(c).actions) && Keeps(C.BecomeReady(c.(upstreamAcked := true)).actions);
    case _ =>
  }

  lemma {:induction false} ReceiveAllKeeps(side: C.Side, c: C.Core, raws: seq<F.RawFrame>)
    ensures Keeps(C.ReceiveAll(side, c, raws).actions)
    decreases |raws|
  {
    if raws != [] {
      ReceiveKeeps(side, c, raws[0]);
      ReceiveAllKeeps(side, C.Receive(side, c, raws[0]).core, raws[1..]);
    }
  }

  lemma ClientDataKeeps(c: Conn, d: seq<Byte>)
    ensures Keeps(C.OnClientData(c, d).actions)
  {
    var buf := c.recvBuf + d;
    if !c.core.phase.AwaitingPreface? {
      ReceiveAllKeeps(C.FromClient, c.core, F.CutFrames(buf).frames);
    } else if |buf| >= |F.CLIENT_PREFACE| {
      ReceiveAllKeeps(C.FromClient, c.core.(phase := C.Handshaking), F.CutFrames(buf[|F.CLIENT_PREFACE|..]).frames);
    }
  }

  lemma UpstreamDataKeeps(c: Conn, d: seq<Byte>)
    ensures Keeps(C.OnUpstreamData(c, d).actions)
  {
    ReceiveAllKeeps(C.FromBackend, c.core, F.CutFrames(c.upstreamRecvBuf + d).frames);
  }

  lemma {:induction false} CloseAllKeeps(n: nat)
    ensures Keeps(C.CloseAll(n))
  {
    if n > 0 {
      CloseAllKeeps(n - 1);
    }
  }

  lemma GoneKeeps(c: Conn)
    ensures Keeps(C.OnUpstreamClosed(c).actions) && Keeps(C.OnUpstreamFailed(c).actions)
    ensures Keeps(C.OnUpstreamConnected(c).actions)
  {
    CloseAllKeeps(|c.core.streams|);
  }

  lemma CommitKeeps(s: State, h: nat, o: C.ConnOutcome)
    requires Keeps(o.actions)
    ensures NoCloses(Commit(s, h, o).actions) && NoCloses(CommitWithNeed(s, h, o).actions)
  {
    TranslateKeeps(s.up, h, o.actions);
  }

  lemma {:induction false} CloseConnsKeeps(s: State, order: seq<nat>)
    ensures NoCloses(CloseConns(s, order).actions)
    decreases |order|
  {
    if order != [] {
      if order[0] in s.conns {
        var o := C.OnUpstreamClosed(s.conns[order[0]]);
        GoneKeeps(s.conns[order[0]]);
        CommitKeeps(s, order[0], o);
        CloseConnsKeeps(Commit(s, order[0], o).state, order[1..]);
      } else {
        CloseConnsKeeps(s, order[1..]);
      }
    }
  }

  lemma {:induction false} CloseUpstreamsCounts(us: seq<nat>, u: nat)
    requires NoDuplicates(us)
    ensures Closes(CloseUpstreams(us), u) == if u in us then 1 else 0
  {
    if us != [] {
      assert us == [us[0]] + us[1..] && us[0] !in us[1..];
      CloseUpstreamsCounts(us[1..], u);
    }
  }

  lemma {:induction false} ConnectsKeep(n: nat)
    ensures NoCloses(Connects(n))
  {
    if n > 0 {
      ConnectsKeep(n - 1);
    }
  }

  // ---------------------------------------------------------------------
  // One event
  // ---------------------------------------------------------------------

  /** The event takes a mapped upstream away: its client closes, or the backend goes. */
  predicate Withdraws(s: State, e: Event, u: nat)
  {
    u in s.up && (e == StreamClose(s.up[u]) || (e.BackendAvailable? && !e.available))
  }

  /** The event answers a connect with a connected upstream. */
  predicate Maps(s: State, e: Event, u: nat) { e == UpstreamConnectResult(u, true) && s.pending != [] }

  /** The event answers a connect that nobody waits for any more. */
  predicate Stray(s: State, e: Event, u: nat) { e.UpstreamConnectResult? && e.stream == u && s.pending == [] }

  /** What one event does to the routing map and to upstream `u`. */
  ghost predicate RoutedExactly(s: State, e: Event, u: nat, out: Out)
  {
    && (u in out.state.up <==> Maps(s, e, u) || (u in s.up && e != UpstreamClosed(u) && !Withdraws(s, e, u)))
    && (u in out.state.up ==> out.state.up[u] == if Maps(s, e, u) then s.pending[0] else s.up[u])
    && Closes(out.actions, u) == if Withdraws(s, e, u) || Stray(s, e, u) then 1 else 0
  }

  lemma StreamDataRouted(s: State, h: nat, d: seq<Byte>, u: nat)
    ensures RoutedExactly(s, StreamData(h, d), u, OnStreamData(s, h, d))
  {
    if h in s.conns {
      var o := C.OnClientData(s.conns[h], d);
      var out := Commit(s, h, o);
      var handles := if s.available && Waiting(out.state.conns[h]) then [h] else [];
      ClientDataKeeps(s.conns[h], d);
      CommitKeeps(s, h, o);
      ConnectsKeep(|handles|);
      NoneClosed(OnStreamData(s, h, d).actions, u);
    }
  }

  lemma StreamCloseRouted(s: State, h: nat, u: nat)
    requires Linked(s)
    ensures RoutedExactly(s, StreamClose(h), u, OnStreamClose(s, h))
  {
    var v := UpstreamOf(s.up, h);
    if u in s.up && s.up[u] == h {
      UpstreamOfUnique(s.up, u);
    }
    if h in s.conns {
      var close := if v.Some? then [UpstreamClose(v.value)] else [];
      var need := NeedTransition(s.total, OnStreamClose(s, h).state.total);
      assert Closes(close, u) == if v == Some(u) then 1 else 0 by {
        if v.Some? {
          assert close[1..] == [];
        }
      }
      ThenNone(close, need, u);
    }
  }

  lemma BackendRouted(s: State, a: bool, cs: seq<nat>, us: seq<nat>, u: nat)
    requires Fresh(s, BackendAvailable(a, cs, us))
    ensures RoutedExactly(s, BackendAvailable(a, cs, us), u, OnBackendAvailable(s, a, cs, us))
  {
    var s1 := s.(available := a);
    if a {
      ConnectsKeep(|WaitingIn(s1.conns, cs)|);
      NoneClosed(OnBackendAvailable(s, a, cs, us).actions, u);
    } else {
      var closed := CloseConns(s1, cs);
      CloseConnsState(s1, cs);
      CloseConnsKeeps(s1, cs);
      NoneClosed(closed.actions, u);
      CloseUpstreamsCounts(us, u);
      ClosesAppend(closed.actions, CloseUpstreams(us), u);
      ThenNone(closed.actions + CloseUpstreams(us), NeedTransition(s.total, closed.state.total), u);
    }
  }

  lemma ConnectResultRouted(s: State, v: nat, ok: bool, u: nat)
    ensures RoutedExactly(s, UpstreamConnectResult(v, ok), u, OnConnectResult(s, v, ok))
  {
    var out := OnConnectResult(s, v, ok);
    if s.pending == [] {
      assert out.actions[1..] == [];
    } else {
      var h := s.pending[0];
      var popped := s.(pending := s.pending[1..]);
      if h in s.conns {
        GoneKeeps(s.conns[h]);
        CommitKeeps(popped.(up := popped.up[v := h]), h, C.OnUpstreamConnected(s.conns[h]));
        CommitKeeps(popped, h, C.OnUpstreamFailed(s.conns[h]));
      }
      NoneClosed(out.actions, u);
    }
  }

  lemma UpstreamEventsRouted(s: State, v: nat, d: seq<Byte>, u: nat)
    ensures RoutedExactly(s, UpstreamData(v, d), u, OnUpstreamData(s, v, d))
    ensures RoutedExactly(s, UpstreamClosed(v), u, OnUpstreamClosed(s, v))
  {
    if v in s.up && s.up[v] in s.conns {
      var h := s.up[v];
      UpstreamDataKeeps(s.conns[h], d);
      GoneKeeps(s.conns[h]);
      CommitKeeps(s, h, C.OnUpstreamData(s.conns[h], d));
      CommitKeeps(s.(up := s.up - {v}), h, C.OnUpstreamClosed(s.conns[h]));
    }
    NoneClosed(OnUpstreamData(s, v, d).actions, u);
    NoneClosed(OnUpstreamClosed(s, v).actions, u);
  }

  /**
   * For every event: an upstream is mapped, to the connection at the head of the queue, exactly when it is reported
   * connected; it is unmapped exactly when it ends, its client closes or the backend goes; and it is closed, once,
   * exactly when it is unmapped without having ended, or was connected for nobody.
   */
  lemma StepRoutedExactly(s: State, e: Event, u: nat)
    requires Linked(s) && Fresh(s, e)
    ensures RoutedExactly(s, e, u, Step(s, e))
  {
    match e
    case StreamData(h, d) => StreamDataRouted(s, h, d, u);
    case StreamClose(h) => StreamCloseRouted(s, h, u);
    case BackendAvailable(a, cs, us) => BackendRouted(s, a, cs, us, u);
    case UpstreamConnectResult(v, ok) => ConnectResultRouted(s, v, ok, u);
    case UpstreamData(v, d) => UpstreamEventsRouted(s, v, d, u);
    case UpstreamClosed(v) => UpstreamEventsRouted(s, v, [], u);
    case _ =>
  }

  // ---------------------------------------------------------------------
  // Runs
  // ---------------------------------------------------------------------

  /** How often upstream `u` was reported connected. */
  function Connected(es: seq<Event>, u: nat): nat
  {
    if es == [] then 0
    else Connected(es[..|es| - 1], u) + if es[|es| - 1] == UpstreamConnectResult(u, true) then 1 else 0
  }

  /** How often it was reported failed when nobody waited for it. */
  ghost function FailedForNobody(es: seq<Event>, u: nat): nat
  {
    if es == [] then 0
    else
      FailedForNobody(es[..|es| - 1], u)
      + if es[|es| - 1] == UpstreamConnectResult(u, false) && Run(es[..|es| - 1]).state.pending == [] then 1 else 0
  }

  /** How often it was reported closed while it was mapped. */
  ghost function Ended(es: seq<Event>, u: nat): nat
  {
    if es == [] then 0
    else
      Ended(es[..|es| - 1], u)
      + if es[|es| - 1] == UpstreamClosed(u) && u in Run(es[..|es| - 1]).state.up then 1 else 0
  }

  /**
   * On every run with fresh handles, for every upstream: each time it was connected it is still mapped, or has ended,
   * or was closed by one action; and the only other closes are of upstreams that failed when nobody waited for them.
   */
  lemma {:induction false} UpstreamsAccountedFor(es: seq<Event>, u: nat)
    requires FreshRun(es)
    ensures Connected(es, u) + FailedForNobody(es, u)
            == Closes(Run(es).actions, u) + Ended(es, u) + if u in Run(es).state.up then 1 else 0
  {
    if es != [] {
      var init, e := es[..|es| - 1], es[|es| - 1];
      UpstreamsAccountedFor(init, u);
      LinkedOnEveryRun(init);
      StepRoutedExactly(Run(init).state, e, u);
      ClosesAppend(Run(init).actions, Step(Run(init).state, e).actions, u);
    }
  }

  // ---------------------------------------------------------------------
  // Demand
  // ---------------------------------------------------------------------

  /** While the backend is there, nobody waits without a connect; and a connection that connects is in the queue. */
  ghost predicate Served(s: State)
  {
    && (s.available ==> forall h :: h in s.conns ==> !Waiting(s.conns[h]))
    && (forall h :: h in s.conns && s.conns[h].core.upstream.Connecting? ==> h in s.pending)
  }

  lemma ServedUpdate(s: State, h: nat, c: Conn, total: nat)
    requires Served(s) && h in s.conns
    requires s.available ==> !Waiting(c)
    requires c.core.upstream.Connecting? ==> h in s.pending
    ensures Served(s.(conns := s.conns[h := c], total := total))
  {
  }

  lemma StreamDataServed(s: State, h: nat, d: seq<Byte>)
    requires Served(s) && h in s.conns
    ensures Served(OnStreamData(s, h, d).state)
  {
    var o := C.OnClientData(s.conns[h], d);
    var mid := Commit(s, h, o).state;
    W.ClientDataQuiet(s.conns[h], d);
    var handles := if s.available && Waiting(o.conn) then [h] else [];
    var s' := StartConnects(mid, handles).state;
    forall g | g in s'.conns
      ensures (s'.available ==> !Waiting(s'.conns[g])) && (s'.conns[g].core.upstream.Connecting? ==> g in s'.pending)
    {
      assert g != h ==> s'.conns[g] == s.conns[g];
      assert forall p :: p in s.pending ==> p in s'.pending;
      assert forall p :: p in handles ==> p in s'.pending;
    }
  }

  lemma BackendServed(s: State, a: bool, cs: seq<nat>, us: seq<nat>)
    requires Served(s) && Fresh(s, BackendAvailable(a, cs, us))
    ensures Served(OnBackendAvailable(s, a, cs, us).state)
  {
    var s1 := s.(available := a);
    if a {
      WaitingInSpec(s1.conns, cs);
      StartServed(s1, WaitingIn(s1.conns, cs));
    } else {
      CloseConnsState(s1, cs);
    }
  }

  lemma StartServed(s: State, handles: seq<nat>)
    requires forall h :: h in s.conns && s.conns[h].core.upstream.Connecting? ==> h in s.pending
    requires forall h :: h in handles <==> h in s.conns && Waiting(s.conns[h])
    ensures Served(StartConnects(s, handles).state)
  {
    var s' := StartConnects(s, handles).state;
    forall g | g in s'.conns
      ensures !Waiting(s'.conns[g]) && (s'.conns[g].core.upstream.Connecting? ==> g in s'.pending)
    {
      assert g in s.pending || g in handles ==> g in s'.pending;
    }
  }

  lemma ConnectResultServed(s: State, u: nat, ok: bool)
    requires Linked(s) && Served(s)
    ensures Served(OnConnectResult(s, u, ok).state)
  {
    if s.pending != [] {
      var h := s.pending[0];
      var popped := s.(pending := s.pending[1..]);
      assert s.pending == [h] + popped.pending;
      var s' := OnConnectResult(s, u, ok).state;
      forall g | g in s'.conns
        ensures (s'.available ==> !Waiting(s'.conns[g])) && (s'.conns[g].core.upstream.Connecting? ==> g in s'.pending)
      {
        assert g != h ==> s'.conns[g] == s.conns[g];
      }
    }
  }

  lemma UpstreamDataServed(s: State, u: nat, d: seq<Byte>)
    requires Linked(s) && Served(s) && u in s.up
    ensures Served(OnUpstreamData(s, u, d).state)
  {
    var c := s.conns[s.up[u]];
    UpstreamDataKeepsLink(c, d);
    ServedUpdate(s, s.up[u], C.OnUpstreamData(c, d).conn, OnUpstreamData(s, u, d).state.total);
  }

  lemma StepServed(s: State, e: Event)
    requires Linked(s) && Fresh(s, e) && Served(s)
    ensures Served(Step(s, e).state)
    ensures Step(s, e).state.available == if e.BackendAvailable? then e.available else s.available
  {
    match e
    case StreamData(h, d) =>
      if h in s.conns {
        StreamDataServed(s, h, d);
      }
    case StreamClose(h) => WithoutMembers(s.pending, h);
    case BackendAvailable(a, cs, us) =>
      BackendServed(s, a, cs, us);
      CloseConnsState(s.(available := a), cs);
    case UpstreamConnectResult(u, ok) => ConnectResultServed(s, u, ok);
    case UpstreamData(u, d) =>
      if u in s.up {
        UpstreamDataServed(s, u, d);
      }
    case UpstreamClosed(u) =>
      if u in s.up {
        var c := C.OnUpstreamClosed(s.conns[s.up[u]]).conn;
        ServedUpdate(s.(up := s.up - {u}), s.up[u], c, Step(s, e).state.total);
      }
    case _ =>
  }

  /** What the activator was last told of the backend. */
  function Announced(es: seq<Event>): bool
  {
    if es == [] then false
    else if es[|es| - 1].BackendAvailable? then es[|es| - 1].available
    else Announced(es[..|es| - 1])
  }

  lemma {:induction false} ServedOnEveryRun(es: seq<Event>)
    requires FreshRun(es)
    ensures Served(Run(es).state) && Run(es).state.available == Announced(es)
  {
    if es != [] {
      ServedOnEveryRun(es[..|es| - 1]);
      LinkedOnEveryRun(es[..|es| - 1]);
      StepServed(Run(es[..|es| - 1]).state, es[|es| - 1]);
    }
  }

  /** Connects go to the backend's port. */
  predicate ToPort80(acts: seq<Action>)
  {
    forall i :: 0 <= i < |acts| && acts[i].UpstreamConnect? ==> acts[i].port == 80
  }

  lemma {:induction false} ConnectsToPort80(n: nat)
    ensures ToPort80(Connects(n))
  {
    if n > 0 {
      ConnectsToPort80(n - 1);
    }
  }

  lemma {:induction false} TranslateToPort80(up: map<nat, nat>, h: nat, acts: seq<C.ConnAction>)
    ensures ToPort80(TranslateAll(up, h, acts))
  {
    if acts != [] {
      TranslateToPort80(up, h, acts[1..]);
    }
  }

  lemma {:induction false} CloseConnsToPort80(s: State, order: seq<nat>)
    ensures ToPort80(CloseConns(s, order).actions)
    decreases |order|
  {
    if order != [] {
      if order[0] in s.conns {
        var o := C.OnUpstreamClosed(s.conns[order[0]]);
        TranslateToPort80(s.up, order[0], o.actions);
        CloseConnsToPort80(Commit(s, order[0], o).state, order[1..]);
      } else {
        CloseConnsToPort80(s, order[1..]);
      }
    }
  }

  lemma {:induction false} ClosesToPort80(us: seq<nat>)
    ensures ToPort80(CloseUpstreams(us))
  {
    if us != [] {
      ClosesToPort80(us[1..]);
    }
  }

  lemma CommitToPort80(s: State, h: nat, o: C.ConnOutcome)
    ensures ToPort80(Commit(s, h, o).actions) && ToPort80(CommitWithNeed(s, h, o).actions)
  {
    TranslateToPort80(s.up, h, o.actions);
  }

  lemma StreamDataToPort80(s: State, h: nat, d: seq<Byte>)
    ensures ToPort80(OnStreamData(s, h, d).actions)
  {
    if h in s.conns {
      var out := Commit(s, h, C.OnClientData(s.conns[h], d));
      CommitToPort80(s, h, C.OnClientData(s.conns[h], d));
      ConnectsToPort80(|if s.available && Waiting(out.state.conns[h]) then [h] else []|);
    }
  }

  lemma BackendToPort80(s: State, a: bool, cs: seq<nat>, us: seq<nat>)
    ensures ToPort80(OnBackendAvailable(s, a, cs, us).actions)
  {
    if a {
      ConnectsToPort80(|WaitingIn(s.conns, cs)|);
    } else {
      CloseConnsToPort80(s.(available := a), cs);
      ClosesToPort80(us);
    }
  }

  lemma ConnectResultToPort80(s: State, u: nat, ok: bool)
    ensures ToPort80(OnConnectResult(s, u, ok).actions)
  {
    if s.pending != [] && s.pending[0] in s.conns {
      var h, popped := s.pending[0], s.(pending := s.pending[1..]);
      CommitToPort80(popped.(up := popped.up[u := h]), h, C.OnUpstreamConnected(s.conns[h]));
      CommitToPort80(popped, h, C.OnUpstreamFailed(s.conns[h]));
    }
  }

  /** For every event and state, the connects that the activator asks for are to port 80. */
  lemma StepToPort80(s: State, e: Event)
    ensures ToPort80(Step(s, e).actions)
  {
    match e
    case StreamData(h, d) => StreamDataToPort80(s, h, d);
    case BackendAvailable(a, cs, us) => BackendToPort80(s, a, cs, us);
    case UpstreamConnectResult(u, ok) => ConnectResultToPort80(s, u, ok);
    case UpstreamData(u, d) =>
      if u in s.up && s.up[u] in s.conns {
        CommitToPort80(s, s.up[u], C.OnUpstreamData(s.conns[s.up[u]], d));
      }
    case UpstreamClosed(u) =>
      if u in s.up && s.up[u] in s.conns {
        CommitToPort80(s.(up := s.up - {u}), s.up[u], C.OnUpstreamClosed(s.conns[s.up[u]]));
      }
    case _ =>
  }

  /**
   * On every run with fresh handles: while the backend was last announced as there, a live connection that holds
   * frames for it is queued for an upstream, or has exactly one, or has been told that its upstream is gone.
   */
  lemma DemandIsMet(es: seq<Event>, h: nat)
    requires FreshRun(es) && Announced(es) && h in Run(es).state.conns && Run(es).state.conns[h].core.buffered != []
    ensures var s := Run(es).state;
            || h in s.pending
            || (UpstreamOf(s.up, h).Some? && forall u :: u in s.up && s.up[u] == h ==> UpstreamOf(s.up, h) == Some(u))
            || s.conns[h].core.upstream.Failed?
  {
    var s := Run(es).state;
    ServedOnEveryRun(es);
    LinkedOnEveryRun(es);
    forall u | u in s.up && s.up[u] == h ensures UpstreamOf(s.up, h) == Some(u) {
      UpstreamOfUnique(s.up, u);
    }
    assert !Waiting(s.conns[h]);
  }
}
