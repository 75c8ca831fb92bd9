/** The activator's three tables stay linked on every run: connections, pending connects and the routing map. */
module Http2ActivatorRouting {
  import opened Common
  import C = Http2Connection
  import F = Http2Frames
  import W = Http2Framing
  import opened Http2Activator

  predicate HasUpstream(c: Conn) { W.Connected(c.core.upstream) }

  ghost predicate Injective(up: map<nat, nat>)
  {
    forall u, v :: u in up && v in up && up[u] == up[v] ==> u == v
  }

  /** Pending connects: live, each once, waiting for a result. */
  ghost predicate PendingInv(s: State)
  {
    && NoDuplicates(s.pending)
    && forall h :: h in s.pending ==>
                     h in s.conns && !HasUpstream(s.conns[h]) && !s.conns[h].core.upstream.NoUpstream?
  }

  /** Routes: one upstream for each connection that has one, and none for the others. */
  ghost predicate RouteInv(s: State)
  {
    && Injective(s.up)
    && (forall u :: u in s.up ==> s.up[u] in s.conns && HasUpstream(s.conns[s.up[u]]))
    && (forall h :: h in s.conns && HasUpstream(s.conns[h]) ==> UpstreamOf(s.up, h).Some?)
  }

  ghost predicate Linked(s: State) { PendingInv(s) && RouteInv(s) }

  lemma UpstreamOfUnique(up: map<nat, nat>, u: nat)
    requires Injective(up) && u in up
    ensures UpstreamOf(up, up[u]) == Some(u)
  {
  }

  // ---------------------------------------------------------------------
  // What connection calls do to the upstream state
  // ---------------------------------------------------------------------

  lemma {:induction false} BackendFramesKeepLink(c: C.Core, raws: seq<F.RawFrame>)
    ensures var u := C.ReceiveAll(C.FromBackend, c, raws).core.upstream;
            u == c.upstream || (c.upstream.UpstreamHandshaking? && u.Ready?)
    decreases |raws|
  {
    if raws != [] {
      BackendFrameKeepsLink(c, F.DecodeFrame(raws[0]), raws[0]);
      BackendFramesKeepLink(C.Receive(C.FromBackend, c, raws[0]).core, raws[1..]);
    }
  }

  lemma BackendFrameKeepsLink(c: C.Core, f: F.Frame, raw: seq<Byte>)
    ensures var u := C.HandleUpstreamFrame(c, f, raw).core.upstream;
            u == c.upstream || (c.upstream.UpstreamHandshaking? && u.Ready?)
  {
  }

  lemma UpstreamDataKeepsLink(c: Conn, data: seq<Byte>)
    ensures HasUpstream(C.OnUpstreamData(c, data).conn) == HasUpstream(c)
    ensures C.OnUpstreamData(c, data).conn.core.upstream.NoUpstream? == c.core.upstream.NoUpstream?
  {
    BackendFramesKeepLink(c.core, F.CutFrames(c.upstreamRecvBuf + data).frames);
  }

  // ---------------------------------------------------------------------
  // One event
  // ---------------------------------------------------------------------

  /** Replacing a connection by one with the same kind of upstream state. */
  lemma LinkedUpdate(s: State, h: nat, c: Conn, total: nat)
    requires Linked(s) && h in s.conns
    requires HasUpstream(c) == HasUpstream(s.conns[h])
    requires c.core.upstream.NoUpstream? == s.conns[h].core.upstream.NoUpstream?
    ensures Linked(s.(conns := s.conns[h := c], total := total))
  {
  }

  lemma StartOneLinked(s: State, h: nat)
    requires Linked(s) && h in s.conns && s.conns[h].core.upstream.NoUpstream?
    ensures Linked(s.(conns := s.conns[h := C.SetUpstream(s.conns[h], C.Connecting)], pending := s.pending + [h]))
  {
  }

  lemma StreamDataLinked(s: State, h: nat, data: seq<Byte>)
    requires Linked(s) && h in s.conns
    ensures Linked(OnStreamData(s, h, data).state)
  {
    var o := C.OnClientData(s.conns[h], data);
    var mid := Commit(s, h, o).state;
    W.ClientDataQuiet(s.conns[h], data);
    LinkedUpdate(s, h, o.conn, mid.total);
    if s.available && Waiting(o.conn) {
      StartOneLinked(mid, h);
      assert StartConnects(mid, [h]).state.conns == mid.conns[h := C.SetUpstream(mid.conns[h], C.Connecting)];
    } else {
      assert StartConnects(mid, []).state.conns == mid.conns;
      assert mid.pending + [] == mid.pending;
    }
  }

  lemma StreamCloseLinked(s: State, h: nat)
    requires Linked(s) && h in s.conns
    ensures Linked(OnStreamClose(s, h).state)
  {
    var s' := OnStreamClose(s, h).state;
    WithoutMembers(s.pending, h);
    forall g | g in s'.conns && HasUpstream(s'.conns[g]) ensures UpstreamOf(s'.up, g).Some? {
      var u := UpstreamOf(s.up, g).value;
      assert u in s'.up && s'.up[u] == g;
    }
    forall u | u in s'.up ensures s'.up[u] in s'.conns {
      if s.up[u] == h {
        UpstreamOfUnique(s.up, u);
        assert false;
      }
    }
  }

  lemma {:induction false} WaitingInSpec(conns: map<nat, Conn>, order: seq<nat>)
    ensures forall h :: h in WaitingIn(conns, order) <==> h in order && h in conns && Waiting(conns[h])
    ensures NoDuplicates(order) ==> NoDuplicates(WaitingIn(conns, order))
  {
    if order != [] {
      WaitingInSpec(conns, order[1..]);
      assert order == [order[0]] + order[1..];
      if NoDuplicates(order) {
        assert order[0] !in order[1..];
        var tail := WaitingIn(conns, order[1..]);
        assert forall i :: 0 <= i < |tail| ==> tail[i] in order[1..];
      }
    }
  }

  lemma StartConnectsLinked(s: State, handles: seq<nat>)
    requires Linked(s) && NoDuplicates(handles)
    requires forall h :: h in handles ==> h in s.conns && Waiting(s.conns[h])
    ensures Linked(StartConnects(s, handles).state)
  {
    var s' := StartConnects(s, handles).state;
    NoDuplicatesAppend(s.pending, handles);
  }

  /** What `CloseConns` leaves: the connections it names failed, everything else in place. */
  lemma {:induction false} CloseConnsState(s: State, order: seq<nat>)
    ensures var s' := CloseConns(s, order).state;
            && s' == s.(conns := s'.conns, total := s'.total)
            && s'.conns.Keys == s.conns.Keys
            && forall h :: h in s.conns ==>
                 s'.conns[h] == if h in order then C.OnUpstreamClosed(s.conns[h]).conn else s.conns[h]
    decreases |order|
  {
    if order != [] {
      assert order == [order[0]] + order[1..];
      if order[0] in s.conns {
        CloseConnsState(Commit(s, order[0], C.OnUpstreamClosed(s.conns[order[0]])).state, order[1..]);
      } else {
        CloseConnsState(s, order[1..]);
      }
    }
  }

  lemma BackendAvailableLinked(s: State, a: bool, cs: seq<nat>, us: seq<nat>)
    requires Linked(s) && Fresh(s, BackendAvailable(a, cs, us))
    ensures Linked(OnBackendAvailable(s, a, cs, us).state)
  {
    var s1 := s.(available := a);
    if a {
      WaitingInSpec(s1.conns, cs);
      StartConnectsLinked(s1, WaitingIn(s1.conns, cs));
    } else {
      BackendGoneLinked(s, cs, us);
    }
  }

  lemma BackendGoneLinked(s: State, cs: seq<nat>, us: seq<nat>)
    requires Linked(s) && Fresh(s, BackendAvailable(false, cs, us))
    ensures Linked(OnBackendAvailable(s, false, cs, us).state)
  {
    CloseConnsState(s.(available := false), cs);
    assert OnBackendAvailable(s, false, cs, us).state.up == map[];
  }

  lemma ConnectResultLinked(s: State, u: nat, ok: bool)
    requires Linked(s) && (ok ==> u !in s.up)
    ensures Linked(OnConnectResult(s, u, ok).state)
  {
    if s.pending != [] {
      var h := s.pending[0];
      var s' := OnConnectResult(s, u, ok).state;
      assert h !in s'.pending;
      if ok {
        forall g | g in s'.conns && HasUpstream(s'.conns[g]) ensures UpstreamOf(s'.up, g).Some? {
          var v := if g == h then u else UpstreamOf(s.up, g).value;
          assert v in s'.up && s'.up[v] == g;
        }
      }
    }
  }

  lemma UpstreamClosedLinked(s: State, u: nat)
    requires Linked(s) && u in s.up
    ensures Linked(OnUpstreamClosed(s, u).state)
  {
    var s' := OnUpstreamClosed(s, u).state;
    forall g | g in s'.conns && HasUpstream(s'.conns[g]) ensures UpstreamOf(s'.up, g).Some? {
      var v := UpstreamOf(s.up, g).value;
      assert v in s'.up && s'.up[v] == g;
    }
  }

  lemma StepLinked(s: State, e: Event)
    requires Linked(s) && Fresh(s, e)
    ensures Linked(Step(s, e).state)
  {
    match e
    case StreamData(h, d) =>
      if h in s.conns {
        StreamDataLinked(s, h, d);
      }
    case StreamClose(h) =>
      if h in s.conns {
        StreamCloseLinked(s, h);
      }
    case BackendAvailable(a, cs, us) =>
      BackendAvailableLinked(s, a, cs, us);
    case UpstreamConnectResult(u, ok) =>
      ConnectResultLinked(s, u, ok);
    case UpstreamData(u, d) =>
      if u in s.up {
        UpstreamDataKeepsLink(s.conns[s.up[u]], d);
        LinkedUpdate(s, s.up[u], C.OnUpstreamData(s.conns[s.up[u]], d).conn, Step(s, e).state.total);
      }
    case UpstreamClosed(u) =>
      if u in s.up {
        UpstreamClosedLinked(s, u);
      }
    case _ =>
  }

  // ---------------------------------------------------------------------
  // What makes the search of the routing map unambiguous
  // ---------------------------------------------------------------------

  /** Bound connections have left the state in which a connect may be started for them. */
  ghost predicate Bound(s: State, h: nat) { h in s.conns ==> !s.conns[h].core.upstream.NoUpstream? }

  /** No connection has two upstreams, or will have two. Live handles and mapped upstreams may be reused. */
  ghost predicate Unambiguous(s: State)
  {
    && Injective(s.up) && NoDuplicates(s.pending)
    && (forall u :: u in s.up ==> s.up[u] !in s.pending && Bound(s, s.up[u]))
    && (forall h :: h in s.pending ==> Bound(s, h))
  }

  /** A handle is not opened again while it waits for an upstream or has one; orders list the tables walked. */
  ghost predicate Tolerable(s: State, e: Event)
  {
    match e
    case StreamOpen(h) => h !in s.pending && forall u :: u in s.up ==> s.up[u] != h
    case BackendAvailable(_, cs, us) => Enumerates(cs, s.conns.Keys) && Enumerates(us, s.up.Keys)
    case _ => true
  }

  lemma LinkedIsUnambiguous(s: State, e: Event)
    requires Linked(s) && Fresh(s, e)
    ensures Unambiguous(s) && Tolerable(s, e)
  {
  }

  lemma UnambiguousUpdate(s: State, h: nat, c: Conn, total: nat)
    requires Unambiguous(s) && h in s.conns
    requires c.core.upstream.NoUpstream? ==> s.conns[h].core.upstream.NoUpstream?
    ensures Unambiguous(s.(conns := s.conns[h := c], total := total))
  {
    var s' := s.(conns := s.conns[h := c], total := total);
    forall g | Bound(s, g) ensures Bound(s', g) {
    }
  }

  lemma UnambiguousStart(s: State, handles: seq<nat>)
    requires Unambiguous(s) && NoDuplicates(handles)
    requires forall h :: h in handles ==> h in s.conns && s.conns[h].core.upstream.NoUpstream?
    ensures Unambiguous(StartConnects(s, handles).state)
  {
    var s' := StartConnects(s, handles).state;
    forall h | h in handles ensures !Bound(s, h) && Bound(s', h) {
    }
    forall h | h in s.pending ensures h !in handles {
    }
    NoDuplicatesAppend(s.pending, handles);
    forall g | Bound(s, g) ensures Bound(s', g) {
    }
  }

  lemma UnambiguousUnmap(s: State, up: map<nat, nat>)
    requires Unambiguous(s) && forall u :: u in up ==> u in s.up && up[u] == s.up[u]
    ensures Unambiguous(s.(up := up))
  {
    forall u | u in up ensures Bound(s.(up := up), up[u]) {
      assert Bound(s, s.up[u]);
    }
    forall h | h in s.pending ensures Bound(s.(up := up), h) {
      assert Bound(s, h);
    }
  }

  lemma UnambiguousStreamData(s: State, h: nat, d: seq<Byte>)
    requires Unambiguous(s) && h in s.conns
    ensures Unambiguous(OnStreamData(s, h, d).state)
  {
    var o := C.OnClientData(s.conns[h], d);
    var mid := Commit(s, h, o).state;
    W.ClientDataQuiet(s.conns[h], d);
    UnambiguousUpdate(s, h, o.conn, mid.total);
    UnambiguousStart(mid, if s.available && Waiting(o.conn) then [h] else []);
  }

  lemma UnambiguousStreamClose(s: State, h: nat)
    requires Unambiguous(s) && h in s.conns
    ensures Unambiguous(OnStreamClose(s, h).state)
  {
    var s' := OnStreamClose(s, h).state;
    WithoutMembers(s.pending, h);
    forall g | Bound(s, g) ensures Bound(s', g) {
    }
    forall u | u in s'.up ensures s'.up[u] !in s'.pending && Bound(s', s'.up[u]) {
      assert u in s.up && s'.up[u] == s.up[u];
      assert Bound(s, s.up[u]);
    }
  }

  lemma UnambiguousGone(s: State, cs: seq<nat>, us: seq<nat>)
    requires Unambiguous(s)
    ensures Unambiguous(OnBackendAvailable(s, false, cs, us).state)
  {
    var s1 := s.(available := false);
    CloseConnsState(s1, cs);
    var closed := CloseConns(s1, cs).state;
    forall g | Bound(s, g) ensures Bound(closed, g) {
    }
    assert Unambiguous(closed);
    UnambiguousUnmap(closed, closed.up - set u | u in us);
  }

  lemma UnambiguousConnectResult(s: State, u: nat, ok: bool)
    requires Unambiguous(s) && s.pending != []
    ensures Unambiguous(OnConnectResult(s, u, ok).state)
  {
    var h := s.pending[0];
    var popped := s.(pending := s.pending[1..]);
    assert h in s.pending && h !in popped.pending;
    assert Bound(s, h) && forall g :: Bound(popped, g) <==> Bound(s, g);
    assert Unambiguous(popped);
    if ok {
      UnambiguousMap(popped, u, h);
      if h in s.conns {
        var mapped := popped.(up := popped.up[u := h]);
        var o := C.OnUpstreamConnected(s.conns[h]);
        UnambiguousUpdate(mapped, h, o.conn, Commit(mapped, h, o).state.total);
      }
    } else if h in s.conns {
      var o := C.OnUpstreamFailed(s.conns[h]);
      UnambiguousUpdate(popped, h, o.conn, Commit(popped, h, o).state.total);
    }
  }

  lemma UnambiguousMap(s: State, u: nat, h: nat)
    requires Unambiguous(s) && h !in s.pending && Bound(s, h) && forall v :: v in s.up ==> s.up[v] != h
    ensures Unambiguous(s.(up := s.up[u := h]))
  {
    var s' := s.(up := s.up[u := h]);
    forall g | Bound(s, g) ensures Bound(s', g) {
    }
  }

  /** Every event that does not re-open a bound handle keeps the routing unambiguous. */
  lemma StepUnambiguous(s: State, e: Event)
    requires Unambiguous(s) && Tolerable(s, e)
    ensures Unambiguous(Step(s, e).state)
  {
    match e
    case StreamOpen(h) =>
      var s' := Step(s, e).state;
      forall g | g != h && Bound(s, g) ensures Bound(s', g) {
      }
    case StreamData(h, d) =>
      if h in s.conns {
        UnambiguousStreamData(s, h, d);
      }
    case StreamClose(h) =>
      if h in s.conns {
        UnambiguousStreamClose(s, h);
      }
    case BackendAvailable(a, cs, us) =>
      if a {
        WaitingInSpec(s.conns, cs);
        var s1 := s.(available := a);
        assert forall g :: Bound(s1, g) <==> Bound(s, g);
        UnambiguousStart(s1, WaitingIn(s.conns, cs));
      } else {
        UnambiguousGone(s, cs, us);
      }
    case UpstreamConnectResult(u, ok) =>
      if s.pending != [] {
        UnambiguousConnectResult(s, u, ok);
      }
    case UpstreamData(u, d) =>
      if u in s.up && s.up[u] in s.conns {
        UpstreamDataKeepsLink(s.conns[s.up[u]], d);
        UnambiguousUpdate(s, s.up[u], C.OnUpstreamData(s.conns[s.up[u]], d).conn, Step(s, e).state.total);
      }
    case UpstreamClosed(u) =>
      if u in s.up {
        var unmapped := s.(up := s.up - {u});
        UnambiguousUnmap(s, unmapped.up);
        if s.up[u] in s.conns {
          UnambiguousUpdate(unmapped, s.up[u], C.OnUpstreamClosed(s.conns[s.up[u]]).conn, Step(s, e).state.total);
        }
      }
    case _ =>
  }

  /** On every run with fresh handles the tables are linked. */
  lemma {:induction false} LinkedOnEveryRun(es: seq<Event>)
    requires FreshRun(es)
    ensures Linked(Run(es).state)
  {
    if es != [] {
      LinkedOnEveryRun(es[..|es| - 1]);
      StepLinked(Run(es[..|es| - 1]).state, es[|es| - 1]);
    }
  }
}
