/** The global stream counter and the backend-need signal derived from it. */
module Http2ActivatorCount {
  import opened Common
  import C = Http2Connection
  import F = Http2Frames
  import opened Http2StreamTable
  import opened Http2Activator

  // ---------------------------------------------------------------------
  // Connection calls, as counted outcomes
  // ---------------------------------------------------------------------

  ghost predicate CountedCall(c: Conn, o: C.ConnOutcome)
  {
    Counted(c.core.streams, o.actions, o.conn.core.streams)
  }

  lemma {:induction false} CloseAllTally(n: nat)
    ensures Tally(n, C.CloseAll(n)) == 0 && NeverClips(n, C.CloseAll(n))
  {
    if n > 0 {
      var acts := C.CloseAll(n);
      assert acts[1..] == C.CloseAll(n - 1);
      CloseAllTally(n - 1);
    }
  }

  lemma ClientDataCounted(c: Conn, data: seq<Byte>)
    ensures CountedCall(c, C.OnClientData(c, data))
  {
    var buf := c.recvBuf + data;
    var o := C.OnClientData(c, data);
    if !c.core.phase.AwaitingPreface? {
      ReceiveAllCounted(C.FromClient, c.core, F.CutFrames(buf).frames);
    } else if |buf| >= |F.CLIENT_PREFACE| && buf[..|F.CLIENT_PREFACE|] == F.CLIENT_PREFACE {
      GreetCounted(c, buf[|F.CLIENT_PREFACE|..]);
    } else {
      CountedQuiet(c.core.streams, o.actions);
    }
  }

  lemma GreetCounted(c: Conn, tail: seq<Byte>)
    ensures CountedCall(c, C.Greet(c, tail))
  {
    var greeted := c.core.(phase := C.Handshaking);
    var hello := [C.DownstreamSend(F.OurSettings(), C.Proxy)];
    var more := C.ReceiveAll(C.FromClient, greeted, F.CutFrames(tail).frames);
    ReceiveAllCounted(C.FromClient, greeted, F.CutFrames(tail).frames);
    CountedQuiet(c.core.streams, hello);
    CountedThen(c.core.streams, hello, c.core.streams, more.actions, more.core.streams);
  }

  lemma UpstreamDataCounted(c: Conn, data: seq<Byte>)
    ensures CountedCall(c, C.OnUpstreamData(c, data))
  {
    ReceiveAllCounted(C.FromBackend, c.core, F.CutFrames(c.upstreamRecvBuf + data).frames);
  }

  lemma UpstreamGoneCounted(c: Conn)
    ensures CountedCall(c, C.OnUpstreamClosed(c))
    ensures CountedCall(c, C.OnUpstreamFailed(c))
  {
    var n := |c.core.streams|;
    var notice := if c.core.phase.Closing? then []
                  else [C.DownstreamSend(F.GoawayFrame(c.core.lastClientStreamId, F.ERROR_NO_ERROR), C.Proxy),
                        C.DownstreamClose];
    var error := [C.DownstreamSend(F.GoawayFrame(0, F.ERROR_INTERNAL_ERROR), C.Proxy), C.DownstreamClose];
    CloseAllTally(n);
    TallyUncounted(n, notice);
    TallyUncounted(n, error);
    TallyAppend(n, notice, C.CloseAll(n));
    TallyAppend(n, error, C.CloseAll(n));
  }

  // ---------------------------------------------------------------------
  // The sum over connections
  // ---------------------------------------------------------------------

  ghost function SumStreams(conns: map<nat, Conn>): nat
    decreases |conns|
  {
    if h :| h in conns then |conns[h].core.streams| + SumStreams(conns - {h}) else 0
  }

  lemma {:induction false} SumRemove(conns: map<nat, Conn>, h: nat)
    requires h in conns
    ensures SumStreams(conns) == |conns[h].core.streams| + SumStreams(conns - {h})
    decreases |conns|
  {
    var g :| g in conns && SumStreams(conns) == |conns[g].core.streams| + SumStreams(conns - {g});
    if g != h {
      SumRemove(conns - {g}, h);
      SumRemove(conns - {h}, g);
      assert conns - {g} - {h} == conns - {h} - {g};
    }
  }

  lemma SumUpdate(conns: map<nat, Conn>, h: nat, c: Conn)
    ensures SumStreams(conns[h := c])
            == SumStreams(conns) + |c.core.streams| - if h in conns then |conns[h].core.streams| else 0
  {
    SumRemove(conns[h := c], h);
    assert conns[h := c] - {h} == conns - {h};
    if h in conns {
      SumRemove(conns, h);
    } else {
      assert conns - {h} == conns;
    }
  }

  lemma {:induction false} SumSame(a: map<nat, Conn>, b: map<nat, Conn>)
    requires a.Keys == b.Keys && forall h :: h in a ==> |a[h].core.streams| == |b[h].core.streams|
    ensures SumStreams(a) == SumStreams(b)
    decreases |a|
  {
    if h :| h in a {
      SumRemove(a, h);
      SumRemove(b, h);
      SumSame(a - {h}, b - {h});
    } else {
      assert a == map[] && b.Keys == {} && b == map[];
    }
  }

  /** The sum is positive exactly when some connection has an open stream. */
  lemma {:induction false} SumPositive(conns: map<nat, Conn>)
    ensures SumStreams(conns) > 0 <==> exists h :: h in conns && conns[h].core.streams != []
    decreases |conns|
  {
    if h :| h in conns {
      SumRemove(conns, h);
      SumPositive(conns - {h});
      if g :| g in conns && conns[g].core.streams != [] {
        assert g == h || g in conns - {h};
      }
      if SumStreams(conns - {h}) > 0 {
        var g :| g in conns - {h} && (conns - {h})[g].core.streams != [];
        assert g in conns && conns[g].core.streams != [];
      }
    }
  }

  // ---------------------------------------------------------------------
  // The invariant
  // ---------------------------------------------------------------------

  ghost predicate CountInv(s: State)
  {
    && (forall h :: h in s.conns ==> UniqueIds(s.conns[h].core.streams))
    && s.total == SumStreams(s.conns)
  }

  lemma {:induction false} SaturatingIsTally(n: nat, acts: seq<C.ConnAction>)
    requires NeverClips(n, acts)
    ensures SaturatingTally(n, acts) == Tally(n, acts)
    decreases |acts|
  {
    if acts != [] {
      SaturatingIsTally(match acts[0] case StreamOpened => n + 1 case StreamClosed => n - 1 case _ => n, acts[1..]);
    }
  }

  /** Committing a counted call keeps the counter equal to the sum, and the subtraction never saturates. */
  lemma CommitCounts(s: State, h: nat, o: C.ConnOutcome)
    requires CountInv(s) && h in s.conns && CountedCall(s.conns[h], o)
    ensures CountInv(Commit(s, h, o).state)
    ensures NeverClips(s.total, o.actions)
  {
    var n := |s.conns[h].core.streams|;
    SumRemove(s.conns, h);
    TallyShift(n, s.total - n, o.actions);
    SaturatingIsTally(s.total, o.actions);
    SumUpdate(s.conns, h, o.conn);
  }

  lemma StartConnectsCounts(s: State, handles: seq<nat>)
    requires CountInv(s)
    ensures CountInv(StartConnects(s, handles).state)
  {
    SumSame(s.conns, StartConnects(s, handles).state.conns);
  }

  ghost predicate CloseConnsClipFree(s: State, order: seq<nat>)
    decreases |order|
  {
    order != [] ==>
      if order[0] !in s.conns then CloseConnsClipFree(s, order[1..])
      else
        var o := C.OnUpstreamClosed(s.conns[order[0]]);
        NeverClips(s.total, o.actions) && CloseConnsClipFree(Commit(s, order[0], o).state, order[1..])
  }

  /** Every saturating subtraction this event performs is exact. */
  ghost predicate ClipFree(s: State, e: Event)
  {
    match e
    case StreamData(h, d) => h in s.conns ==> NeverClips(s.total, C.OnClientData(s.conns[h], d).actions)
    case StreamClose(h) => h in s.conns ==> |s.conns[h].core.streams| <= s.total
    case BackendAvailable(a, cs, us) => !a ==> CloseConnsClipFree(s.(available := a), cs)
    case UpstreamConnectResult(u, ok) =>
      !ok && s.pending != [] && s.pending[0] in s.conns ==>
        NeverClips(s.total, C.OnUpstreamFailed(s.conns[s.pending[0]]).actions)
    case UpstreamData(u, d) =>
      u in s.up && s.up[u] in s.conns ==> NeverClips(s.total, C.OnUpstreamData(s.conns[s.up[u]], d).actions)
    case UpstreamClosed(u) =>
      u in s.up && s.up[u] in s.conns ==> NeverClips(s.total, C.OnUpstreamClosed(s.conns[s.up[u]]).actions)
    case _ => true
  }

  lemma {:induction false} CloseConnsCounts(s: State, order: seq<nat>)
    requires CountInv(s)
    ensures CountInv(CloseConns(s, order).state)
    ensures CloseConnsClipFree(s, order)
    decreases |order|
  {
    if order != [] {
      if order[0] in s.conns {
        UpstreamGoneCounted(s.conns[order[0]]);
        CommitCounts(s, order[0], C.OnUpstreamClosed(s.conns[order[0]]));
        CloseConnsCounts(Commit(s, order[0], C.OnUpstreamClosed(s.conns[order[0]])).state, order[1..]);
      } else {
        CloseConnsCounts(s, order[1..]);
      }
    }
  }

  lemma StreamCloseCounts(s: State, h: nat)
    requires CountInv(s)
    ensures CountInv(OnStreamClose(s, h).state)
    ensures h in s.conns ==> |s.conns[h].core.streams| <= s.total
  {
    if h in s.conns {
      SumRemove(s.conns, h);
    }
  }

  /** Re-opening a handle is harmless to the counter exactly when nothing counted is thrown away. */
  lemma StreamOpenCounts(s: State, h: nat)
    requires CountInv(s)
    ensures CountInv(Step(s, StreamOpen(h)).state) <==> h in s.conns ==> s.conns[h].core.streams == []
  {
    SumUpdate(s.conns, h, C.NEW_CONN);
  }

  lemma ConnectResultCounts(s: State, u: nat, ok: bool)
    requires CountInv(s)
    ensures CountInv(OnConnectResult(s, u, ok).state)
    ensures ClipFree(s, UpstreamConnectResult(u, ok))
  {
    if s.pending != [] && s.pending[0] in s.conns {
      var h := s.pending[0];
      var popped := s.(pending := s.pending[1..]);
      if ok {
        CountedQuiet(s.conns[h].core.streams, C.OnUpstreamConnected(s.conns[h]).actions);
        CommitCounts(popped.(up := popped.up[u := h]), h, C.OnUpstreamConnected(s.conns[h]));
      } else {
        UpstreamGoneCounted(s.conns[h]);
        CommitCounts(popped, h, C.OnUpstreamFailed(s.conns[h]));
      }
    }
  }

  /** One event keeps the counter equal to the sum, and subtracts exactly. */
  lemma StepCounts(s: State, e: Event)
    requires CountInv(s) && (e.StreamOpen? ==> e.stream !in s.conns)
    ensures CountInv(Step(s, e).state)
    ensures ClipFree(s, e)
  {
    match e
    case StreamOpen(h) =>
      StreamOpenCounts(s, h);
    case StreamData(h, d) =>
      if h in s.conns {
        var o := C.OnClientData(s.conns[h], d);
        ClientDataCounted(s.conns[h], d);
        CommitCounts(s, h, o);
        StartConnectsCounts(Commit(s, h, o).state, []);
        StartConnectsCounts(Commit(s, h, o).state, [h]);
      }
    case StreamClose(h) =>
      StreamCloseCounts(s, h);
    case BackendAvailable(a, cs, us) =>
      var s1 := s.(available := a);
      StartConnectsCounts(s1, WaitingIn(s1.conns, cs));
      CloseConnsCounts(s1, cs);
    case UpstreamConnectResult(u, ok) =>
      ConnectResultCounts(s, u, ok);
    case UpstreamData(u, d) =>
      if u in s.up && s.up[u] in s.conns {
        UpstreamDataCounted(s.conns[s.up[u]], d);
        CommitCounts(s, s.up[u], C.OnUpstreamData(s.conns[s.up[u]], d));
      }
    case UpstreamClosed(u) =>
      if u in s.up && s.up[u] in s.conns {
        UpstreamGoneCounted(s.conns[s.up[u]]);
        CommitCounts(s.(up := s.up - {u}), s.up[u], C.OnUpstreamClosed(s.conns[s.up[u]]));
      }
    case _ =>
  }

  // ---------------------------------------------------------------------
  // The backend-need signal
  // ---------------------------------------------------------------------

  /** The signal in force after the actions, when `n` was in force before. */
  function LastNeed(n: BackendNeed, acts: seq<Action>): BackendNeed
    decreases |acts|
  {
    if acts == [] then n else LastNeed(if acts[0].SetBackendNeed? then acts[0].need else n, acts[1..])
  }

  function Signal(total: nat): BackendNeed { if total > 0 then NeedActive else NeedNone }

  lemma {:induction false} LastNeedAppend(n: BackendNeed, a: seq<Action>, b: seq<Action>)
    ensures LastNeed(n, a + b) == LastNeed(LastNeed(n, a), b)
    decreases |a|
  {
    if a == [] {
      assert a + b == b;
    } else {
      assert (a + b)[1..] == a[1..] + b;
      LastNeedAppend(if a[0].SetBackendNeed? then a[0].need else n, a[1..], b);
    }
  }

  predicate Needless(acts: seq<Action>) { forall i :: 0 <= i < |acts| ==> !acts[i].SetBackendNeed? }

  lemma {:induction false} LastNeedNeedless(n: BackendNeed, acts: seq<Action>)
    requires Needless(acts)
    ensures LastNeed(n, acts) == n
    decreases |acts|
  {
    if acts != [] {
      LastNeedNeedless(n, acts[1..]);
    }
  }

  lemma {:induction false} TranslateNeedless(up: map<nat, nat>, h: nat, acts: seq<C.ConnAction>)
    ensures Needless(TranslateAll(up, h, acts))
  {
    if acts != [] {
      TranslateNeedless(up, h, acts[1..]);
    }
  }

  lemma {:induction false} ConnectsNeedless(n: nat)
    ensures Needless(Connects(n))
  {
    if n > 0 {
      ConnectsNeedless(n - 1);
    }
  }

  lemma {:induction false} CloseConnsNeedless(s: State, order: seq<nat>)
    ensures Needless(CloseConns(s, order).actions)
    decreases |order|
  {
    if order != [] {
      if order[0] in s.conns {
        var o := C.OnUpstreamClosed(s.conns[order[0]]);
        TranslateNeedless(s.up, order[0], o.actions);
        CloseConnsNeedless(Commit(s, order[0], o).state, order[1..]);
      } else {
        CloseConnsNeedless(s, order[1..]);
      }
    }
  }

  lemma {:induction false} CloseUpstreamsNeedless(us: seq<nat>)
    ensures Needless(CloseUpstreams(us))
  {
    if us != [] {
      CloseUpstreamsNeedless(us[1..]);
    }
  }

  lemma TransitionSignals(n: BackendNeed, before: nat, quiet: seq<Action>, after: nat)
    requires Needless(quiet) && n == Signal(before)
    ensures LastNeed(n, quiet + NeedTransition(before, after)) == Signal(after)
  {
    LastNeedAppend(n, quiet, NeedTransition(before, after));
    LastNeedNeedless(n, quiet);
  }

  lemma CommitWithNeedSignals(s: State, h: nat, o: C.ConnOutcome)
    ensures LastNeed(Signal(s.total), CommitWithNeed(s, h, o).actions) == Signal(CommitWithNeed(s, h, o).state.total)
  {
    TranslateNeedless(s.up, h, o.actions);
    TransitionSignals(Signal(s.total), s.total, Commit(s, h, o).actions, Commit(s, h, o).state.total);
  }

  lemma StepSignals(s: State, e: Event)
    ensures LastNeed(Signal(s.total), Step(s, e).actions) == Signal(Step(s, e).state.total)
  {
    var n := Signal(s.total);
    match e
    case StreamData(h, d) =>
      if h in s.conns {
        var o := C.OnClientData(s.conns[h], d);
        var out := Commit(s, h, o);
        TranslateNeedless(s.up, h, o.actions);
        ConnectsNeedless(0);
        ConnectsNeedless(1);
        var handles := if s.available && Waiting(out.state.conns[h]) then [h] else [];
        TransitionSignals(n, s.total, out.actions + Connects(|handles|), out.state.total);
        var need := NeedTransition(s.total, out.state.total);
        assert out.actions + (Connects(|handles|) + need) == out.actions + Connects(|handles|) + need;
      }
    case StreamClose(h) =>
      if h in s.conns {
        var u := UpstreamOf(s.up, h);
        TransitionSignals(n, s.total, if u.Some? then [UpstreamClose(u.value)] else [], Step(s, e).state.total);
      }
    case BackendAvailable(a, cs, us) =>
      var s1 := s.(available := a);
      if a {
        ConnectsNeedless(|WaitingIn(s1.conns, cs)|);
        LastNeedNeedless(n, Step(s, e).actions);
      } else {
        CloseConnsNeedless(s1, cs);
        CloseUpstreamsNeedless(us);
        TransitionSignals(n, s.total, CloseConns(s1, cs).actions + CloseUpstreams(us), CloseConns(s1, cs).state.total);
      }
    case UpstreamConnectResult(u, ok) =>
      ConnectResultSignals(s, u, ok);
    case UpstreamData(u, d) =>
      if u in s.up && s.up[u] in s.conns {
        CommitWithNeedSignals(s, s.up[u], C.OnUpstreamData(s.conns[s.up[u]], d));
      }
    case UpstreamClosed(u) =>
      if u in s.up && s.up[u] in s.conns {
        CommitWithNeedSignals(s.(up := s.up - {u}), s.up[u], C.OnUpstreamClosed(s.conns[s.up[u]]));
      }
    case _ =>
  }

  lemma ConnectResultSignals(s: State, u: nat, ok: bool)
    ensures LastNeed(Signal(s.total), OnConnectResult(s, u, ok).actions)
            == Signal(OnConnectResult(s, u, ok).state.total)
  {
    var out := OnConnectResult(s, u, ok);
    if s.pending != [] && s.pending[0] in s.conns && !ok {
      CommitWithNeedSignals(s.(pending := s.pending[1..]), s.pending[0], C.OnUpstreamFailed(s.conns[s.pending[0]]));
    } else {
      if s.pending != [] && s.pending[0] in s.conns {
        var acts := C.OnUpstreamConnected(s.conns[s.pending[0]]).actions;
        TranslateNeedless(s.up[u := s.pending[0]], s.pending[0], acts);
        assert SaturatingTally(s.total, acts) == SaturatingTally(s.total, acts[1..]);
      }
      LastNeedNeedless(Signal(s.total), out.actions);
    }
  }

  /** No stream is opened under a handle that is still live. */
  ghost predicate OpensFresh(es: seq<Event>)
  {
    es != [] ==>
      && OpensFresh(es[..|es| - 1])
      && (es[|es| - 1].StreamOpen? ==> es[|es| - 1].stream !in Run(es[..|es| - 1]).state.conns)
  }

  lemma {:induction false} FreshRunOpensFresh(es: seq<Event>)
    requires FreshRun(es)
    ensures OpensFresh(es)
  {
    if es != [] {
      FreshRunOpensFresh(es[..|es| - 1]);
    }
  }

  /**
   * On every run that opens fresh stream handles: the counter is the number of open HTTP/2 streams over all
   * live connections, no subtraction from it ever saturated, and the last backend need emitted (none, to
   * begin with) is Active exactly when some connection has an open stream. Nothing is asked of upstream
   * handles or iteration orders.
   */
  lemma CounterAndNeedOnEveryRun(es: seq<Event>)
    requires OpensFresh(es)
    ensures Run(es).state.total == SumStreams(Run(es).state.conns)
    ensures forall i :: 0 <= i < |es| ==> ClipFree(Run(es[..i]).state, es[i])
    ensures LastNeed(NeedNone, Run(es).actions)
            == if exists h :: h in Run(es).state.conns && Run(es).state.conns[h].core.streams != []
               then NeedActive else NeedNone
  {
    RunCounts(es);
    SumPositive(Run(es).state.conns);
  }

  lemma {:induction false} RunCounts(es: seq<Event>)
    requires OpensFresh(es)
    ensures CountInv(Run(es).state)
    ensures forall i :: 0 <= i < |es| ==> ClipFree(Run(es[..i]).state, es[i])
    ensures LastNeed(NeedNone, Run(es).actions) == Signal(Run(es).state.total)
  {
    if es != [] {
      var before, e := Run(es[..|es| - 1]), es[|es| - 1];
      RunCounts(es[..|es| - 1]);
      StepCounts(before.state, e);
      StepSignals(before.state, e);
      LastNeedAppend(NeedNone, before.actions, Step(before.state, e).actions);
      forall i | 0 <= i < |es| ensures ClipFree(Run(es[..i]).state, es[i]) {
        assert i < |es| - 1 ==> es[..|es| - 1][..i] == es[..i] && es[..|es| - 1][i] == es[i];
      }
    }
  }
}
