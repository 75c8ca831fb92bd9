/**
 * Runs of the closed loop from the start: one in which a send is cut short, and one in which a connection waits for
 * an upstream that nobody is connecting.
 */
module FindingsLoop {
  import opened Common
  import A = Http2Activator
  import C = Http2Connection
  import F = Http2Frames
  import M = StreamManager
  import P = StreamManagerReports
  import N = ActivatorAddresses
  import G = FindingsStreamManager
  import opened ActivatorLoop
  import opened Findings

  const GREETING: seq<Byte> := F.CLIENT_PREFACE + OPEN_ONE_STREAM

  // ---------------------------------------------------------------------
  // The sockets: 1 is the client's, 2 the listener that replaces it, 3 the upstream's
  // ---------------------------------------------------------------------

  /** A manager that listens on one socket. */
  const IDLE := M.Manager(map[], map[], [1], 1, {1}, {}, M.PORT_RANGE_START, false, map[])
  const READY := IDLE.(backend := true)

  const LISTENING := M.Socket(M.Listen, false, [], false, None)

  const NOBODY := M.Oracle(_ => LISTENING, _ => None, [])

  /** The client is connected and has sent its greeting. */
  const GREETS := M.Oracle(h => if h == 1 then M.Socket(M.Established, true, GREETING, false, Some(80)) else LISTENING,
                           _ => Some(2), [1])

  /** Later it is quiet, and the upstream's socket is in the given state. */
  function Later(upstream: M.TcpState, order: seq<nat>): M.Oracle
  {
    M.Oracle(h => if h == 1 then M.Socket(M.Established, false, [], false, Some(80))
                  else if h == 3 then M.Socket(upstream, false, [], false, None)
                  else LISTENING,
             _ => None, order)
  }

  const CLIENT := M.Stream(1, M.Downstream, true, false, false, None)

  /** The manager serves the client. */
  ghost predicate Serving(m: M.Manager)
  {
    m.backend && m.listeners == [2] && m.sockets == {1, 2} && m.nextStreamId == 2 && m.streams == map[1 := CLIENT]
  }

  /** It has dialled the backend as well, and was not answered. */
  ghost predicate Dialled(m: M.Manager)
  {
    && m.backend && m.listeners == [2] && m.streams.Keys == {1, 2}
    && m.streams[1] == CLIENT && m.streams[2].handle == 3 && G.Unanswered(m.streams[2])
  }

  lemma GreetingAccepted() returns (m: M.Manager)
    ensures M.AcceptPhase(READY, GREETS) == M.Scanned(m, [A.StreamOpen(1)])
    ensures Serving(m) && m.written == map[]
  {
    assert [1][1..] == [];
    assert M.EstablishedIn([1], GREETS.socket, true) == [1] && M.EstablishedIn([1], GREETS.socket, false) == [];
    m := M.AcceptPhase(READY, GREETS).manager;
  }

  /** A poll, by whom it accepts and what the walk finds. */
  lemma PollFinds(m: M.Manager, o: M.Oracle, acc: M.Scanned, walked: M.Walked)
    requires M.AcceptPhase(m, o) == acc && M.Walk(acc.manager.streams, o, o.order) == walked
    requires M.FreshHandles(m, o) && Enumerates(o.order, acc.manager.streams.Keys)
    ensures M.Plausible(m, M.Input(M.Other, o))
    ensures M.Step(m, M.Input(M.Other, o))
            == M.Scanned(M.DropAll(acc.manager.(streams := walked.streams), walked.closed), acc.events + walked.events)
    ensures P.SilentEnds(M.Execute(m, M.Other), o) == P.UnreportedIn(walked.streams, walked.closed)
  {
    assert M.Execute(m, M.Other) == m;
  }

  lemma PollDropsNone(m: M.Manager, o: M.Oracle, acc: M.Scanned, events: seq<A.Event>)
    requires M.AcceptPhase(m, o) == acc
    requires M.Walk(acc.manager.streams, o, o.order) == M.Walked(acc.manager.streams, events, [])
    requires M.FreshHandles(m, o) && Enumerates(o.order, acc.manager.streams.Keys)
    ensures M.Plausible(m, M.Input(M.Other, o))
    ensures M.Step(m, M.Input(M.Other, o)) == M.Scanned(acc.manager, acc.events + events)
    ensures P.SilentEnds(M.Execute(m, M.Other), o) == {}
  {
    PollFinds(m, o, acc, M.Walked(acc.manager.streams, events, []));
    assert M.DropAll(acc.manager, []) == acc.manager;
  }

  lemma Greeted()
    ensures var sc := M.Step(READY, M.Input(M.Other, GREETS));
            && Serving(sc.manager) && sc.manager.written == map[]
            && sc.events == [A.StreamOpen(1), A.StreamData(1, GREETING)]
    ensures M.Plausible(READY, M.Input(M.Other, GREETS))
    ensures P.SilentEnds(M.Execute(READY, M.Other), GREETS) == {}
  {
    var m := GreetingAccepted();
    GreetingWalked(m.streams);
    PollDropsNone(READY, GREETS, M.Scanned(m, [A.StreamOpen(1)]), [A.StreamData(1, GREETING)]);
  }

  lemma GreetingWalked(streams: map<nat, M.Stream>)
    requires streams == map[1 := CLIENT]
    ensures M.Walk(streams, GREETS, GREETS.order) == M.Walked(streams, [A.StreamData(1, GREETING)], [])
  {
    var seen := M.Observe(1, CLIENT, GREETS.socket(1));
    assert seen == M.Observed(CLIENT, [A.StreamData(1, GREETING)], false);
    assert [1][1..] == [];
    assert streams[1 := CLIENT] == streams;
    assert M.Walk(streams, GREETS, []) == M.Walked(streams, [], []);
    assert seen.events + [] == seen.events;
  }

  lemma ClientIsStill(upstream: M.TcpState, order: seq<nat>)
    ensures M.Observe(1, CLIENT, Later(upstream, order).socket(1)) == M.Observed(CLIENT, [], false)
  {
  }

  // ---------------------------------------------------------------------
  // The activator
  // ---------------------------------------------------------------------

  const WILLING := A.INITIAL.(available := true)
  const OPENED := WILLING.(conns := map[1 := C.NEW_CONN])

  /** The greeting makes the activator send its settings and ask for one connection. */
  lemma GreetingAnswered(s: A.State)
    requires s == OPENED
    ensures var out := A.OnStreamData(s, 1, GREETING);
            && out.state.pending == [1] && out.state.up == map[]
            && Relayed(out.actions)
               == [A.DownstreamSend(1, F.OurSettings(), C.Proxy), A.UpstreamConnect(A.BACKEND_PORT)]
  {
    OneStreamOpened();
    var acts := [C.DownstreamSend(F.OurSettings(), C.Proxy), C.StreamOpened];
    TwoTranslated(s.up, acts);
    assert A.Connects(1) == [A.UpstreamConnect(A.BACKEND_PORT)] + A.Connects(0);
    var need := A.NeedTransition(s.total, A.Commit(s, 1, C.OnClientData(C.NEW_CONN, GREETING)).state.total);
    TwoRelayed(A.DownstreamSend(1, F.OurSettings(), C.Proxy), A.UpstreamConnect(A.BACKEND_PORT), need);
    assert [] + [1] == [1];
  }

  lemma TwoTranslated(up: map<nat, nat>, acts: seq<C.ConnAction>)
    requires acts == [C.DownstreamSend(F.OurSettings(), C.Proxy), C.StreamOpened]
    ensures A.TranslateAll(up, 1, acts) == [A.DownstreamSend(1, F.OurSettings(), C.Proxy)]
  {
    assert acts[1..] == [C.StreamOpened] && acts[1..][1..] == [];
    assert A.TranslateAll(up, 1, acts[1..]) == [];
  }

  lemma TwoRelayed(a: A.Action, b: A.Action, need: seq<A.Action>)
    requires IsL4(a) && IsL4(b) && (need == [] || (|need| == 1 && need[0].SetBackendNeed?))
    ensures Relayed([a] + ([b] + need)) == [a, b]
  {
    var acts := [a] + ([b] + need);
    assert acts[1..] == [b] + need && acts[1..][1..] == need && (need != [] ==> need[1..] == []);
    assert Relayed(need) == [];
    assert Relayed(acts[1..]) == [b];
  }

  // ---------------------------------------------------------------------
  // The runs, turn by turn
  // ---------------------------------------------------------------------

  /** No connect was cancelled, refused or surplus, and no result dropped. */
  ghost predicate Unspoilt(w: World) { w.cancelled == 0 && w.refused == 0 && w.surplus == 0 && w.dropped == 0 }

  /** A turn of the manager in which nothing is to be seen. */
  lemma StillTurn(w: World, i: M.Input)
    requires var m := M.Execute(w.manager, i.action); G.Still(m, i.oracle) && Enumerates(i.oracle.order, m.streams.Keys)
    requires i.action.Connect? ==> i.action.handle !in w.manager.sockets && w.manager.backend
    requires forall h :: i.oracle.relisten(h) == None
    requires FromActivator(i.action) ==> w.outbox != [] && Carries(w.outbox[0], i.action)
    ensures Possible(w, Manage(i))
    ensures var w' := Take(w, Manage(i));
            && w'.manager == M.Execute(w.manager, i.action) && w'.state == w.state && w'.seen == w.seen
            && w'.inputs == w.inputs + [i] && w'.inbox == w.inbox && w'.silent == w.silent
            && w'.outbox == (if FromActivator(i.action) then w.outbox[1..] else w.outbox)
            && (Unspoilt(w) ==> Unspoilt(w'))
  {
    var m := M.Execute(w.manager, i.action);
    G.StepStill(w.manager, i);
    G.ScanStill(m, i.oracle);
    G.WalkStill(m.streams, i.oracle, i.oracle.order);
    assert P.SilentEnds(m, i.oracle) == {};
    assert w.inbox + [] == w.inbox;
  }

  const CONFIGURE := Manage(M.Input(M.SetBackend(true), NOBODY))
  const ANNOUNCE := Tell(A.BackendAvailable(true, [], []))
  const ACCEPT := Manage(M.Input(M.Other, GREETS))

  lemma Configured(w: World)
    requires w == Start(IDLE)
    ensures Possible(w, CONFIGURE)
    ensures var w' := Take(w, CONFIGURE);
            && w'.manager == READY && w'.state == A.INITIAL && w'.inbox == [] && w'.outbox == [] && w'.silent == 0
            && Unspoilt(w')
  {
    ConfiguredIsStill();
    StillTurn(w, CONFIGURE.input);
  }

  lemma ConfiguredIsStill()
    ensures M.Execute(IDLE, M.SetBackend(true)) == READY && G.Still(READY, NOBODY) && Enumerates([], READY.streams.Keys)
  {
  }

  lemma Announced(w: World)
    requires w.state == A.INITIAL && w.outbox == [] && Unspoilt(w)
    ensures Possible(w, ANNOUNCE)
    ensures var w' := Take(w, ANNOUNCE);
            && w'.manager == w.manager && w'.state == WILLING && w'.inbox == w.inbox && w'.outbox == []
            && w'.silent == w.silent && Unspoilt(w')
  {
    assert A.StartConnects(WILLING, []).state == WILLING;
  }

  lemma Accepted(w: World)
    requires w.manager == READY && w.inbox == [] && w.outbox == [] && w.silent == 0 && Unspoilt(w)
    ensures Possible(w, ACCEPT)
    ensures var w' := Take(w, ACCEPT);
            && Serving(w'.manager) && w'.manager.written == map[] && w'.state == w.state
            && w'.inbox == [A.StreamOpen(1), A.StreamData(1, GREETING)]
            && w'.outbox == [] && w'.silent == 0 && Unspoilt(w')
  {
    Greeted();
  }

  lemma OpenTaken(w: World)
    requires w.state == WILLING
             && w.inbox == [A.StreamOpen(1), A.StreamData(1, GREETING)] && w.outbox == [] && Unspoilt(w)
    ensures Possible(w, Deliver)
    ensures var w' := Take(w, Deliver);
            && w'.manager == w.manager && w'.state == OPENED && w'.inbox == [A.StreamData(1, GREETING)]
            && w'.outbox == [] && w'.silent == w.silent && Unspoilt(w')
  {
    assert [A.StreamOpen(1), A.StreamData(1, GREETING)][1..] == [A.StreamData(1, GREETING)];
  }

  /** The client is served; the activator has answered it and asked for a connection; nothing was carried out yet. */
  ghost predicate Asking(w: World)
  {
    && Serving(w.manager) && w.manager.written == map[] && w.state.pending == [1] && w.state.up == map[]
    && w.inbox == [] && w.silent == 0 && Unspoilt(w)
    && w.outbox == [A.DownstreamSend(1, F.OurSettings(), C.Proxy), A.UpstreamConnect(A.BACKEND_PORT)]
  }

  lemma GreetingTaken(w: World)
    requires Serving(w.manager) && w.manager.written == map[] && w.state == OPENED && w.outbox == []
    requires w.inbox == [A.StreamData(1, GREETING)] && w.silent == 0 && Unspoilt(w)
    ensures Possible(w, Deliver) && Asking(Take(w, Deliver))
  {
    GreetingAnswered(w.state);
    assert [A.StreamData(1, GREETING)][1..] == [];
  }

  lemma Accepting() returns (turns: seq<Turn>)
    ensures PossibleRun(IDLE, turns)
    ensures var w := Run(IDLE, turns);
            && Serving(w.manager) && w.manager.written == map[] && w.state == WILLING
            && w.inbox == [A.StreamOpen(1), A.StreamData(1, GREETING)] && w.outbox == [] && w.silent == 0 && Unspoilt(w)
  {
    turns := [];
    Configured(Run(IDLE, turns));
    RunNext(IDLE, turns, CONFIGURE);
    turns := turns + [CONFIGURE];
    Announced(Run(IDLE, turns));
    RunNext(IDLE, turns, ANNOUNCE);
    turns := turns + [ANNOUNCE];
    Accepted(Run(IDLE, turns));
    RunNext(IDLE, turns, ACCEPT);
    turns := turns + [ACCEPT];
  }

  lemma AskingRun() returns (turns: seq<Turn>)
    ensures PossibleRun(IDLE, turns) && Asking(Run(IDLE, turns))
  {
    turns := Accepting();
    OpenTaken(Run(IDLE, turns));
    RunNext(IDLE, turns, Deliver);
    turns := turns + [Deliver];
    GreetingTaken(Run(IDLE, turns));
    RunNext(IDLE, turns, Deliver);
    turns := turns + [Deliver];
  }

  // ---------------------------------------------------------------------
  // A send that is cut short
  // ---------------------------------------------------------------------

  function SendSettings(n: nat): M.Input
  {
    M.Input(M.SendDown(1, F.OurSettings(), M.Takes(n)), Later(M.SynSent, [1]))
  }

  lemma SettingsSent(w: World, n: nat)
    requires Asking(w)
    ensures Possible(w, Manage(SendSettings(n)))
    ensures var w' := Take(w, Manage(SendSettings(n)));
            && Serving(w'.manager) && M.Written(w'.manager, 1) == M.Accepted(F.OurSettings(), M.Takes(n))
            && w'.state == w.state && w'.inbox == [] && w'.outbox == [A.UpstreamConnect(A.BACKEND_PORT)]
            && w'.silent == 0 && Unspoilt(w')
  {
    ClientIsStill(M.SynSent, [1]);
    var m := M.Execute(w.manager, SendSettings(n).action);
    assert m == M.Write(w.manager, 1, M.Accepted(F.OurSettings(), M.Takes(n)));
    StillTurn(w, SendSettings(n));
    assert [] + M.Accepted(F.OurSettings(), M.Takes(n)) == M.Accepted(F.OurSettings(), M.Takes(n));
  }

  lemma SettingsRun(n: nat) returns (turns: seq<Turn>)
    ensures PossibleRun(IDLE, turns) && turns != [] && turns[|turns| - 1] == Manage(SendSettings(n))
    ensures var w := Run(IDLE, turns);
            && Serving(w.manager) && M.Written(w.manager, 1) == M.Accepted(F.OurSettings(), M.Takes(n))
            && w.state.pending == [1] && w.state.up == map[] && w.inbox == []
            && w.outbox == [A.UpstreamConnect(A.BACKEND_PORT)] && w.silent == 0 && Unspoilt(w)
  {
    turns := AskingRun();
    SettingsSent(Run(IDLE, turns), n);
    RunNext(IDLE, turns, Manage(SendSettings(n)));
    turns := turns + [Manage(SendSettings(n))];
  }

  /** Part of a frame is no frame. */
  lemma PartIsUnframed(raw: seq<Byte>, n: nat)
    requires F.IsWholeFrame(raw) && 0 < n < |raw|
    ensures !F.IsFramed(raw[..n])
  {
    if n >= 9 {
      assert F.FrameSize(raw[..n]) == F.FrameSize(raw);
    }
  }

  /**
   * The client's transmit buffer has room for n bytes, fewer than the settings frame has: the client gets the first n
   * bytes of it, the rest is gone, and there is no event to tell the activator.
   */
  lemma GreetingIsCutShort(n: nat) returns (turns: seq<Turn>)
    requires 0 < n < |F.OurSettings()|
    ensures M.Initial(IDLE) && PossibleRun(IDLE, turns) && turns != [] && turns[|turns| - 1] == Manage(SendSettings(n))
    ensures var w := Run(IDLE, turns);
            && M.Written(w.manager, 1) == F.OurSettings()[..n] && !F.IsFramed(M.Written(w.manager, 1))
            && N.Handed(w.outbox, 1) == [] && w.inbox == []
  {
    turns := SettingsRun(n);
    SettingsCut(n);
    NothingToClient(Run(IDLE, turns).outbox);
  }

  lemma SettingsCut(n: nat)
    requires 0 < n < |F.OurSettings()|
    ensures M.Accepted(F.OurSettings(), M.Takes(n)) == F.OurSettings()[..n] && !F.IsFramed(F.OurSettings()[..n])
  {
    F.GeneratedFramesWhole([], 0, 0, 0);
    PartIsUnframed(F.OurSettings(), n);
  }

  lemma NothingToClient(acts: seq<A.Action>)
    requires |acts| == 1 && acts[0].UpstreamConnect?
    ensures N.Handed(acts, 1) == []
  {
    assert acts[1..] == [];
  }

  // ---------------------------------------------------------------------
  // A connect that is never answered
  // ---------------------------------------------------------------------

  const DIAL := M.Input(M.Connect(3), Later(M.SynSent, [1, 2]))
  const ANSWER := M.Input(M.Other, Later(M.SynReceived, [1, 2]))
  const END := M.Input(M.Other, Later(M.CloseWait, [1, 2]))

  lemma BothAreStill(m: M.Manager, state: M.TcpState)
    requires Dialled(m) && G.Handshaking(state)
    ensures G.Still(m, Later(state, [1, 2])) && Enumerates([1, 2], m.streams.Keys)
  {
    ClientIsStill(state, [1, 2]);
    G.HandshakeIsStill(2, m.streams[2], Later(state, [1, 2]).socket(3));
  }

  /** The activator's connection is pending, and everything it asked for was carried out. */
  ghost predicate Asked(w: World)
  {
    Dialled(w.manager) && w.state.pending == [1] && w.state.up == map[]
    && w.inbox == [] && w.outbox == [] && Unspoilt(w)
  }

  lemma DialOpens(m: M.Manager)
    requires Serving(m)
    ensures Dialled(M.Execute(m, DIAL.action)) && 3 !in m.sockets
  {
    assert M.Execute(m, DIAL.action) == M.OpenUpstream(m, 3);
  }

  lemma DialTaken(w: World)
    requires Serving(w.manager) && w.state.pending == [1] && w.state.up == map[] && w.inbox == [] && w.silent == 0
    requires w.outbox == [A.UpstreamConnect(A.BACKEND_PORT)] && Unspoilt(w)
    ensures Possible(w, Manage(DIAL)) && Asked(Take(w, Manage(DIAL))) && Take(w, Manage(DIAL)).silent == 0
  {
    DialOpens(w.manager);
    BothAreStill(M.Execute(w.manager, DIAL.action), M.SynSent);
    StillTurn(w, DIAL);
    assert w.outbox[1..] == [];
  }

  lemma StillPoll(w: World, o: M.Oracle)
    requires Asked(w) && w.silent == 0
    requires G.Still(w.manager, o) && Enumerates(o.order, w.manager.streams.Keys) && forall h :: o.relisten(h) == None
    ensures var t := Manage(M.Input(M.Other, o)); Possible(w, t) && Asked(Take(w, t)) && Take(w, t).silent == 0
  {
    assert M.Execute(w.manager, M.Other) == w.manager;
    StillTurn(w, M.Input(M.Other, o));
    AskedKept(w, Take(w, Manage(M.Input(M.Other, o))));
  }

  lemma AskedKept(w: World, w': World)
    requires Asked(w) && w'.manager == w.manager && w'.state == w.state && w'.inbox == w.inbox && w'.outbox == w.outbox
    requires Unspoilt(w')
    ensures Asked(w')
  {
  }

  lemma AnswerTaken(w: World)
    requires Asked(w) && w.silent == 0
    ensures Possible(w, Manage(ANSWER)) && Asked(Take(w, Manage(ANSWER))) && Take(w, Manage(ANSWER)).silent == 0
  {
    BothAreStill(w.manager, M.SynReceived);
    StillPoll(w, Later(M.SynReceived, [1, 2]));
  }

  function AfterEnd(m: M.Manager): map<nat, M.Stream>
    requires 2 in m.streams
  {
    m.streams[2 := m.streams[2].(closedNotified := true)]
  }

  lemma EndIsFresh(m: M.Manager)
    requires m.streams.Keys == {1, 2}
    ensures M.FreshHandles(m, END.oracle) && Enumerates(END.oracle.order, m.streams.Keys)
  {
  }

  lemma EndAcceptsNobody(m: M.Manager)
    requires m.listeners == [2]
    ensures M.AcceptPhase(m, END.oracle) == M.Scanned(m, [])
  {
    G.NoneEstablished(m.listeners, END.oracle.socket);
  }

  /** The upstream is next seen half closed. */
  lemma Ended(m: M.Manager) returns (o: M.Oracle)
    requires Dialled(m)
    ensures END == M.Input(M.Other, o) && M.FreshHandles(m, o) && Enumerates(o.order, m.streams.Keys)
    ensures M.AcceptPhase(m, o) == M.Scanned(m, [])
    ensures M.Walk(m.streams, o, o.order) == M.Walked(AfterEnd(m), [A.UpstreamClosed(2)], [2])
  {
    o := END.oracle;
    EndIsFresh(m);
    EndAcceptsNobody(m);
    EndWalked(m);
  }

  lemma EndedSilently(m: M.Manager)
    requires Dialled(m)
    ensures P.UnreportedIn(AfterEnd(m), [2]) == {2}
    ensures P.Unreported(M.DropAll(m.(streams := AfterEnd(m)), [2]).streams) == {}
  {
    var ended := m.(streams := AfterEnd(m));
    assert [2][1..] == [];
    assert M.DropAll(ended, [2]) == M.DropAll(M.Drop(ended, 2), []);
    assert M.Drop(ended, 2).streams == AfterEnd(m) - {2};
  }

  lemma EndScanned(m: M.Manager) returns (o: M.Oracle, m': M.Manager)
    requires Dialled(m)
    ensures END == M.Input(M.Other, o)
    ensures M.Plausible(m, M.Input(M.Other, o))
            && M.Step(m, M.Input(M.Other, o)) == M.Scanned(m', [A.UpstreamClosed(2)])
    ensures P.SilentEnds(M.Execute(m, M.Other), o) == {2} && P.Unreported(m'.streams) == {}
  {
    o := Ended(m);
    var walked := M.Walked(AfterEnd(m), [A.UpstreamClosed(2)], [2]);
    m' := M.DropAll(m.(streams := walked.streams), walked.closed);
    PollFinds(m, o, M.Scanned(m, []), walked);
    assert [] + walked.events == walked.events;
    EndedSilently(m);
  }

  /** A poll, by what it finds. */
  lemma Polled(w: World, o: M.Oracle, m: M.Manager, events: seq<A.Event>, silent: set<nat>)
    requires M.Plausible(w.manager, M.Input(M.Other, o))
             && M.Step(w.manager, M.Input(M.Other, o)) == M.Scanned(m, events)
    requires P.SilentEnds(M.Execute(w.manager, M.Other), o) == silent
    ensures var t := Manage(M.Input(M.Other, o));
            && Possible(w, t)
            && Take(w, t) == w.(manager := m, inputs := w.inputs + [t.input], inbox := w.inbox + events,
                                silent := w.silent + |silent|)
  {
  }

  lemma EndWalked(m: M.Manager)
    requires Dialled(m)
    ensures var w := M.Walk(m.streams, END.oracle, [1, 2]);
            w == M.Walked(AfterEnd(m), [A.UpstreamClosed(2)], [2])
  {
    var o := END.oracle;
    ClientIsStill(M.CloseWait, [1, 2]);
    G.EndIsSeen(2, m.streams[2], o.socket(3));
    assert [1, 2][1..] == [2] && [2][1..] == [];
    assert m.streams[1 := m.streams[1]] == m.streams;
    var ended := AfterEnd(m);
    assert M.Walk(ended, o, []) == M.Walked(ended, [], []);
    assert M.Walk(m.streams, o, [2]) == M.Walked(ended, [A.UpstreamClosed(2)] + [], [2] + []);
  }

  lemma EndTaken(w: World)
    requires Asked(w) && w.silent == 0
    ensures Possible(w, Manage(END))
    ensures var w' := Take(w, Manage(END));
            && P.Unreported(w'.manager.streams) == {} && w'.state == w.state && w'.inbox == [A.UpstreamClosed(2)]
            && w'.outbox == [] && w'.silent == 1 && Unspoilt(w')
  {
    var o, m' := EndScanned(w.manager);
    Polled(w, o, m', [A.UpstreamClosed(2)], {2});
    assert [] + [A.UpstreamClosed(2)] == [A.UpstreamClosed(2)];
  }

  /** The activator does not know the upstream that ended. */
  lemma EndIgnored(w: World)
    requires w.state.up == map[] && w.inbox == [A.UpstreamClosed(2)] && w.outbox == [] && Unspoilt(w)
    ensures Possible(w, Deliver)
    ensures var w' := Take(w, Deliver);
            && w'.manager == w.manager && w'.state == w.state && w'.inbox == [] && w'.outbox == []
            && w'.silent == w.silent && Unspoilt(w')
  {
    assert [A.UpstreamClosed(2)][1..] == [];
  }

  lemma AskedRun() returns (turns: seq<Turn>)
    ensures PossibleRun(IDLE, turns) && Asked(Run(IDLE, turns)) && Run(IDLE, turns).silent == 0
  {
    turns := SettingsRun(|F.OurSettings()|);
    DialTaken(Run(IDLE, turns));
    RunNext(IDLE, turns, Manage(DIAL));
    turns := turns + [Manage(DIAL)];
  }

  lemma AnsweredRun() returns (turns: seq<Turn>)
    ensures PossibleRun(IDLE, turns) && Asked(Run(IDLE, turns)) && Run(IDLE, turns).silent == 0
  {
    turns := AskedRun();
    AnswerTaken(Run(IDLE, turns));
    RunNext(IDLE, turns, Manage(ANSWER));
    turns := turns + [Manage(ANSWER)];
  }

  /**
   * The backend is known and is dialled, and its end of the connection closes with the segment that completes the
   * handshake: the activator hears only that an upstream it does not know has ended, and its connection stays pending
   * although no answer is on its way.
   */
  lemma ConnectIsStranded() returns (turns: seq<Turn>)
    ensures M.Initial(IDLE) && PossibleRun(IDLE, turns)
    ensures var w := Run(IDLE, turns);
            && w.state.pending == [1] && Awaited(w) == 0 && w.inbox == [] && w.silent == 1 && Unspoilt(w)
  {
    turns := AnsweredRun();
    EndTaken(Run(IDLE, turns));
    RunNext(IDLE, turns, Manage(END));
    turns := turns + [Manage(END)];
    EndIgnored(Run(IDLE, turns));
    RunNext(IDLE, turns, Deliver);
    turns := turns + [Deliver];
  }
}
