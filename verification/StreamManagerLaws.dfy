/** What the stream manager guarantees for arbitrary socket behaviour. */
module StreamManagerLaws {
  import opened Common
  import A = Http2Activator
  import opened StreamManager

  // ---------------------------------------------------------------------
  // The tables
  // ---------------------------------------------------------------------

  ghost predicate StreamsInv(m: Manager)
  {
    forall id :: id in m.streams ==>
      var st := m.streams[id];
      && 1 <= id < m.nextStreamId
      && st.handle in m.handleToStream && m.handleToStream[st.handle] == id
      && (if st.direction.Downstream? then st.openedNotified && st.localPort == None else st.localPort.Some?)
  }

  ghost predicate HandlesInv(m: Manager)
  {
    forall h :: h in m.handleToStream ==>
      && m.handleToStream[h] in m.streams && m.streams[m.handleToStream[h]].handle == h
      && h in m.sockets && h !in m.listeners
  }

  ghost predicate ListenersInv(m: Manager)
  {
    NoDuplicates(m.listeners) && forall h :: h in m.listeners ==> h in m.sockets
  }

  /** The two stream tables are inverse to each other, and every handle they use is an open socket. */
  ghost predicate Tables(m: Manager) { StreamsInv(m) && HandlesInv(m) && ListenersInv(m) && m.nextStreamId >= 1 }

  ghost predicate AllOpen(streams: map<nat, Stream>)
  {
    forall id :: id in streams ==> !streams[id].closedNotified
  }

  lemma AddStreamTables(m: Manager, st: Stream)
    requires Tables(m) && AllOpen(m.streams)
    requires st.handle in m.sockets && st.handle !in m.listeners && st.handle !in m.handleToStream
    requires if st.direction.Downstream? then st.openedNotified && st.localPort == None else st.localPort.Some?
    requires !st.closedNotified
    ensures Tables(AddStream(m, st)) && AllOpen(AddStream(m, st).streams)
  {
  }

  lemma AddListenerTables(m: Manager, handle: Option<nat>)
    requires Tables(m) && (handle.Some? ==> handle.value !in m.sockets)
    ensures Tables(AddListener(m, handle))
  {
  }

  lemma OpenUpstreamTables(m: Manager, handle: nat)
    requires Tables(m) && AllOpen(m.streams) && handle !in m.sockets
    ensures Tables(OpenUpstream(m, handle)) && AllOpen(OpenUpstream(m, handle).streams)
  {
    var choice := ChoosePort(m.ports, m.nextPort, PORT_RANGE_SIZE as nat);
    var ports := if choice.taken then m.ports + {choice.port} else m.ports;
    var m1 := m.(sockets := m.sockets + {handle}, ports := ports, nextPort := choice.next);
    AddStreamTables(m1, Stream(handle, Upstream, false, false, false, Some(choice.port)));
  }

  lemma SetPausedTables(m: Manager, id: nat, paused: bool, upstreamOnly: bool)
    requires Tables(m) && AllOpen(m.streams)
    ensures var m' := SetPaused(m, id, paused, upstreamOnly); Tables(m') && AllOpen(m'.streams)
  {
  }

  lemma ExecuteTables(m: Manager, a: ManagerAction)
    requires Tables(m) && AllOpen(m.streams) && (a.Connect? ==> a.handle !in m.sockets)
    ensures Tables(Execute(m, a)) && AllOpen(Execute(m, a).streams)
  {
    match a
    case Connect(handle) => OpenUpstreamTables(m, handle);
    case Pause(id) => SetPausedTables(m, id, true, false);
    case Resume(id) => SetPausedTables(m, id, false, false);
    case PauseIfUpstream(id) => SetPausedTables(m, id, true, true);
    case ResumeIfUpstream(id) => SetPausedTables(m, id, false, true);
    case _ =>
  }

  lemma {:induction false} EstablishedInSpec(ls: seq<nat>, socket: nat -> Socket, yes: bool)
    ensures forall h :: h in EstablishedIn(ls, socket, yes) <==> h in ls && socket(h).state.Established? == yes
    ensures NoDuplicates(ls) ==> NoDuplicates(EstablishedIn(ls, socket, yes))
  {
    if ls != [] {
      EstablishedInSpec(ls[1..], socket, yes);
      assert ls == [ls[0]] + ls[1..];
      if NoDuplicates(ls) {
        assert ls[0] !in ls[1..];
        var tail := EstablishedIn(ls[1..], socket, yes);
        assert forall i :: 0 <= i < |tail| ==> tail[i] in ls[1..];
      }
    }
  }

  /** The handles still to be accepted belong to nobody, and their replacements are new. */
  ghost predicate Acceptable(m: Manager, handles: seq<nat>, o: Oracle)
  {
    && NoDuplicates(handles)
    && (forall h :: h in handles ==>
          && h in m.sockets && h !in m.listeners && h !in m.handleToStream
          && (o.relisten(h).Some? ==> o.relisten(h).value !in m.sockets))
    && (forall g, h :: g in handles && h in handles && g != h && o.relisten(g).Some? ==> o.relisten(g) != o.relisten(h))
  }

  lemma AcceptTables(m: Manager, h: nat, o: Oracle)
    requires Tables(m) && AllOpen(m.streams) && h in m.sockets && h !in m.listeners && h !in m.handleToStream
    requires o.relisten(h).Some? ==> o.relisten(h).value !in m.sockets
    ensures Tables(Accept(m, h, o).manager) && AllOpen(Accept(m, h, o).manager.streams)
  {
    if o.socket(h).localPort.Some? {
      AddStreamTables(m, Stream(h, Downstream, true, false, false, None));
      AddListenerTables(AddStream(m, Stream(h, Downstream, true, false, false, None)), o.relisten(h));
    }
  }

  lemma AcceptRest(m: Manager, handles: seq<nat>, o: Oracle)
    requires handles != [] && Acceptable(m, handles, o)
    ensures Acceptable(Accept(m, handles[0], o).manager, handles[1..], o)
  {
    var h := handles[0];
    assert handles == [h] + handles[1..] && h !in handles[1..];
  }

  lemma {:induction false} AcceptAllTables(m: Manager, handles: seq<nat>, o: Oracle)
    requires Tables(m) && AllOpen(m.streams) && Acceptable(m, handles, o)
    ensures var m' := AcceptAll(m, handles, o).manager; Tables(m') && AllOpen(m'.streams)
    decreases |handles|
  {
    if handles != [] {
      AcceptTables(m, handles[0], o);
      AcceptRest(m, handles, o);
      AcceptAllTables(Accept(m, handles[0], o).manager, handles[1..], o);
    }
  }

  lemma AcceptPhaseTables(m: Manager, o: Oracle)
    requires Tables(m) && AllOpen(m.streams) && FreshHandles(m, o)
    ensures var m' := AcceptPhase(m, o).manager; Tables(m') && AllOpen(m'.streams)
  {
    var kept := EstablishedIn(m.listeners, o.socket, false);
    var handles := EstablishedIn(m.listeners, o.socket, true);
    EstablishedInSpec(m.listeners, o.socket, false);
    EstablishedInSpec(m.listeners, o.socket, true);
    AcceptAllTables(m.(listeners := kept), handles, o);
  }

  // ---------------------------------------------------------------------
  // The walk
  // ---------------------------------------------------------------------

  lemma ObserveStream(id: nat, st: Stream, s: Socket)
    requires !st.closedNotified
    ensures var seen := Observe(id, st, s);
            && seen.stream == st.(openedNotified := seen.stream.openedNotified, closedNotified := seen.closes)
            && (st.openedNotified ==> seen.stream.openedNotified)
  {
  }

  /** What the walk does to each stream, and which streams it closes. */
  lemma {:induction false} WalkSpec(streams: map<nat, Stream>, o: Oracle, order: seq<nat>)
    requires NoDuplicates(order)
    ensures var w := Walk(streams, o, order);
            && w.streams.Keys == streams.Keys
            && (forall id :: id in streams ==>
                  w.streams[id] == if id in order then Observe(id, streams[id], o.socket(streams[id].handle)).stream
                                   else streams[id])
            && (forall id :: id in w.closed <==>
                  (id in order && id in streams && Observe(id, streams[id], o.socket(streams[id].handle)).closes))
    decreases |order|
  {
    if order != [] {
      var id := order[0];
      assert order == [id] + order[1..] && id !in order[1..];
      if id in streams {
        WalkSpec(streams[id := Observe(id, streams[id], o.socket(streams[id].handle)).stream], o, order[1..]);
      } else {
        WalkSpec(streams, o, order[1..]);
      }
    }
  }

  lemma DropTables(m: Manager, id: nat)
    requires Tables(m)
    ensures Tables(Drop(m, id))
  {
  }

  lemma {:induction false} DropAllSpec(m: Manager, ids: seq<nat>)
    requires Tables(m)
    ensures var m' := DropAll(m, ids);
            && Tables(m')
            && m'.nextStreamId == m.nextStreamId
            && (forall id :: id in m'.streams <==> id in m.streams && id !in ids)
            && (forall id :: id in m'.streams ==> m'.streams[id] == m.streams[id])
    decreases |ids|
  {
    if ids != [] {
      assert ids == [ids[0]] + ids[1..];
      DropTables(m, ids[0]);
      DropAllSpec(Drop(m, ids[0]), ids[1..]);
    }
  }

  lemma WalkTables(m: Manager, o: Oracle)
    requires Tables(m) && AllOpen(m.streams) && Enumerates(o.order, m.streams.Keys)
    ensures Tables(m.(streams := Walk(m.streams, o, o.order).streams))
  {
    WalkSpec(m.streams, o, o.order);
    forall id | id in m.streams
      ensures var st := Walk(m.streams, o, o.order).streams[id];
              st == m.streams[id].(openedNotified := st.openedNotified, closedNotified := st.closedNotified)
              && (m.streams[id].openedNotified ==> st.openedNotified)
    {
      ObserveStream(id, m.streams[id], o.socket(m.streams[id].handle));
    }
  }

  lemma ScanTables(m: Manager, o: Oracle)
    requires Tables(m) && AllOpen(m.streams) && FreshHandles(m, o)
    requires Enumerates(o.order, AcceptPhase(m, o).manager.streams.Keys)
    ensures Tables(Scan(m, o).manager) && AllOpen(Scan(m, o).manager.streams)
  {
    var m1 := AcceptPhase(m, o).manager;
    var w := Walk(m1.streams, o, o.order);
    AcceptPhaseTables(m, o);
    WalkTables(m1, o);
    WalkSpec(m1.streams, o, o.order);
    DropAllSpec(m1.(streams := w.streams), w.closed);
    forall id | id in Scan(m, o).manager.streams ensures !Scan(m, o).manager.streams[id].closedNotified {
      ObserveStream(id, m1.streams[id], o.socket(m1.streams[id].handle));
    }
  }

  /** On every run the two stream tables are mutually inverse, over open sockets only. */
  lemma {:induction false} TablesOnEveryRun(m: Manager, inputs: seq<Input>)
    requires Initial(m) && PlausibleRun(m, inputs)
    ensures Tables(Run(m, inputs).manager) && AllOpen(Run(m, inputs).manager.streams)
  {
    if inputs != [] {
      var before, i := Run(m, inputs[..|inputs| - 1]).manager, inputs[|inputs| - 1];
      TablesOnEveryRun(m, inputs[..|inputs| - 1]);
      ExecuteTables(before, i.action);
      ScanTables(Execute(before, i.action), i.oracle);
    }
  }

  // ---------------------------------------------------------------------
  // The events of one stream id
  // ---------------------------------------------------------------------

  /** How far the events of one stream id have got; `Broken` means that they are out of order. */
  datatype Progress = Quiet | DownOpen | DownDone | UpWaiting | UpOpen | UpDone | Broken

  function About(e: A.Event): Option<nat>
  {
    match e
    case StreamOpen(id) => Some(id)
    case StreamData(id, _) => Some(id)
    case StreamClose(id) => Some(id)
    case UpstreamConnectResult(id, _) => Some(id)
    case UpstreamData(id, _) => Some(id)
    case UpstreamClosed(id) => Some(id)
    case _ => None
  }

  /**
   * Downstream: Open, Data*, then at most one Close and nothing after it. Upstream: at most one connect
   * result, a refusal or a close ends it, and data may come at any time before that.
   */
  function Advance(p: Progress, e: A.Event): Progress
  {
    match e
    case StreamOpen(_) => if p.Quiet? then DownOpen else Broken
    case StreamData(_, _) => if p.DownOpen? then DownOpen else Broken
    case StreamClose(_) => if p.DownOpen? then DownDone else Broken
    case UpstreamConnectResult(_, ok) =>
      if p.Quiet? || p.UpWaiting? then (if ok then UpOpen else UpDone) else Broken
    case UpstreamData(_, _) =>
      if p.Quiet? || p.UpWaiting? then UpWaiting else if p.UpOpen? then UpOpen else Broken
    case UpstreamClosed(_) => if p.Quiet? || p.UpWaiting? || p.UpOpen? then UpDone else Broken
    case _ => p
  }

  function AdvanceAll(p: Progress, es: seq<A.Event>, id: nat): Progress
    decreases |es|
  {
    if es == [] then p
    else AdvanceAll(if About(es[0]) == Some(id) then Advance(p, es[0]) else p, es[1..], id)
  }

  lemma {:induction false} AdvanceAppend(p: Progress, a: seq<A.Event>, b: seq<A.Event>, id: nat)
    ensures AdvanceAll(p, a + b, id) == AdvanceAll(AdvanceAll(p, a, id), b, id)
    decreases |a|
  {
    if a == [] {
      assert a + b == b;
    } else {
      assert (a + b)[1..] == a[1..] + b;
      AdvanceAppend(if About(a[0]) == Some(id) then Advance(p, a[0]) else p, a[1..], b, id);
    }
  }

  lemma {:induction false} AdvanceOthers(p: Progress, es: seq<A.Event>, id: nat)
    requires forall i :: 0 <= i < |es| ==> About(es[i]) != Some(id)
    ensures AdvanceAll(p, es, id) == p
    decreases |es|
  {
    if es != [] {
      AdvanceOthers(p, es[1..], id);
    }
  }

  /** The progress that a live stream's flags stand for. */
  predicate Agrees(p: Progress, st: Stream)
  {
    if st.direction.Downstream? then p.DownOpen?
    else if st.openedNotified then p.UpOpen?
    else p.Quiet? || p.UpWaiting?
  }

  predicate Done(p: Progress) { p.DownDone? || p.UpDone? }

  lemma AdvanceOne(p: Progress, e: A.Event, id: nat)
    requires About(e) == Some(id)
    ensures AdvanceAll(p, [e], id) == Advance(p, e)
  {
    assert [e][1..] == [];
  }

  lemma ObserveDataProgress(id: nat, st: Stream, s: Socket, p: Progress)
    requires Agrees(p, st)
    ensures Agrees(AdvanceAll(p, DataEvents(id, st, s), id), st)
  {
    AdvanceOne(p, A.StreamData(id, s.received), id);
    AdvanceOne(p, A.UpstreamData(id, s.received), id);
  }

  lemma ObserveConnectProgress(id: nat, st: Stream, s: Socket, p: Progress)
    requires Agrees(p, st)
    ensures var seen := ObserveConnect(id, st, s);
            var p' := AdvanceAll(p, seen.events, id);
            if seen.closes then Done(p') else Agrees(p', seen.stream)
  {
    AdvanceOne(p, A.UpstreamConnectResult(id, true), id);
    AdvanceOne(p, A.UpstreamConnectResult(id, false), id);
  }

  lemma ObserveCloseProgress(id: nat, st: Stream, s: Socket, p: Progress)
    requires Agrees(p, st)
    ensures var seen := ObserveClose(id, st, s);
            var p' := AdvanceAll(p, seen.events, id);
            if seen.closes then Done(p') else Agrees(p', seen.stream)
  {
    AdvanceOne(p, A.StreamClose(id), id);
    AdvanceOne(p, A.UpstreamClosed(id), id);
  }

  /** One look at a live stream keeps its events in order, and ends them exactly when the stream is closed. */
  lemma ObserveProgress(id: nat, st: Stream, s: Socket, p: Progress)
    requires Agrees(p, st) && !st.closedNotified
    ensures var seen := Observe(id, st, s);
            var p' := AdvanceAll(p, seen.events, id);
            if seen.closes then Done(p') else Agrees(p', seen.stream)
  {
    var connect := ObserveConnect(id, st, s);
    var close := ObserveClose(id, connect.stream, s);
    var p1 := AdvanceAll(p, DataEvents(id, st, s), id);
    var p2 := AdvanceAll(p1, connect.events, id);
    ObserveDataProgress(id, st, s, p);
    ObserveConnectProgress(id, st, s, p1);
    AdvanceAppend(p, DataEvents(id, st, s), connect.events, id);
    AdvanceAppend(p, DataEvents(id, st, s) + connect.events, close.events, id);
    if !connect.closes {
      ObserveCloseProgress(id, connect.stream, s, p2);
    }
  }

  lemma ObserveAbout(id: nat, st: Stream, s: Socket)
    ensures var es := Observe(id, st, s).events; forall i :: 0 <= i < |es| ==> About(es[i]) == Some(id)
  {
    var connect := ObserveConnect(id, st, s);
    assert forall i :: 0 <= i < |connect.events| ==> About(connect.events[i]) == Some(id);
  }

  /** In a walk, the events of a stream are those of its one observation. */
  lemma {:induction false} WalkProgress(streams: map<nat, Stream>, o: Oracle, order: seq<nat>, id: nat, p: Progress)
    requires NoDuplicates(order)
    ensures AdvanceAll(p, Walk(streams, o, order).events, id)
            == if id in order && id in streams
               then AdvanceAll(p, Observe(id, streams[id], o.socket(streams[id].handle)).events, id) else p
    decreases |order|
  {
    if order != [] {
      var g := order[0];
      assert order == [g] + order[1..] && g !in order[1..];
      if g in streams {
        var seen := Observe(g, streams[g], o.socket(streams[g].handle));
        var streams' := streams[g := seen.stream];
        var p1 := AdvanceAll(p, seen.events, id);
        AdvanceAppend(p, seen.events, Walk(streams', o, order[1..]).events, id);
        WalkProgress(streams', o, order[1..], id, p1);
        ObserveAbout(g, streams[g], o.socket(streams[g].handle));
        if g != id {
          AdvanceOthers(p, seen.events, id);
        }
      } else {
        WalkProgress(streams, o, order[1..], id, p);
      }
    }
  }

  lemma {:induction false} WalkAbout(streams: map<nat, Stream>, o: Oracle, order: seq<nat>)
    ensures AllAbout(Walk(streams, o, order).events)
    decreases |order|
  {
    if order != [] {
      var id := order[0];
      if id in streams {
        var s := o.socket(streams[id].handle);
        ObserveAbout(id, streams[id], s);
        WalkAbout(streams[id := Observe(id, streams[id], s).stream], o, order[1..]);
      } else {
        WalkAbout(streams, o, order[1..]);
      }
    }
  }

  lemma {:induction false} AcceptAllAbout(m: Manager, handles: seq<nat>, o: Oracle)
    ensures AllAbout(AcceptAll(m, handles, o).events)
    decreases |handles|
  {
    if handles != [] {
      AcceptAllAbout(Accept(m, handles[0], o).manager, handles[1..], o);
    }
  }

  /** Every event of the manager is about one of its streams. */
  ghost predicate AllAbout(es: seq<A.Event>) { forall i :: 0 <= i < |es| ==> About(es[i]).Some? }

  lemma StepAbout(m: Manager, i: Input)
    ensures AllAbout(Step(m, i).events)
  {
    var m' := Execute(m, i.action);
    AcceptAllAbout(m'.(listeners := EstablishedIn(m'.listeners, i.oracle.socket, false)),
                   EstablishedIn(m'.listeners, i.oracle.socket, true), i.oracle);
    WalkAbout(AcceptPhase(m', i.oracle).manager.streams, i.oracle, i.oracle.order);
  }

  // ---------------------------------------------------------------------
  // The events of a run
  // ---------------------------------------------------------------------

  /** What the manager's tables say about the events emitted so far for `id`. */
  ghost predicate Tracked(m: Manager, id: nat, p: Progress)
  {
    if id in m.streams then Agrees(p, m.streams[id])
    else if 1 <= id < m.nextStreamId then Done(p)
    else p.Quiet?
  }

  ghost predicate IdsBelow(m: Manager)
  {
    m.nextStreamId >= 1 && forall id :: id in m.streams ==> 1 <= id < m.nextStreamId
  }

  lemma AcceptProgress(m: Manager, handle: nat, o: Oracle, id: nat, p: Progress)
    requires IdsBelow(m) && Tracked(m, id, p)
    ensures var acc := Accept(m, handle, o);
            IdsBelow(acc.manager) && Tracked(acc.manager, id, AdvanceAll(p, acc.events, id))
  {
    var acc := Accept(m, handle, o);
    if id == m.nextStreamId {
      AdvanceOne(p, A.StreamOpen(id), id);
    } else {
      AdvanceOthers(p, acc.events, id);
    }
  }

  lemma {:induction false} AcceptAllProgress(m: Manager, handles: seq<nat>, o: Oracle, id: nat, p: Progress)
    requires IdsBelow(m) && Tracked(m, id, p)
    ensures var acc := AcceptAll(m, handles, o);
            IdsBelow(acc.manager) && Tracked(acc.manager, id, AdvanceAll(p, acc.events, id))
    decreases |handles|
  {
    if handles != [] {
      var first := Accept(m, handles[0], o);
      var p1 := AdvanceAll(p, first.events, id);
      AcceptProgress(m, handles[0], o, id, p);
      AcceptAllProgress(first.manager, handles[1..], o, id, p1);
      AdvanceAppend(p, first.events, AcceptAll(first.manager, handles[1..], o).events, id);
    }
  }

  lemma ScanProgress(m: Manager, o: Oracle, id: nat, p: Progress)
    requires Tables(m) && AllOpen(m.streams) && FreshHandles(m, o) && Tracked(m, id, p)
    requires Enumerates(o.order, AcceptPhase(m, o).manager.streams.Keys)
    ensures Tracked(Scan(m, o).manager, id, AdvanceAll(p, Scan(m, o).events, id))
  {
    var acc := AcceptPhase(m, o);
    var m1 := acc.manager;
    var p1 := AdvanceAll(p, acc.events, id);
    var w := Walk(m1.streams, o, o.order);
    AcceptPhaseTables(m, o);
    AcceptAllProgress(m.(listeners := EstablishedIn(m.listeners, o.socket, false)),
                      EstablishedIn(m.listeners, o.socket, true), o, id, p);
    WalkTables(m1, o);
    WalkSpec(m1.streams, o, o.order);
    WalkProgress(m1.streams, o, o.order, id, p1);
    AdvanceAppend(p, acc.events, w.events, id);
    DropAllSpec(m1.(streams := w.streams), w.closed);
    if id in m1.streams {
      ObserveProgress(id, m1.streams[id], o.socket(m1.streams[id].handle), p1);
    }
  }

  lemma ExecuteProgress(m: Manager, a: ManagerAction, id: nat, p: Progress)
    requires IdsBelow(m) && Tracked(m, id, p)
    ensures Tracked(Execute(m, a), id, p)
  {
    if a.Connect? && m.backend {
      assert Execute(m, a) == OpenUpstream(m, a.handle);
    }
  }

  /**
   * For arbitrary socket behaviour, and for every stream id: the events emitted so far are in order, they
   * have ended exactly for the ids that were handed out and are no longer in the table, and an id that
   * was not handed out yet has had none. So ids are never reused.
   */
  lemma {:induction false} EventsInOrderOnEveryRun(m: Manager, inputs: seq<Input>, id: nat)
    requires Initial(m) && PlausibleRun(m, inputs)
    ensures var r := Run(m, inputs); Tracked(r.manager, id, AdvanceAll(Quiet, r.events, id))
    ensures AdvanceAll(Quiet, Run(m, inputs).events, id) != Broken
  {
    if inputs != [] {
      var init, i := inputs[..|inputs| - 1], inputs[|inputs| - 1];
      var before := Run(m, init);
      var p := AdvanceAll(Quiet, before.events, id);
      EventsInOrderOnEveryRun(m, init, id);
      TablesOnEveryRun(m, init);
      ExecuteTables(before.manager, i.action);
      ExecuteProgress(before.manager, i.action, id, p);
      ScanProgress(Execute(before.manager, i.action), i.oracle, id, p);
      AdvanceAppend(Quiet, before.events, Step(before.manager, i).events, id);
    }
  }

  /**
   * An upstream stream may end without ever reporting a connect result. That happens in exactly the scans
   * that find a still unreported stream half closed: in Closing or LastAck, or in CloseWait with nothing to read.
   */
  lemma UpstreamEndsUnreported(id: nat, st: Stream, s: Socket)
    requires st.direction.Upstream? && !st.openedNotified && !st.closedNotified
    ensures var seen := Observe(id, st, s);
            seen.closes && (forall ok :: A.UpstreamConnectResult(id, ok) !in seen.events)
            <==> s.state.Closing? || s.state.LastAck?
                 || (s.state.CloseWait? && !(if Reads(st, s) then s.moreToRecv else s.canRecv))
  {
    var seen := Observe(id, st, s);
    var connect := ObserveConnect(id, st, s);
    var close := ObserveClose(id, connect.stream, s);
    assert seen.events == DataEvents(id, st, s) + connect.events + close.events;
    if connect.events != [] {
      assert connect.events[0] in seen.events;
    }
  }
}
