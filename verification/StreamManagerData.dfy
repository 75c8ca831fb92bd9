/** Every byte read from a socket is reported once, in order, and for the stream it belongs to. */
module StreamManagerData {
  import opened Common
  import A = Http2Activator
  import opened StreamManager
  import opened StreamManagerLaws

  // ---------------------------------------------------------------------
  // Data in events
  // ---------------------------------------------------------------------

  function DataOne(e: A.Event, id: nat, dir: Direction): seq<Byte>
  {
    match e
    case StreamData(g, d) => if g == id && dir.Downstream? then d else []
    case UpstreamData(g, d) => if g == id && dir.Upstream? then d else []
    case _ => []
  }

  /** The bytes that the events report for stream `id` in one direction. */
  function DataOf(es: seq<A.Event>, id: nat, dir: Direction): seq<Byte>
  {
    if es == [] then [] else DataOne(es[0], id, dir) + DataOf(es[1..], id, dir)
  }

  lemma {:induction false} DataAppend(a: seq<A.Event>, b: seq<A.Event>, id: nat, dir: Direction)
    ensures DataOf(a + b, id, dir) == DataOf(a, id, dir) + DataOf(b, id, dir)
  {
    if a == [] {
      assert a + b == b;
    } else {
      assert (a + b)[1..] == a[1..] + b;
      DataAppend(a[1..], b, id, dir);
      Associate(DataOne(a[0], id, dir), DataOf(a[1..], id, dir), DataOf(b, id, dir));
    }
  }

  lemma {:induction false} NoData(es: seq<A.Event>, id: nat, dir: Direction)
    requires forall i :: 0 <= i < |es| ==> DataOne(es[i], id, dir) == []
    ensures DataOf(es, id, dir) == []
  {
    if es != [] {
      NoData(es[1..], id, dir);
    }
  }

  // ---------------------------------------------------------------------
  // One scan
  // ---------------------------------------------------------------------

  /** What a scan takes from the stream's socket, given whether the stream is held back. */
  function ReadFrom(streams: map<nat, Stream>, held: bool, o: Oracle, id: nat, dir: Direction): seq<Byte>
  {
    if id !in streams || streams[id].direction != dir || held then []
    else
      var s := o.socket(streams[id].handle);
      if s.canRecv then s.received else []
  }

  lemma DataEventsReport(id: nat, st: Stream, s: Socket, g: nat, dir: Direction)
    ensures DataOf(DataEvents(id, st, s), g, dir)
            == if g == id && st.direction == dir && !st.paused && s.canRecv then s.received else []
  {
    var data := DataEvents(id, st, s);
    if data != [] {
      assert data[1..] == [];
      assert DataOf(data, g, dir) == DataOne(data[0], g, dir) + [];
    }
  }

  lemma ChangesReportNone(id: nat, st: Stream, s: Socket, g: nat, dir: Direction)
    ensures DataOf(ObserveConnect(id, st, s).events, g, dir) == []
    ensures DataOf(ObserveClose(id, st, s).events, g, dir) == []
  {
    NoData(ObserveConnect(id, st, s).events, g, dir);
    NoData(ObserveClose(id, st, s).events, g, dir);
  }

  lemma ObserveReports(id: nat, st: Stream, s: Socket, g: nat, dir: Direction)
    ensures DataOf(Observe(id, st, s).events, g, dir)
            == if g == id && st.direction == dir && !st.paused && s.canRecv then s.received else []
  {
    var data := DataEvents(id, st, s);
    var connect := ObserveConnect(id, st, s);
    var close := ObserveClose(id, connect.stream, s);
    DataEventsReport(id, st, s, g, dir);
    ChangesReportNone(id, st, s, g, dir);
    ChangesReportNone(id, connect.stream, s, g, dir);
    OnlyFirst(data, connect.events, close.events, g, dir);
  }

  lemma OnlyFirst(a: seq<A.Event>, b: seq<A.Event>, c: seq<A.Event>, id: nat, dir: Direction)
    requires DataOf(b, id, dir) == [] && DataOf(c, id, dir) == []
    ensures DataOf(a + b + c, id, dir) == DataOf(a, id, dir)
  {
    DataAppend(a, b, id, dir);
    DataAppend(a + b, c, id, dir);
    assert DataOf(a, id, dir) + [] + [] == DataOf(a, id, dir);
  }

  lemma {:induction false} WalkReports(streams: map<nat, Stream>, o: Oracle, order: seq<nat>, id: nat, dir: Direction)
    requires NoDuplicates(order)
    ensures DataOf(Walk(streams, o, order).events, id, dir)
            == if id in order && id in streams then ReadFrom(streams, streams[id].paused, o, id, dir) else []
    decreases |order|
  {
    if order != [] {
      var g := order[0];
      assert order == [g] + order[1..] && g !in order[1..];
      if g in streams {
        var seen := Observe(g, streams[g], o.socket(streams[g].handle));
        var streams' := streams[g := seen.stream];
        ObserveReports(g, streams[g], o.socket(streams[g].handle), id, dir);
        WalkReports(streams', o, order[1..], id, dir);
        DataAppend(seen.events, Walk(streams', o, order[1..]).events, id, dir);
      } else {
        WalkReports(streams, o, order[1..], id, dir);
      }
    }
  }

  lemma {:induction false} AcceptAllReportsNone(m: Manager, handles: seq<nat>, o: Oracle, id: nat, dir: Direction)
    ensures DataOf(AcceptAll(m, handles, o).events, id, dir) == []
    decreases |handles|
  {
    if handles != [] {
      var first := Accept(m, handles[0], o);
      NoData(first.events, id, dir);
      AcceptAllReportsNone(first.manager, handles[1..], o, id, dir);
      DataAppend(first.events, AcceptAll(first.manager, handles[1..], o).events, id, dir);
    }
  }

  lemma ScanReports(m: Manager, o: Oracle, id: nat, dir: Direction)
    requires Enumerates(o.order, AcceptPhase(m, o).manager.streams.Keys)
    ensures var streams := AcceptPhase(m, o).manager.streams;
            DataOf(Scan(m, o).events, id, dir)
            == if id in streams then ReadFrom(streams, streams[id].paused, o, id, dir) else []
  {
    var acc := AcceptPhase(m, o);
    AcceptAllReportsNone(m.(listeners := EstablishedIn(m.listeners, o.socket, false)),
                         EstablishedIn(m.listeners, o.socket, true), o, id, dir);
    WalkReports(acc.manager.streams, o, o.order, id, dir);
    DataAppend(acc.events, Walk(acc.manager.streams, o, o.order).events, id, dir);
  }

  // ---------------------------------------------------------------------
  // Which streams are held back
  // ---------------------------------------------------------------------

  /** Whether the stream is held back after an action, given the streams that are live before it. */
  function HeldAfter(streams: map<nat, Stream>, a: ManagerAction, id: nat, before: bool): bool
  {
    match a
    case Pause(g) => if g == id && id in streams then true else before
    case Resume(g) => if g == id && id in streams then false else before
    case PauseIfUpstream(g) => if g == id && id in streams && streams[id].direction.Upstream? then true else before
    case ResumeIfUpstream(g) => if g == id && id in streams && streams[id].direction.Upstream? then false else before
    case _ => before
  }

  /** The last action that paused or resumed the stream while it was live was a pause. */
  function HeldBack(m: Manager, inputs: seq<Input>, id: nat): bool
  {
    if inputs == [] then false
    else
      var init := inputs[..|inputs| - 1];
      HeldAfter(Run(m, init).manager.streams, inputs[|inputs| - 1].action, id, HeldBack(m, init, id))
  }

  /** A stream's flag, and no flag for a stream to come. */
  ghost predicate Flagged(m: Manager, id: nat, held: bool)
  {
    && (id in m.streams ==> m.streams[id].paused == held)
    && (id >= m.nextStreamId ==> !held)
    && IdsBelow(m)
  }

  lemma ExecuteFlags(m: Manager, a: ManagerAction, id: nat, held: bool)
    requires Flagged(m, id, held)
    ensures Flagged(Execute(m, a), id, HeldAfter(m.streams, a, id, held))
  {
    match a
    case Connect(handle) =>
      if m.backend {
        assert Execute(m, a) == OpenUpstream(m, handle);
      }
    case Pause(g) => SetPausedFlags(m, g, true, false, id, held);
    case Resume(g) => SetPausedFlags(m, g, false, false, id, held);
    case PauseIfUpstream(g) => SetPausedFlags(m, g, true, true, id, held);
    case ResumeIfUpstream(g) => SetPausedFlags(m, g, false, true, id, held);
    case _ =>
  }

  lemma SetPausedFlags(m: Manager, g: nat, paused: bool, upstreamOnly: bool, id: nat, held: bool)
    requires Flagged(m, id, held)
    ensures var hit := g == id && id in m.streams && (upstreamOnly ==> m.streams[id].direction.Upstream?);
            Flagged(SetPaused(m, g, paused, upstreamOnly), id, if hit then paused else held)
  {
  }

  lemma {:induction false} AcceptAllFlags(m: Manager, handles: seq<nat>, o: Oracle, id: nat, held: bool)
    requires Flagged(m, id, held)
    ensures Flagged(AcceptAll(m, handles, o).manager, id, held)
    decreases |handles|
  {
    if handles != [] {
      AcceptAllFlags(Accept(m, handles[0], o).manager, handles[1..], o, id, held);
    }
  }

  lemma AcceptPhaseFlags(m: Manager, o: Oracle, id: nat, held: bool)
    requires Flagged(m, id, held)
    ensures Flagged(AcceptPhase(m, o).manager, id, held)
  {
    AcceptAllFlags(m.(listeners := EstablishedIn(m.listeners, o.socket, false)),
                   EstablishedIn(m.listeners, o.socket, true), o, id, held);
  }

  lemma WalkFlags(m: Manager, o: Oracle, id: nat, held: bool)
    requires Tables(m) && AllOpen(m.streams) && Enumerates(o.order, m.streams.Keys) && Flagged(m, id, held)
    ensures Flagged(m.(streams := Walk(m.streams, o, o.order).streams), id, held)
  {
    WalkSpec(m.streams, o, o.order);
    if id in m.streams {
      ObserveStream(id, m.streams[id], o.socket(m.streams[id].handle));
    }
  }

  lemma {:induction false} DropAllFlags(m: Manager, ids: seq<nat>, id: nat, held: bool)
    requires Flagged(m, id, held)
    ensures Flagged(DropAll(m, ids), id, held)
    decreases |ids|
  {
    if ids != [] {
      DropAllFlags(Drop(m, ids[0]), ids[1..], id, held);
    }
  }

  lemma ScanFlags(m: Manager, o: Oracle, id: nat, held: bool)
    requires Tables(m) && AllOpen(m.streams) && FreshHandles(m, o) && Flagged(m, id, held)
    requires Enumerates(o.order, AcceptPhase(m, o).manager.streams.Keys)
    ensures Flagged(Scan(m, o).manager, id, held)
  {
    var m1 := AcceptPhase(m, o).manager;
    var w := Walk(m1.streams, o, o.order);
    AcceptPhaseFlags(m, o, id, held);
    AcceptPhaseTables(m, o);
    WalkFlags(m1, o, id, held);
    DropAllFlags(m1.(streams := w.streams), w.closed, id, held);
  }

  /** On every run: a live stream is paused if and only if the last action on it that took effect was a pause. */
  lemma {:induction false} PausedOnEveryRun(m: Manager, inputs: seq<Input>, id: nat)
    requires Initial(m) && PlausibleRun(m, inputs)
    ensures Flagged(Run(m, inputs).manager, id, HeldBack(m, inputs, id))
  {
    if inputs != [] {
      var init, i := inputs[..|inputs| - 1], inputs[|inputs| - 1];
      var before := Run(m, init).manager;
      PausedOnEveryRun(m, init, id);
      TablesOnEveryRun(m, init);
      ExecuteFlags(before, i.action, id, HeldBack(m, init, id));
      ExecuteTables(before, i.action);
      ScanFlags(Execute(before, i.action), i.oracle, id, HeldBack(m, inputs, id));
    }
  }

  // ---------------------------------------------------------------------
  // Runs
  // ---------------------------------------------------------------------

  /** The streams that the scan of an input looks at. */
  function ScannedBy(m: Manager, i: Input): map<nat, Stream>
  {
    AcceptPhase(Execute(m, i.action), i.oracle).manager.streams
  }

  /** What the scans of a run took from the sockets of stream `id`, one after the other. */
  function Received(m: Manager, inputs: seq<Input>, id: nat, dir: Direction): seq<Byte>
  {
    if inputs == [] then []
    else
      var init, i := inputs[..|inputs| - 1], inputs[|inputs| - 1];
      Received(m, init, id, dir)
      + ReadFrom(ScannedBy(Run(m, init).manager, i), HeldBack(m, inputs, id), i.oracle, id, dir)
  }

  lemma StepReports(m: Manager, inputs: seq<Input>, id: nat, dir: Direction)
    requires Initial(m) && PlausibleRun(m, inputs) && inputs != []
    ensures var before, i := Run(m, inputs[..|inputs| - 1]).manager, inputs[|inputs| - 1];
            DataOf(Step(before, i).events, id, dir)
            == ReadFrom(ScannedBy(before, i), HeldBack(m, inputs, id), i.oracle, id, dir)
  {
    var init, i := inputs[..|inputs| - 1], inputs[|inputs| - 1];
    var before := Run(m, init).manager;
    PausedOnEveryRun(m, init, id);
    ExecuteFlags(before, i.action, id, HeldBack(m, init, id));
    AcceptPhaseFlags(Execute(before, i.action), i.oracle, id, HeldBack(m, inputs, id));
    ScanReports(Execute(before, i.action), i.oracle, id, dir);
  }

  /**
   * On every run, for arbitrary sockets, and for every stream: the bytes reported for it are exactly those that the
   * scans which found it live, not held back and readable took from its socket, in order; a client's bytes are
   * reported as client data and a backend's as backend data.
   */
  lemma {:induction false} DataIsReportedOnEveryRun(m: Manager, inputs: seq<Input>, id: nat, dir: Direction)
    requires Initial(m) && PlausibleRun(m, inputs)
    ensures DataOf(Run(m, inputs).events, id, dir) == Received(m, inputs, id, dir)
  {
    if inputs != [] {
      var init, i := inputs[..|inputs| - 1], inputs[|inputs| - 1];
      DataIsReportedOnEveryRun(m, init, id, dir);
      StepReports(m, inputs, id, dir);
      DataAppend(Run(m, init).events, Step(Run(m, init).manager, i).events, id, dir);
    }
  }
}
