/** Connect results: how the number of upstreams that still owe one changes. */
module StreamManagerReports {
  import opened Common
  import A = Http2Activator
  import opened StreamManager
  import opened StreamManagerLaws

  /** The upstreams that have not reported a connect result. */
  ghost function Unreported(streams: map<nat, Stream>): set<nat>
  {
    set id | id in streams && streams[id].direction.Upstream? && !streams[id].openedNotified
  }

  function Results(es: seq<A.Event>): nat
  {
    if es == [] then 0 else (if es[0].UpstreamConnectResult? then 1 else 0) + Results(es[1..])
  }

  lemma {:induction false} ResultsAppend(a: seq<A.Event>, b: seq<A.Event>)
    ensures Results(a + b) == Results(a) + Results(b)
  {
    if a == [] {
      assert a + b == b;
    } else {
      assert (a + b)[1..] == a[1..] + b;
      ResultsAppend(a[1..], b);
    }
  }

  lemma {:induction false} NoResults(es: seq<A.Event>)
    requires forall i :: 0 <= i < |es| ==> !es[i].UpstreamConnectResult?
    ensures Results(es) == 0
  {
    if es != [] {
      NoResults(es[1..]);
    }
  }

  predicate Owes(st: Stream) { st.direction.Upstream? && !st.openedNotified }

  /** A look at a stream emits a connect result exactly when the stream stops owing one. */
  lemma ObserveReports(id: nat, st: Stream, s: Socket)
    ensures var seen := Observe(id, st, s);
            && Results(seen.events) == (if Owes(st) && !Owes(seen.stream) then 1 else 0)
            && (Owes(seen.stream) ==> Owes(st))
  {
    var connect := ObserveConnect(id, st, s);
    var close := ObserveClose(id, connect.stream, s);
    var data := DataEvents(id, st, s);
    NoResults(data);
    NoResults(close.events);
    ResultsAppend(data, connect.events);
    ResultsAppend(data + connect.events, close.events);
    ConnectReports(id, st, s);
  }

  lemma ConnectReports(id: nat, st: Stream, s: Socket)
    ensures var connect := ObserveConnect(id, st, s);
            && Results(connect.events) == (if Owes(st) && !Owes(connect.stream) then 1 else 0)
            && (Owes(connect.stream) ==> Owes(st))
  {
    var events := ObserveConnect(id, st, s).events;
    if events != [] {
      assert events[1..] == [];
    }
  }

  lemma UnreportedUpdate(streams: map<nat, Stream>, id: nat, st: Stream)
    requires id in streams && (Owes(st) ==> Owes(streams[id]))
    ensures |Unreported(streams[id := st])|
            == |Unreported(streams)| - (if Owes(streams[id]) && !Owes(st) then 1 else 0)
  {
    if Owes(streams[id]) && !Owes(st) {
      assert Unreported(streams[id := st]) == Unreported(streams) - {id};
    } else {
      assert Unreported(streams[id := st]) == Unreported(streams);
    }
  }

  lemma {:induction false} WalkReports(streams: map<nat, Stream>, o: Oracle, order: seq<nat>)
    ensures var w := Walk(streams, o, order);
            |Unreported(w.streams)| + Results(w.events) == |Unreported(streams)|
    decreases |order|
  {
    if order != [] {
      var id := order[0];
      if id in streams {
        var s := o.socket(streams[id].handle);
        var seen := Observe(id, streams[id], s);
        ObserveReports(id, streams[id], s);
        UnreportedUpdate(streams, id, seen.stream);
        WalkReports(streams[id := seen.stream], o, order[1..]);
        ResultsAppend(seen.events, Walk(streams[id := seen.stream], o, order[1..]).events);
      } else {
        WalkReports(streams, o, order[1..]);
      }
    }
  }

  lemma AcceptReports(m: Manager, handle: nat, o: Oracle)
    requires IdsBelow(m)
    ensures var acc := Accept(m, handle, o);
            && IdsBelow(acc.manager)
            && Unreported(acc.manager.streams) == Unreported(m.streams)
            && Results(acc.events) == 0
  {
    NoResults(Accept(m, handle, o).events);
  }

  lemma {:induction false} AcceptAllReports(m: Manager, handles: seq<nat>, o: Oracle)
    requires IdsBelow(m)
    ensures var acc := AcceptAll(m, handles, o);
            && IdsBelow(acc.manager)
            && Unreported(acc.manager.streams) == Unreported(m.streams)
            && Results(acc.events) == 0
    decreases |handles|
  {
    if handles != [] {
      var first := Accept(m, handles[0], o);
      AcceptReports(m, handles[0], o);
      AcceptAllReports(first.manager, handles[1..], o);
      ResultsAppend(first.events, AcceptAll(first.manager, handles[1..], o).events);
    }
  }

  /** The upstreams that a scan forgets although they still owe a connect result. */
  ghost function SilentEnds(m: Manager, o: Oracle): set<nat>
  {
    var w := Walk(AcceptPhase(m, o).manager.streams, o, o.order);
    UnreportedIn(w.streams, w.closed)
  }

  ghost function UnreportedIn(streams: map<nat, Stream>, ids: seq<nat>): set<nat>
  {
    set id | id in Unreported(streams) && id in ids
  }

  lemma DropReports(m: Manager, ids: seq<nat>)
    requires Tables(m)
    ensures |Unreported(DropAll(m, ids).streams)|
            == |Unreported(m.streams)| - |UnreportedIn(m.streams, ids)|
  {
    DropAllSpec(m, ids);
    var gone := UnreportedIn(m.streams, ids);
    assert Unreported(DropAll(m, ids).streams) == Unreported(m.streams) - gone;
    assert gone <= Unreported(m.streams);
  }

  /** A scan: each upstream that stops owing a result has reported one, or was forgotten. */
  lemma ScanReports(m: Manager, o: Oracle)
    requires Tables(m) && AllOpen(m.streams) && FreshHandles(m, o)
    requires Enumerates(o.order, AcceptPhase(m, o).manager.streams.Keys)
    ensures var sc := Scan(m, o);
            |Unreported(sc.manager.streams)| + Results(sc.events) + |SilentEnds(m, o)| == |Unreported(m.streams)|
  {
    var acc := AcceptPhase(m, o);
    AcceptPhaseTables(m, o);
    AcceptPhaseReports(m, o);
    WalkAndDropReports(acc.manager, o);
    ResultsAppend(acc.events, Walk(acc.manager.streams, o, o.order).events);
  }

  lemma AcceptPhaseReports(m: Manager, o: Oracle)
    requires Tables(m)
    ensures var acc := AcceptPhase(m, o);
            Unreported(acc.manager.streams) == Unreported(m.streams) && Results(acc.events) == 0
  {
    AcceptAllReports(m.(listeners := EstablishedIn(m.listeners, o.socket, false)),
                     EstablishedIn(m.listeners, o.socket, true), o);
  }

  lemma WalkAndDropReports(m: Manager, o: Oracle)
    requires Tables(m) && AllOpen(m.streams) && Enumerates(o.order, m.streams.Keys)
    ensures var w := Walk(m.streams, o, o.order);
            |Unreported(DropAll(m.(streams := w.streams), w.closed).streams)|
            + Results(w.events) + |UnreportedIn(w.streams, w.closed)| == |Unreported(m.streams)|
  {
    var w := Walk(m.streams, o, o.order);
    WalkReports(m.streams, o, o.order);
    WalkTables(m, o);
    DropReports(m.(streams := w.streams), w.closed);
  }

  /** An action: a connect to a backend that is set adds one upstream that owes a result. */
  lemma ExecuteReports(m: Manager, a: ManagerAction)
    requires IdsBelow(m)
    ensures |Unreported(Execute(m, a).streams)|
            == |Unreported(m.streams)| + if a.Connect? && m.backend then 1 else 0
  {
    match a
    case Connect(handle) =>
      if m.backend {
        OpenReports(m, handle);
      }
    case Pause(id) => PauseReports(m, id, true, false);
    case Resume(id) => PauseReports(m, id, false, false);
    case PauseIfUpstream(id) => PauseReports(m, id, true, true);
    case ResumeIfUpstream(id) => PauseReports(m, id, false, true);
    case _ =>
  }

  lemma OpenReports(m: Manager, handle: nat)
    requires IdsBelow(m)
    ensures |Unreported(OpenUpstream(m, handle).streams)| == |Unreported(m.streams)| + 1
  {
    assert Unreported(OpenUpstream(m, handle).streams) == Unreported(m.streams) + {m.nextStreamId};
  }

  lemma PauseReports(m: Manager, id: nat, paused: bool, upstreamOnly: bool)
    ensures Unreported(SetPaused(m, id, paused, upstreamOnly).streams) == Unreported(m.streams)
  {
  }

  /** One step of the manager. */
  lemma StepReports(m: Manager, i: Input)
    requires Tables(m) && AllOpen(m.streams) && Plausible(m, i)
    ensures |Unreported(Step(m, i).manager.streams)| + Results(Step(m, i).events)
            + |SilentEnds(Execute(m, i.action), i.oracle)|
            == |Unreported(m.streams)| + if i.action.Connect? && m.backend then 1 else 0
  {
    ExecuteTables(m, i.action);
    ExecuteReports(m, i.action);
    ScanReports(Execute(m, i.action), i.oracle);
  }
}
