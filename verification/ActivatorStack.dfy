/** The stream manager below the activator: it keeps the promises that the activator's laws assume. */
module ActivatorStack {
  import opened Common
  import opened Http2Activator
  import M = StreamManager
  import L = StreamManagerLaws
  import K = Http2ActivatorCount
  import R = Http2ActivatorRouting
  import E = Http2ActivatorEndToEnd
  import N = ActivatorAddresses
  import D = Http2Delivery
  import W = Http2Framing
  import F = Http2Frames
  import H = Http2Replies
  import U = Http2ActivatorUpstreams

  /** The events that the stream manager produces; availability, ticks and packets come from elsewhere. */
  function StreamEvents(es: seq<Event>): seq<Event>
  {
    if es == [] then [] else (if L.About(es[0]).Some? then [es[0]] else []) + StreamEvents(es[1..])
  }

  lemma {:induction false} StreamEventsAppend(a: seq<Event>, b: seq<Event>)
    ensures StreamEvents(a + b) == StreamEvents(a) + StreamEvents(b)
  {
    if a == [] {
      assert a + b == b;
    } else {
      assert (a + b)[1..] == a[1..] + b;
      StreamEventsAppend(a[1..], b);
      Associate(if L.About(a[0]).Some? then [a[0]] else [], StreamEvents(a[1..]), StreamEvents(b));
    }
  }

  ghost predicate InOrder(es: seq<Event>)
  {
    forall id: nat :: L.AdvanceAll(L.Quiet, es, id) != L.Broken
  }

  /** Each availability event comes with the iteration orders of the tables as they are. */
  ghost predicate OrdersValid(es: seq<Event>)
  {
    es != [] ==>
      && OrdersValid(es[..|es| - 1])
      && (es[|es| - 1].BackendAvailable? ==> Fresh(Run(es[..|es| - 1]).state, es[|es| - 1]))
  }

  lemma ProgressOfLast(es: seq<Event>, id: nat)
    requires es != []
    ensures var p, e := L.AdvanceAll(L.Quiet, es[..|es| - 1], id), es[|es| - 1];
            L.AdvanceAll(L.Quiet, es, id) == if L.About(e) == Some(id) then L.Advance(p, e) else p
  {
    var e := es[|es| - 1];
    assert es == es[..|es| - 1] + [e];
    L.AdvanceAppend(L.Quiet, es[..|es| - 1], [e], id);
    assert [e][1..] == [];
  }

  // ---------------------------------------------------------------------
  // What the activator holds was announced to it
  // ---------------------------------------------------------------------

  predicate IsDown(p: L.Progress) { p.DownOpen? || p.DownDone? || p.Broken? }

  predicate IsUp(p: L.Progress) { p.UpOpen? || p.UpDone? || p.Broken? }

  /** A live connection's handle has been opened; a mapped upstream has reported its connect result. */
  predicate Heard(s: State, id: nat, p: L.Progress)
  {
    (id in s.conns ==> IsDown(p)) && (id in s.up ==> IsUp(p))
  }

  function Next(p: L.Progress, e: Event, id: nat): L.Progress
  {
    if L.About(e) == Some(id) then L.Advance(p, e) else p
  }

  /** It stays so, whatever else the manager reports. */
  lemma HeardLater(s: State, e: Event, id: nat, p: L.Progress)
    requires Heard(s, id, p)
    ensures Heard(s, id, Next(p, e, id))
  {
  }

  lemma HeardStep(s: State, e: Event, id: nat, p: L.Progress)
    requires R.Linked(s) && Fresh(s, e) && Heard(s, id, p)
    ensures Heard(Step(s, e).state, id, Next(p, e, id))
  {
    var s' := Step(s, e).state;
    if id in s'.conns {
      E.ConnsAfterStep(s, e, id);
    }
    if id in s'.up {
      E.RoutesAfterStep(s, e, id);
    }
    HeardGrows(s, s', e, id, p);
  }

  lemma HeardGrows(s: State, s': State, e: Event, id: nat, p: L.Progress)
    requires Heard(s, id, p)
    requires id in s'.conns ==> id in s.conns || e == StreamOpen(id)
    requires id in s'.up ==> id in s.up || e == UpstreamConnectResult(id, true)
    ensures Heard(s', id, Next(p, e, id))
  {
  }

  lemma FirstUse(s: State, e: Event, p: L.Progress)
    requires L.About(e).Some? ==> Heard(s, L.About(e).value, p) && L.Advance(p, e) != L.Broken
    requires e.BackendAvailable? ==> Fresh(s, e)
    ensures Fresh(s, e)
  {
  }

  /** Sends go to opened connections and to upstreams that reported their connect result. */
  predicate Announced(acts: seq<Action>, past: seq<Event>)
  {
    forall i :: 0 <= i < |acts| ==> AnnouncedOne(acts[i], past)
  }

  predicate AnnouncedOne(a: Action, past: seq<Event>)
  {
    && (a.DownstreamSend? ==> IsDown(L.AdvanceAll(L.Quiet, past, a.stream)))
    && (a.UpstreamSend? ==> IsUp(L.AdvanceAll(L.Quiet, past, a.stream)))
  }

  lemma AnnouncedLater(acts: seq<Action>, past: seq<Event>)
    requires past != [] && Announced(acts, past[..|past| - 1])
    ensures Announced(acts, past)
  {
    forall i | 0 <= i < |acts| ensures AnnouncedOne(acts[i], past) {
      if acts[i].DownstreamSend? || acts[i].UpstreamSend? {
        ProgressOfLast(past, acts[i].stream);
      }
    }
  }

  lemma {:induction false} NothingUnannounced(acts: seq<Action>, past: seq<Event>, id: nat)
    requires Announced(acts, past)
    ensures !IsDown(L.AdvanceAll(L.Quiet, past, id)) ==> N.DownTo(acts, id) == []
    ensures !IsUp(L.AdvanceAll(L.Quiet, past, id)) ==> N.UpTo(acts, id) == []
  {
    if acts != [] {
      assert AnnouncedOne(acts[0], past);
      NothingUnannounced(acts[1..], past, id);
    }
  }

  /** After the events `es`, the activator holds and addresses only what was announced in `past`. */
  ghost predicate HeardAll(es: seq<Event>, past: seq<Event>)
  {
    && (forall id: nat :: Heard(Run(es).state, id, L.AdvanceAll(L.Quiet, past, id)))
    && Announced(Run(es).actions, past)
  }

  lemma AnnouncedStep(s: State, e: Event, past: seq<Event>)
    requires forall id: nat :: Heard(s, id, L.AdvanceAll(L.Quiet, past, id))
    requires e.UpstreamConnectResult? && e.ok ==> IsUp(L.AdvanceAll(L.Quiet, past, e.stream))
    ensures Announced(Step(s, e).actions, past)
  {
    var acts := Step(s, e).actions;
    N.StepAddressed(s, e);
    forall i | 0 <= i < |acts| ensures AnnouncedOne(acts[i], past) {
      if acts[i].DownstreamSend? || acts[i].UpstreamSend? {
        assert Heard(s, acts[i].stream, L.AdvanceAll(L.Quiet, past, acts[i].stream));
      }
    }
  }

  lemma AnnouncedNext(init: seq<Event>, e: Event, past: seq<Event>)
    requires forall id: nat :: Heard(Run(init).state, id, L.AdvanceAll(L.Quiet, past, id))
    requires Announced(Run(init).actions, past)
    requires e.UpstreamConnectResult? && e.ok ==> IsUp(L.AdvanceAll(L.Quiet, past, e.stream))
    ensures Announced(Run(init + [e]).actions, past)
  {
    AnnouncedStep(Run(init).state, e, past);
    RunSnoc(init, e);
  }

  lemma MeetsNew(acts: seq<Action>, e: Event, past: seq<Event>)
    requires Announced(acts, past) && L.About(e).Some?
    requires L.Advance(L.AdvanceAll(L.Quiet, past, L.About(e).value), e) != L.Broken
    ensures N.NewAddress(acts, e)
  {
    NothingUnannounced(acts, past, L.About(e).value);
  }

  /** An event that the activator does not get. */
  lemma HeardMissed(es: seq<Event>, past: seq<Event>)
    requires past != [] && HeardAll(es, past[..|past| - 1])
    ensures HeardAll(es, past)
  {
    forall id: nat ensures Heard(Run(es).state, id, L.AdvanceAll(L.Quiet, past, id)) {
      ProgressOfLast(past, id);
      HeardLater(Run(es).state, past[|past| - 1], id, L.AdvanceAll(L.Quiet, past[..|past| - 1], id));
    }
    AnnouncedLater(Run(es).actions, past);
  }

  /** An event that the activator gets, from the manager. */
  lemma HeardTaken(init: seq<Event>, e: Event, past: seq<Event>)
    requires past != [] && past[|past| - 1] == e && L.About(e).Some? && InOrder(past)
    requires FreshRun(init) && HeardAll(init, past[..|past| - 1])
    ensures FreshRun(init + [e]) && HeardAll(init + [e], past) && N.NewAddress(Run(init).actions, e)
  {
    assert (init + [e])[..|init|] == init;
    R.LinkedOnEveryRun(init);
    ProgressOfLast(past, L.About(e).value);
    MeetsNew(Run(init).actions, e, past[..|past| - 1]);
    HeardMissed(init, past);
    AnnouncedNext(init, e, past);
    FirstUse(Run(init).state, e, L.AdvanceAll(L.Quiet, past[..|past| - 1], L.About(e).value));
    RunSnoc(init, e);
    forall id: nat ensures Heard(Run(init + [e]).state, id, L.AdvanceAll(L.Quiet, past, id)) {
      ProgressOfLast(past, id);
      HeardStep(Run(init).state, e, id, L.AdvanceAll(L.Quiet, past[..|past| - 1], id));
    }
  }

  /** An event that the activator gets from elsewhere. */
  lemma HeardTold(init: seq<Event>, e: Event, past: seq<Event>)
    requires L.About(e) == None && (e.BackendAvailable? ==> Fresh(Run(init).state, e))
    requires FreshRun(init) && HeardAll(init, past)
    ensures FreshRun(init + [e]) && HeardAll(init + [e], past) && N.NewAddress(Run(init).actions, e)
  {
    assert (init + [e])[..|init|] == init;
    R.LinkedOnEveryRun(init);
    AnnouncedNext(init, e, past);
    FirstUse(Run(init).state, e, L.Quiet);
    RunSnoc(init, e);
    OthersHeard(Run(init).state, e, past);
  }

  lemma OthersHeard(s: State, e: Event, past: seq<Event>)
    requires R.Linked(s) && Fresh(s, e) && L.About(e) == None
    requires forall id: nat :: Heard(s, id, L.AdvanceAll(L.Quiet, past, id))
    ensures forall id: nat :: Heard(Step(s, e).state, id, L.AdvanceAll(L.Quiet, past, id))
  {
    forall id: nat ensures Heard(Step(s, e).state, id, L.AdvanceAll(L.Quiet, past, id)) {
      HeardStep(s, e, id, L.AdvanceAll(L.Quiet, past, id));
    }
  }

  lemma InOrderBefore(past: seq<Event>)
    requires past != [] && InOrder(past)
    ensures InOrder(past[..|past| - 1])
  {
    var init := past[..|past| - 1];
    forall id: nat ensures L.AdvanceAll(L.Quiet, init, id) != L.Broken {
      ProgressOfLast(past, id);
    }
  }

  lemma LastStreamEvent(init: seq<Event>, e: Event)
    ensures StreamEvents(init + [e]) == StreamEvents(init) + if L.About(e).Some? then [e] else []
  {
    StreamEventsAppend(init, [e]);
    assert [e][1..] == [];
  }

  /** Whichever of the events in order the activator hears, every handle is fresh when it meets it. */
  lemma {:induction false} SubsequenceIsFresh(es: seq<Event>, past: seq<Event>)
    requires InOrder(past) && OrdersValid(es) && Within(StreamEvents(es), past)
    ensures FreshRun(es) && N.NewAddresses(es) && HeardAll(es, past)
    decreases |es| + |past|
  {
    if es != [] {
      var init, e := es[..|es| - 1], es[|es| - 1];
      assert es == init + [e];
      LastStreamEvent(init, e);
      if L.About(e) == None {
        assert StreamEvents(init) + [] == StreamEvents(init);
        SubsequenceIsFresh(init, past);
        HeardTold(init, e, past);
      } else {
        var heard := StreamEvents(es);
        assert heard[..|heard| - 1] == StreamEvents(init);
        InOrderBefore(past);
        if WithinLast(heard, past) {
          SubsequenceIsFresh(init, past[..|past| - 1]);
          HeardTaken(init, e, past);
        } else {
          SubsequenceIsFresh(es, past[..|past| - 1]);
          HeardMissed(es, past);
        }
      }
    }
  }

  // ---------------------------------------------------------------------
  // The stack
  // ---------------------------------------------------------------------

  /** What the activator guarantees of the actions it hands over, on a run with fresh handles. */
  ghost predicate Guaranteed(es: seq<Event>, h: nat)
  {
    var out := Run(es);
    && FreshRun(es) && R.Linked(out.state)
    && out.state.total == K.SumStreams(out.state.conns)
    && K.LastNeed(NeedNone, out.actions)
       == (if exists g :: g in out.state.conns && out.state.conns[g].core.streams != [] then NeedActive else NeedNone)
    && (h in out.state.conns ==>
          && D.ClientSends(E.SeenBy(es, h)) + out.state.conns[h].core.buffered
             == D.Owed(D.LedgerOf(E.Life(es, h)).clientBytes)
          && H.BackendSends(E.SeenBy(es, h))
             == D.Forwardable(F.CutFrames(D.LedgerOf(E.Life(es, h)).backendBytes).frames)
          && H.ProxyToClient(E.SeenBy(es, h))
             == H.ClientHears(D.LedgerOf(E.Life(es, h)).clientBytes) + H.Notices(E.Life(es, h))
          && F.IsFramed(W.DownBytes(E.SeenBy(es, h)))
          && (W.UpBytes(E.SeenBy(es, h)) == [] || W.PrefaceThenFrames(W.UpBytes(E.SeenBy(es, h)))))
  }

  lemma FreshIsGuaranteed(es: seq<Event>, h: nat)
    requires FreshRun(es)
    ensures Guaranteed(es, h)
  {
    R.LinkedOnEveryRun(es);
    K.FreshRunOpensFresh(es);
    K.CounterAndNeedOnEveryRun(es);
    if h in Run(es).state.conns {
      E.DeliveryEndToEnd(es, h);
      E.FramingEndToEnd(es, h);
      E.RepliesEndToEnd(es, h);
    }
  }

  /**
   * The whole stack. For arbitrary socket behaviour below and arbitrary backend availability beside it, and
   * whichever of the manager's events reach the activator: its counter and need signal are right, its tables are
   * linked, and for every live connection the frames owed are handed to the manager in order and whole.
   */
  lemma StackGuarantees(m: M.Manager, inputs: seq<M.Input>, es: seq<Event>, h: nat)
    requires M.Initial(m) && M.PlausibleRun(m, inputs)
    requires Within(StreamEvents(es), M.Run(m, inputs).events) && OrdersValid(es)
    ensures Guaranteed(es, h)
    ensures N.NewAddresses(es) && HeardAll(es, M.Run(m, inputs).events)
  {
    var past := M.Run(m, inputs).events;
    forall id: nat ensures L.AdvanceAll(L.Quiet, past, id) != L.Broken {
      L.EventsInOrderOnEveryRun(m, inputs, id);
    }
    SubsequenceIsFresh(es, past);
    FreshIsGuaranteed(es, h);
  }

  // ---------------------------------------------------------------------
  // Every upstream is closed once
  // ---------------------------------------------------------------------

  /** The connect results reported for stream `u`. */
  function Results(es: seq<Event>, u: nat): nat
  {
    if es == [] then 0
    else
      var e := es[|es| - 1];
      Results(es[..|es| - 1], u) + if e.UpstreamConnectResult? && e.stream == u then 1 else 0
  }

  lemma {:induction false} OneResultInOrder(past: seq<Event>, u: nat)
    requires L.AdvanceAll(L.Quiet, past, u) != L.Broken
    ensures Results(past, u) <= if IsUp(L.AdvanceAll(L.Quiet, past, u)) then 1 else 0
  {
    if past != [] {
      ProgressOfLast(past, u);
      OneResultInOrder(past[..|past| - 1], u);
    }
  }

  lemma {:induction false} ResultsWithin(a: seq<Event>, b: seq<Event>, u: nat)
    requires Within(a, b)
    ensures Results(a, u) <= Results(b, u)
    decreases |b|
  {
    if a != [] {
      if WithinLast(a, b) {
        ResultsWithin(a[..|a| - 1], b[..|b| - 1], u);
      } else {
        ResultsWithin(a, b[..|b| - 1], u);
      }
    }
  }

  lemma {:induction false} ResultsAreStreamEvents(es: seq<Event>, u: nat)
    ensures Results(StreamEvents(es), u) == Results(es, u)
  {
    if es != [] {
      var init, e := es[..|es| - 1], es[|es| - 1];
      ResultsAreStreamEvents(init, u);
      LastStreamEvent(init, e);
      assert es == init + [e];
      OneMoreResult(StreamEvents(init), e, u);
    }
  }

  lemma OneMoreResult(heard: seq<Event>, e: Event, u: nat)
    ensures Results(heard + (if L.About(e).Some? then [e] else []), u)
            == Results(heard, u) + if e.UpstreamConnectResult? && e.stream == u then 1 else 0
  {
    if L.About(e).Some? {
      assert (heard + [e])[..|heard|] == heard;
    } else {
      assert heard + [] == heard;
    }
  }

  lemma {:induction false} ConnectedIsResult(es: seq<Event>, u: nat)
    ensures U.Connected(es, u) + U.FailedForNobody(es, u) <= Results(es, u)
    ensures UpstreamConnectResult(u, true) in es ==> U.Connected(es, u) > 0
  {
    if es != [] {
      ConnectedIsResult(es[..|es| - 1], u);
      assert es == es[..|es| - 1] + [es[|es| - 1]];
    }
  }

  /**
   * The whole stack, whichever of the manager's events reach the activator: an upstream that was reported connected
   * is mapped to a connection, or its end was reported while it was, or exactly one action has closed it, and only
   * one of these; and no upstream is closed twice.
   */
  lemma UpstreamsClosedOnce(m: M.Manager, inputs: seq<M.Input>, es: seq<Event>, u: nat)
    requires M.Initial(m) && M.PlausibleRun(m, inputs)
    requires Within(StreamEvents(es), M.Run(m, inputs).events) && OrdersValid(es)
    ensures U.Closes(Run(es).actions, u) <= 1
    ensures UpstreamConnectResult(u, true) in es ==>
              U.Closes(Run(es).actions, u) + U.Ended(es, u) + (if u in Run(es).state.up then 1 else 0) == 1
  {
    var past := M.Run(m, inputs).events;
    StackGuarantees(m, inputs, es, 0);
    L.EventsInOrderOnEveryRun(m, inputs, u);
    OneResultInOrder(past, u);
    ResultsWithin(StreamEvents(es), past, u);
    ResultsAreStreamEvents(es, u);
    ConnectedIsResult(es, u);
    U.UpstreamsAccountedFor(es, u);
  }
}
