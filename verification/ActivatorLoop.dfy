/**
 * The closed loop of the stream manager and the HTTP/2 activator: the manager's events go to the activator in
 * order, and the activator's actions go back to the manager in order. Whose turn it is, is up to the host. This is
 * what the host's event loop does when it is given an activator; its callers do not give it one yet.
 */
module ActivatorLoop {
  import opened Common
  import A = Http2Activator
  import M = StreamManager
  import L = StreamManagerLaws
  import P = StreamManagerReports
  import N = ActivatorAddresses
  import T = ActivatorStack

  // ---------------------------------------------------------------------
  // Connects that the activator issues
  // ---------------------------------------------------------------------

  function ConnectsIn(acts: seq<A.Action>): nat
  {
    if acts == [] then 0 else (if acts[0].UpstreamConnect? then 1 else 0) + ConnectsIn(acts[1..])
  }

  predicate NoConnects(acts: seq<A.Action>) { forall i :: 0 <= i < |acts| ==> !acts[i].UpstreamConnect? }

  lemma {:induction false} NoConnectsIn(acts: seq<A.Action>)
    requires NoConnects(acts)
    ensures ConnectsIn(acts) == 0
  {
    if acts != [] {
      NoConnectsIn(acts[1..]);
    }
  }

  lemma {:induction false} ConnectsInAppend(a: seq<A.Action>, b: seq<A.Action>)
    ensures ConnectsIn(a + b) == ConnectsIn(a) + ConnectsIn(b)
  {
    if a == [] {
      assert a + b == b;
    } else {
      assert (a + b)[1..] == a[1..] + b;
      ConnectsInAppend(a[1..], b);
    }
  }

  lemma {:induction false} ConnectsCount(n: nat)
    ensures ConnectsIn(A.Connects(n)) == n
  {
    if n > 0 {
      ConnectsCount(n - 1);
      assert A.Connects(n)[1..] == A.Connects(n - 1);
    }
  }

  lemma {:induction false} TranslateNoConnects(up: map<nat, nat>, h: nat, acts: seq<A.C.ConnAction>)
    ensures NoConnects(A.TranslateAll(up, h, acts))
  {
    if acts != [] {
      TranslateNoConnects(up, h, acts[1..]);
    }
  }

  lemma {:induction false} CloseConnsNoConnects(s: A.State, order: seq<nat>)
    ensures NoConnects(A.CloseConns(s, order).actions) && A.CloseConns(s, order).state.pending == s.pending
    decreases |order|
  {
    if order != [] {
      if order[0] in s.conns {
        var o := A.C.OnUpstreamClosed(s.conns[order[0]]);
        TranslateNoConnects(s.up, order[0], o.actions);
        CloseConnsNoConnects(A.Commit(s, order[0], o).state, order[1..]);
      } else {
        CloseConnsNoConnects(s, order[1..]);
      }
    }
  }

  lemma {:induction false} CloseUpstreamsNoConnects(us: seq<nat>)
    ensures NoConnects(A.CloseUpstreams(us))
  {
    if us != [] {
      CloseUpstreamsNoConnects(us[1..]);
    }
  }

  lemma {:induction false} WithoutShrinks(q: seq<nat>, h: nat)
    ensures |Without(q, h)| <= |q|
  {
    if q != [] {
      WithoutShrinks(q[1..], h);
    }
  }

  /** What an event does to the length of the pending queue, besides the connects it issues. */
  function Taken(s: A.State, e: A.Event): nat
  {
    match e
    case StreamClose(h) => if h in s.conns then Removed(s.pending, h) else 0
    case UpstreamConnectResult(_, _) => if s.pending == [] then 0 else 1
    case _ => 0
  }

  function Removed(q: seq<nat>, h: nat): nat
  {
    WithoutShrinks(q, h);
    |q| - |Without(q, h)|
  }

  lemma CommitQueue(s: A.State, h: nat, o: A.C.ConnOutcome)
    ensures A.Commit(s, h, o).state.pending == s.pending && A.CommitWithNeed(s, h, o).state.pending == s.pending
    ensures ConnectsIn(A.Commit(s, h, o).actions) == 0 && ConnectsIn(A.CommitWithNeed(s, h, o).actions) == 0
  {
    var acts := A.TranslateAll(s.up, h, o.actions);
    var need := A.NeedTransition(s.total, A.Commit(s, h, o).state.total);
    TranslateNoConnects(s.up, h, o.actions);
    NoConnectsIn(acts);
    NoConnectsIn(need);
    ConnectsInAppend(acts, need);
  }

  lemma StreamDataQueue(s: A.State, h: nat, d: seq<Byte>)
    ensures var out := A.OnStreamData(s, h, d); |out.state.pending| == |s.pending| + ConnectsIn(out.actions)
  {
    if h in s.conns {
      var o := A.C.OnClientData(s.conns[h], d);
      var out := A.Commit(s, h, o);
      CommitQueue(s, h, o);
      StartedQueue(s, out, if s.available && A.Waiting(out.state.conns[h]) then [h] else []);
    }
  }

  lemma StartedQueue(s: A.State, out: A.Out, handles: seq<nat>)
    requires out.state.pending == s.pending && ConnectsIn(out.actions) == 0
    ensures var started := A.StartConnects(out.state, handles);
            var need := A.NeedTransition(s.total, out.state.total);
            |started.state.pending| == |s.pending| + ConnectsIn(out.actions + (started.actions + need))
  {
    var started := A.StartConnects(out.state, handles);
    var need := A.NeedTransition(s.total, out.state.total);
    ConnectsCount(|handles|);
    NoConnectsIn(need);
    ConnectsInAppend(started.actions, need);
    ConnectsInAppend(out.actions, started.actions + need);
  }

  lemma BackendQueue(s: A.State, a: bool, cs: seq<nat>, us: seq<nat>)
    ensures var out := A.OnBackendAvailable(s, a, cs, us); |out.state.pending| == |s.pending| + ConnectsIn(out.actions)
  {
    var s1 := s.(available := a);
    if a {
      ConnectsCount(|A.WaitingIn(s1.conns, cs)|);
    } else {
      CloseConnsNoConnects(s1, cs);
      CloseUpstreamsNoConnects(us);
      NoConnectsIn(A.OnBackendAvailable(s, a, cs, us).actions);
    }
  }

  lemma ConnectResultQueue(s: A.State, u: nat, ok: bool)
    ensures var out := A.OnConnectResult(s, u, ok);
            && |out.state.pending| + (if s.pending == [] then 0 else 1) == |s.pending|
            && ConnectsIn(out.actions) == 0
  {
    if s.pending == [] {
      NoConnectsIn(A.OnConnectResult(s, u, ok).actions);
    } else {
      var h := s.pending[0];
      var popped := s.(pending := s.pending[1..]);
      if h in s.conns {
        CommitQueue(popped.(up := popped.up[u := h]), h, A.C.OnUpstreamConnected(s.conns[h]));
        CommitQueue(popped, h, A.C.OnUpstreamFailed(s.conns[h]));
      }
    }
  }

  lemma StreamCloseQueue(s: A.State, h: nat)
    ensures var out := A.OnStreamClose(s, h);
            && |out.state.pending| + (if h in s.conns then Removed(s.pending, h) else 0) == |s.pending|
            && ConnectsIn(out.actions) == 0
  {
    NoConnectsIn(A.OnStreamClose(s, h).actions);
  }

  /** The queue grows by the connects issued and shrinks by what is taken from it, for every event and state. */
  lemma StepQueue(s: A.State, e: A.Event)
    ensures var out := A.Step(s, e);
            |out.state.pending| + Taken(s, e) == |s.pending| + ConnectsIn(out.actions)
  {
    match e
    case StreamData(h, d) => StreamDataQueue(s, h, d);
    case StreamClose(h) => StreamCloseQueue(s, h);
    case BackendAvailable(a, cs, us) => BackendQueue(s, a, cs, us);
    case UpstreamConnectResult(u, ok) => ConnectResultQueue(s, u, ok);
    case UpstreamData(u, d) =>
      if u in s.up && s.up[u] in s.conns {
        CommitQueue(s, s.up[u], A.C.OnUpstreamData(s.conns[s.up[u]], d));
      }
    case UpstreamClosed(u) =>
      if u in s.up && s.up[u] in s.conns {
        CommitQueue(s.(up := s.up - {u}), s.up[u], A.C.OnUpstreamClosed(s.conns[s.up[u]]));
      }
    case _ =>
  }

  // ---------------------------------------------------------------------
  // The loop
  // ---------------------------------------------------------------------

  /** The actions that are for the stream manager. */
  function Relayed(acts: seq<A.Action>): seq<A.Action>
  {
    if acts == [] then [] else (if IsL4(acts[0]) then [acts[0]] else []) + Relayed(acts[1..])
  }

  predicate IsL4(a: A.Action) { !a.SetBackendNeed? && !a.LogInfo? }

  lemma {:induction false} RelayedConnects(acts: seq<A.Action>)
    ensures ConnectsIn(Relayed(acts)) == ConnectsIn(acts)
  {
    if acts != [] {
      RelayedConnects(acts[1..]);
      ConnectsInAppend(if IsL4(acts[0]) then [acts[0]] else [], Relayed(acts[1..]));
    }
  }

  /** The manager's action is one that the activator can ask for. */
  predicate FromActivator(b: M.ManagerAction)
  {
    b.Connect? || b.SendDown? || b.SendUp? || b.CloseDown? || b.CloseUp?
  }

  /** The manager carries out what the activator asked for. */
  predicate Carries(a: A.Action, b: M.ManagerAction)
  {
    match a
    case UpstreamConnect(_) => b.Connect?
    case DownstreamSend(h, d, _) => b.SendDown? && b.id == h && b.data == d
    case UpstreamSend(u, d, _) => b.SendUp? && b.id == u && b.data == d
    case DownstreamClose(h) => b == M.CloseDown(h)
    case UpstreamClose(u) => b == M.CloseUp(u)
    case _ => false
  }

  /**
   * `inbox`: events the activator has not been given yet; `past`: those before them, given to it or dropped.
   * `outbox`: actions the manager has not been given yet. The last five count what happened so far: pending
   * connects taken back because their client closed, connects refused for lack of a backend, upstreams that ended
   * without a connect result, connect results that found nothing pending, and connect results among the events the
   * host dropped. `inputs` and `seen` record what the two sides were given.
   */
  datatype World = World(
    inputs: seq<M.Input>,
    seen: seq<A.Event>,
    manager: M.Manager,
    state: A.State,
    past: seq<A.Event>,
    inbox: seq<A.Event>,
    outbox: seq<A.Action>,
    cancelled: nat,
    refused: nat,
    silent: nat,
    surplus: nat,
    dropped: nat)

  /**
   * The manager executes an action or just polls; the activator takes the oldest event; the host tells the
   * activator something of its own; or the host gives up on the events not taken yet, as it does after a
   * number of rounds.
   */
  datatype Turn = Manage(input: M.Input) | Deliver | Tell(event: A.Event) | GiveUp

  ghost function Activate(w: World, e: A.Event): World
  {
    var out := A.Step(w.state, e);
    w.(state := out.state,
       seen := w.seen + [e],
       outbox := w.outbox + Relayed(out.actions),
       cancelled := w.cancelled + if e.StreamClose? then Taken(w.state, e) else 0,
       surplus := w.surplus + if e.UpstreamConnectResult? && w.state.pending == [] then 1 else 0)
  }

  ghost function Take(w: World, t: Turn): World
  {
    match t
    case Manage(i) =>
      var sc := M.Step(w.manager, i);
      w.(manager := sc.manager,
         inputs := w.inputs + [i],
         inbox := w.inbox + sc.events,
         outbox := if FromActivator(i.action) && w.outbox != [] then w.outbox[1..] else w.outbox,
         refused := w.refused + (if i.action.Connect? && !w.manager.backend then 1 else 0),
         silent := w.silent + |P.SilentEnds(M.Execute(w.manager, i.action), i.oracle)|)
    case Deliver =>
      if w.inbox == [] then w else Activate(w.(past := w.past + [w.inbox[0]], inbox := w.inbox[1..]), w.inbox[0])
    case Tell(e) => Activate(w, e)
    case GiveUp => w.(past := w.past + w.inbox, inbox := [], dropped := w.dropped + P.Results(w.inbox))
  }

  /** The manager carries out only what it is asked to, in order, and the host does not make up stream events. */
  ghost predicate Possible(w: World, t: Turn)
  {
    match t
    case Manage(i) =>
      && M.Plausible(w.manager, i)
      && (FromActivator(i.action) ==> w.outbox != [] && Carries(w.outbox[0], i.action))
    case Deliver => w.inbox != []
    case Tell(e) => L.About(e) == None
    case GiveUp => true
  }

  ghost function Start(m: M.Manager): World { World([], [], m, A.INITIAL, [], [], [], 0, 0, 0, 0, 0) }

  ghost predicate PossibleRun(m: M.Manager, turns: seq<Turn>)
  {
    turns != [] ==>
      && PossibleRun(m, turns[..|turns| - 1])
      && Possible(Run(m, turns[..|turns| - 1]), turns[|turns| - 1])
  }

  ghost function Run(m: M.Manager, turns: seq<Turn>): World
  {
    if turns == [] then Start(m) else Take(Run(m, turns[..|turns| - 1]), turns[|turns| - 1])
  }

  lemma RunNext(m: M.Manager, turns: seq<Turn>, t: Turn)
    ensures Run(m, turns + [t]) == Take(Run(m, turns), t)
    ensures PossibleRun(m, turns + [t]) <==> PossibleRun(m, turns) && Possible(Run(m, turns), t)
  {
    assert (turns + [t])[..|turns|] == turns;
  }

  // ---------------------------------------------------------------------
  // The balance of connects
  // ---------------------------------------------------------------------

  /** Answers to connects that are still on their way: not asked for yet, not reported yet, not heard yet. */
  ghost function Awaited(w: World): nat
  {
    ConnectsIn(w.outbox) + |P.Unreported(w.manager.streams)| + P.Results(w.inbox)
  }

  ghost predicate Balanced(w: World)
  {
    |w.state.pending| + w.cancelled == Awaited(w) + w.refused + w.silent + w.surplus + w.dropped
  }

  ghost predicate Inv(w: World)
  {
    && L.Tables(w.manager) && L.AllOpen(w.manager.streams)
    && Balanced(w)
    && w.surplus <= w.cancelled
  }

  /** One event given to the activator; `rest` is the inbox without it. */
  lemma ActivateBalance(w: World, e: A.Event, past: seq<A.Event>, rest: seq<A.Event>)
    requires Balanced(w) && w.surplus <= w.cancelled
    requires P.Results(w.inbox) == P.Results(rest) + if e.UpstreamConnectResult? then 1 else 0
    ensures var w' := Activate(w.(past := past, inbox := rest), e); Balanced(w') && w'.surplus <= w'.cancelled
  {
    StepQueue(w.state, e);
    RelayedConnects(A.Step(w.state, e).actions);
    ConnectsInAppend(w.outbox, Relayed(A.Step(w.state, e).actions));
  }

  lemma ManageBalance(w: World, i: M.Input)
    requires L.Tables(w.manager) && L.AllOpen(w.manager.streams) && Balanced(w) && Possible(w, Manage(i))
    ensures Balanced(Take(w, Manage(i)))
  {
    P.StepReports(w.manager, i);
    P.ResultsAppend(w.inbox, M.Step(w.manager, i).events);
  }

  lemma TurnKeepsInv(w: World, t: Turn)
    requires Inv(w) && Possible(w, t)
    ensures Inv(Take(w, t))
  {
    match t
    case Manage(i) =>
      L.ExecuteTables(w.manager, i.action);
      L.ScanTables(M.Execute(w.manager, i.action), i.oracle);
      ManageBalance(w, i);
    case Deliver =>
      ActivateBalance(w, w.inbox[0], w.past + [w.inbox[0]], w.inbox[1..]);
    case Tell(e) =>
      assert w.(past := w.past, inbox := w.inbox) == w;
      ActivateBalance(w, e, w.past, w.inbox);
    case GiveUp =>
  }

  lemma {:induction false} InvOnEveryRun(m: M.Manager, turns: seq<Turn>)
    requires M.Initial(m) && PossibleRun(m, turns)
    ensures Inv(Run(m, turns))
  {
    if turns == [] {
      assert P.Unreported(m.streams) == {};
      L.TablesOnEveryRun(m, []);
    } else {
      InvOnEveryRun(m, turns[..|turns| - 1]);
      TurnKeepsInv(Run(m, turns[..|turns| - 1]), turns[|turns| - 1]);
    }
  }

  /**
   * On every run of the loop, for arbitrary sockets, clients, availability and scheduling: pending connects and
   * the answers still on their way differ by exactly the connects that were refused or ended silently, the
   * results that were dropped, and the clients that went away. So they match if and only if these cancel out.
   * No more than the refused, silent and dropped ones are ever pending in vain.
   */
  lemma ConnectsBalanceOnEveryRun(m: M.Manager, turns: seq<Turn>)
    requires M.Initial(m) && PossibleRun(m, turns)
    ensures var w := Run(m, turns);
            && |w.state.pending| + w.cancelled == Awaited(w) + w.refused + w.silent + w.surplus + w.dropped
            && (|w.state.pending| == Awaited(w) <==> w.refused + w.silent + w.surplus + w.dropped == w.cancelled)
            && |w.state.pending| <= Awaited(w) + w.refused + w.silent + w.dropped
  {
    InvOnEveryRun(m, turns);
  }

  /** As long as no client that waits goes away, the match fails exactly when a connect got lost. */
  lemma PendingMatchedIff(m: M.Manager, turns: seq<Turn>)
    requires M.Initial(m) && PossibleRun(m, turns) && Run(m, turns).cancelled == 0
    ensures var w := Run(m, turns);
            |w.state.pending| == Awaited(w) <==> w.refused == 0 && w.silent == 0 && w.dropped == 0
  {
    InvOnEveryRun(m, turns);
  }

  // ---------------------------------------------------------------------
  // The activator's laws in the loop
  // ---------------------------------------------------------------------

  /** The two sides are where their records lead, and the activator has had some of the manager's past events. */
  ghost predicate Recorded(m: M.Manager, w: World)
  {
    && M.PlausibleRun(m, w.inputs) && w.manager == M.Run(m, w.inputs).manager
    && w.state == A.Run(w.seen).state
    && M.Run(m, w.inputs).events == w.past + w.inbox
    && Within(T.StreamEvents(w.seen), w.past)
  }

  lemma ManageRecorded(m: M.Manager, w: World, i: M.Input)
    requires Recorded(m, w) && Possible(w, Manage(i))
    ensures Recorded(m, Take(w, Manage(i)))
  {
    M.RunNext(m, w.inputs, i);
    Associate(w.past, w.inbox, M.Step(w.manager, i).events);
  }

  lemma DeliverRecorded(m: M.Manager, w: World)
    requires Recorded(m, w) && w.inbox != []
    ensures Recorded(m, Take(w, Deliver))
  {
    A.RunSnoc(w.seen, w.inbox[0]);
    HearsFirst(w.seen, w.past, w.inbox);
  }

  lemma HearsFirst(seen: seq<A.Event>, past: seq<A.Event>, inbox: seq<A.Event>)
    requires Within(T.StreamEvents(seen), past) && inbox != []
    ensures Within(T.StreamEvents(seen + [inbox[0]]), past + [inbox[0]])
    ensures past + [inbox[0]] + inbox[1..] == past + inbox
  {
    var e := inbox[0];
    T.LastStreamEvent(seen, e);
    WithinNext(T.StreamEvents(seen), past, e);
    assert T.StreamEvents(seen) + [] == T.StreamEvents(seen);
    assert inbox == [e] + inbox[1..];
    Associate(past, [e], inbox[1..]);
  }

  lemma TellRecorded(m: M.Manager, w: World, e: A.Event)
    requires Recorded(m, w) && L.About(e) == None
    ensures Recorded(m, Activate(w, e))
  {
    A.RunSnoc(w.seen, e);
    T.LastStreamEvent(w.seen, e);
    assert T.StreamEvents(w.seen) + [] == T.StreamEvents(w.seen);
  }

  lemma GiveUpRecorded(m: M.Manager, w: World)
    requires Recorded(m, w)
    ensures Recorded(m, Take(w, GiveUp))
  {
    WithinMore(T.StreamEvents(w.seen), w.past, w.inbox);
  }

  lemma {:induction false} RecordedOnEveryRun(m: M.Manager, turns: seq<Turn>)
    requires PossibleRun(m, turns)
    ensures Recorded(m, Run(m, turns))
  {
    if turns != [] {
      var w, t := Run(m, turns[..|turns| - 1]), turns[|turns| - 1];
      RecordedOnEveryRun(m, turns[..|turns| - 1]);
      match t
      case Manage(i) => ManageRecorded(m, w, i);
      case Deliver => DeliverRecorded(m, w);
      case Tell(e) => TellRecorded(m, w, e);
      case GiveUp => GiveUpRecorded(m, w);
    }
  }

  /**
   * On every run of the loop, whatever the host drops: the activator is where the events it was given lead, it meets
   * fresh handles only, its tables are linked, its counter is exact, the last need it signalled is Active if and
   * only if a stream is open, and every live connection is handed over in order and whole.
   */
  lemma LoopGuarantees(m: M.Manager, turns: seq<Turn>, h: nat)
    requires M.Initial(m) && PossibleRun(m, turns) && T.OrdersValid(Run(m, turns).seen)
    ensures var w := Run(m, turns);
            && w.state == A.Run(w.seen).state
            && T.Guaranteed(w.seen, h)
            && N.NewAddresses(w.seen) && T.HeardAll(w.seen, w.past + w.inbox)
  {
    var w := Run(m, turns);
    RecordedOnEveryRun(m, turns);
    WithinMore(T.StreamEvents(w.seen), w.past, w.inbox);
    T.StackGuarantees(m, w.inputs, w.seen, h);
  }
}
