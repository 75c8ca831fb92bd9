/** Which streams the activator's sends are addressed to, and how they make up what a connection was sent. */
module ActivatorAddresses {
  import opened Common
  import opened Http2Activator
  import C = Http2Connection
  import D = Http2Delivery
  import W = Http2Framing
  import R = Http2ActivatorRouting
  import E = Http2ActivatorEndToEnd

  // ---------------------------------------------------------------------
  // Bytes by address
  // ---------------------------------------------------------------------

  function DownOne(a: Action, id: nat): seq<Byte>
  {
    if a.DownstreamSend? && a.stream == id then a.data else []
  }

  function UpOne(a: Action, id: nat): seq<Byte>
  {
    if a.UpstreamSend? && a.stream == id then a.data else []
  }

  function DownTo(acts: seq<Action>, id: nat): seq<Byte>
  {
    if acts == [] then [] else DownOne(acts[0], id) + DownTo(acts[1..], id)
  }

  function UpTo(acts: seq<Action>, id: nat): seq<Byte>
  {
    if acts == [] then [] else UpOne(acts[0], id) + UpTo(acts[1..], id)
  }

  /** All the bytes that the actions ask to send on stream `id`; ids of the two directions share one space. */
  function Handed(acts: seq<Action>, id: nat): seq<Byte>
  {
    if acts == [] then [] else DownOne(acts[0], id) + UpOne(acts[0], id) + Handed(acts[1..], id)
  }

  lemma {:induction false} DownToAppend(a: seq<Action>, b: seq<Action>, id: nat)
    ensures DownTo(a + b, id) == DownTo(a, id) + DownTo(b, id)
  {
    if a == [] {
      assert a + b == b;
    } else {
      assert (a + b)[1..] == a[1..] + b;
      DownToAppend(a[1..], b, id);
      Associate(DownOne(a[0], id), DownTo(a[1..], id), DownTo(b, id));
    }
  }

  lemma {:induction false} UpToAppend(a: seq<Action>, b: seq<Action>, id: nat)
    ensures UpTo(a + b, id) == UpTo(a, id) + UpTo(b, id)
  {
    if a == [] {
      assert a + b == b;
    } else {
      assert (a + b)[1..] == a[1..] + b;
      UpToAppend(a[1..], b, id);
      Associate(UpOne(a[0], id), UpTo(a[1..], id), UpTo(b, id));
    }
  }

  lemma {:induction false} HandedAppend(a: seq<Action>, b: seq<Action>, id: nat)
    ensures Handed(a + b, id) == Handed(a, id) + Handed(b, id)
  {
    if a == [] {
      assert a + b == b;
    } else {
      assert (a + b)[1..] == a[1..] + b;
      HandedAppend(a[1..], b, id);
      Associate(DownOne(a[0], id) + UpOne(a[0], id), Handed(a[1..], id), Handed(b, id));
    }
  }

  lemma {:induction false} HandedOneWay(acts: seq<Action>, id: nat)
    ensures UpTo(acts, id) == [] ==> Handed(acts, id) == DownTo(acts, id)
    ensures DownTo(acts, id) == [] ==> Handed(acts, id) == UpTo(acts, id)
  {
    if acts != [] {
      HandedOneWay(acts[1..], id);
      var down, up := DownOne(acts[0], id), UpOne(acts[0], id);
      assert down + [] == down && [] + up == up;
    }
  }

  // ---------------------------------------------------------------------
  // Addresses in one step
  // ---------------------------------------------------------------------

  /** Sends go to the given connections and upstreams only. */
  ghost predicate Addressed(acts: seq<Action>, conns: set<nat>, ups: set<nat>)
  {
    forall i :: 0 <= i < |acts| ==>
                  (acts[i].DownstreamSend? ==> acts[i].stream in conns)
                  && (acts[i].UpstreamSend? ==> acts[i].stream in ups)
  }

  lemma {:induction false} TranslateAddressed(up: map<nat, nat>, h: nat, acts: seq<C.ConnAction>)
    ensures Addressed(TranslateAll(up, h, acts), {h}, up.Keys)
  {
    if acts != [] {
      TranslateAddressed(up, h, acts[1..]);
    }
  }

  lemma {:induction false} CloseConnsAddressed(s: State, order: seq<nat>)
    ensures Addressed(CloseConns(s, order).actions, s.conns.Keys, s.up.Keys)
    decreases |order|
  {
    if order != [] {
      if order[0] in s.conns {
        var first := Commit(s, order[0], C.OnUpstreamClosed(s.conns[order[0]]));
        TranslateAddressed(s.up, order[0], C.OnUpstreamClosed(s.conns[order[0]]).actions);
        CloseConnsAddressed(first.state, order[1..]);
        assert first.state.conns.Keys == s.conns.Keys;
      } else {
        CloseConnsAddressed(s, order[1..]);
      }
    }
  }

  lemma {:induction false} NoSendsInConnects(n: nat)
    ensures E.Unaddressed(Connects(n))
  {
    if n > 0 {
      NoSendsInConnects(n - 1);
    }
  }

  lemma {:induction false} NoSendsInCloses(us: seq<nat>)
    ensures E.Unaddressed(CloseUpstreams(us))
  {
    if us != [] {
      NoSendsInCloses(us[1..]);
    }
  }

  lemma CommitAddressed(s: State, h: nat, o: C.ConnOutcome)
    requires h in s.conns
    ensures Addressed(Commit(s, h, o).actions, s.conns.Keys, s.up.Keys)
    ensures Addressed(CommitWithNeed(s, h, o).actions, s.conns.Keys, s.up.Keys)
  {
    TranslateAddressed(s.up, h, o.actions);
  }

  lemma StreamDataAddressed(s: State, h: nat, d: seq<Byte>)
    ensures Addressed(OnStreamData(s, h, d).actions, s.conns.Keys, s.up.Keys)
  {
    if h in s.conns {
      var out := Commit(s, h, C.OnClientData(s.conns[h], d));
      CommitAddressed(s, h, C.OnClientData(s.conns[h], d));
      NoSendsInConnects(if s.available && Waiting(out.state.conns[h]) then 1 else 0);
    }
  }

  lemma BackendAddressed(s: State, a: bool, cs: seq<nat>, us: seq<nat>)
    ensures Addressed(OnBackendAvailable(s, a, cs, us).actions, s.conns.Keys, s.up.Keys)
  {
    if a {
      NoSendsInConnects(|WaitingIn(s.conns, cs)|);
    } else {
      CloseConnsAddressed(s.(available := a), cs);
      NoSendsInCloses(us);
    }
  }

  lemma ConnectResultAddressed(s: State, u: nat, ok: bool)
    ensures Addressed(OnConnectResult(s, u, ok).actions, s.conns.Keys,
                      E.InForce(s, UpstreamConnectResult(u, ok)).Keys)
  {
    if s.pending != [] && s.pending[0] in s.conns {
      var h := s.pending[0];
      var popped := s.(pending := s.pending[1..]);
      CommitAddressed(popped.(up := popped.up[u := h]), h, C.OnUpstreamConnected(s.conns[h]));
      CommitAddressed(popped, h, C.OnUpstreamFailed(s.conns[h]));
    }
  }

  /** For every event and state: sends go to live connections and to upstreams mapped while they are sent. */
  lemma StepAddressed(s: State, e: Event)
    ensures Addressed(Step(s, e).actions, s.conns.Keys, E.InForce(s, e).Keys)
  {
    match e
    case StreamData(h, d) => StreamDataAddressed(s, h, d);
    case BackendAvailable(a, cs, us) => BackendAddressed(s, a, cs, us);
    case UpstreamConnectResult(u, ok) => ConnectResultAddressed(s, u, ok);
    case UpstreamData(u, d) =>
      if u in s.up && s.up[u] in s.conns {
        CommitAddressed(s, s.up[u], C.OnUpstreamData(s.conns[s.up[u]], d));
      }
    case UpstreamClosed(u) =>
      if u in s.up && s.up[u] in s.conns {
        CommitAddressed(s.(up := s.up - {u}), s.up[u], C.OnUpstreamClosed(s.conns[s.up[u]]));
      }
    case _ =>
  }

  // ---------------------------------------------------------------------
  // What a connection was sent, by address
  // ---------------------------------------------------------------------

  lemma {:induction false} DownSeen(up: map<nat, nat>, acts: seq<Action>, h: nat)
    ensures W.DownBytes(E.Seen(up, acts, h)) == DownTo(acts, h)
  {
    if acts != [] {
      DownSeen(up, acts[1..], h);
      W.BytesAppend(E.SeenOne(up, acts[0], h), E.Seen(up, acts[1..], h));
      OneSeen(up, acts[0], h);
    }
  }

  lemma OneSeen(up: map<nat, nat>, a: Action, h: nat)
    ensures W.DownBytes(E.SeenOne(up, a, h)) == DownOne(a, h)
    ensures forall u :: u in up && up[u] == h && R.Injective(up) ==> W.UpBytes(E.SeenOne(up, a, h)) == UpOne(a, u)
  {
    var seen := E.SeenOne(up, a, h);
    if seen != [] {
      assert seen[1..] == [];
    }
  }

  lemma {:induction false} UpSeen(up: map<nat, nat>, acts: seq<Action>, u: nat)
    requires R.Injective(up) && u in up
    ensures W.UpBytes(E.Seen(up, acts, up[u])) == UpTo(acts, u)
  {
    if acts != [] {
      UpSeen(up, acts[1..], u);
      W.BytesAppend(E.SeenOne(up, acts[0], up[u]), E.Seen(up, acts[1..], up[u]));
      OneSeen(up, acts[0], up[u]);
    }
  }

  /** A handle that the activator meets for the first time has not been sent anything before. */
  ghost predicate NewAddress(acts: seq<Action>, e: Event)
  {
    match e
    case StreamOpen(h) => DownTo(acts, h) == []
    case UpstreamConnectResult(u, ok) => ok ==> UpTo(acts, u) == []
    case _ => true
  }

  ghost predicate NewAddresses(es: seq<Event>)
  {
    es != [] ==> NewAddresses(es[..|es| - 1]) && NewAddress(Run(es[..|es| - 1]).actions, es[|es| - 1])
  }

  /** For every live connection: what was sent to its own address is what it was sent during its life. */
  lemma {:induction false} DownToIsSeen(es: seq<Event>, h: nat)
    requires FreshRun(es) && NewAddresses(es) && h in Run(es).state.conns
    ensures DownTo(Run(es).actions, h) == W.DownBytes(E.SeenBy(es, h))
  {
    var init, e := es[..|es| - 1], es[|es| - 1];
    var s := Run(init).state;
    DownToAppend(Run(init).actions, Step(s, e).actions, h);
    if e != StreamOpen(h) {
      R.LinkedOnEveryRun(init);
      E.ConnsAfterStep(s, e, h);
      DownToIsSeen(init, h);
      DownSeen(E.InForce(s, e), Step(s, e).actions, h);
      W.BytesAppend(E.SeenBy(init, h), E.Seen(E.InForce(s, e), Step(s, e).actions, h));
    }
  }

  lemma InForceInjective(s: State, e: Event)
    requires R.Linked(s) && Fresh(s, e)
    ensures R.Injective(E.InForce(s, e))
  {
  }

  /** Before a connection's connect result, nothing was sent upstream for it. */
  lemma PendingHeardNothing(es: seq<Event>, h: nat)
    requires FreshRun(es) && h in Run(es).state.pending
    ensures h in Run(es).state.conns && W.UpBytes(E.SeenBy(es, h)) == []
  {
    R.LinkedOnEveryRun(es);
    E.ActivatorIsProduct(es, h);
    E.OneUpstreamPerLife(es, h);
    W.UpstreamIsFramed(E.Life(es, h));
    E.VisibleKeeps(D.Run(E.Life(es, h)).actions);
  }

  /** An upstream that is mapped has been sent the preface, and complete frames after it. */
  lemma MappedHeardPreface(es: seq<Event>, u: nat)
    requires FreshRun(es) && u in Run(es).state.up
    ensures W.PrefaceThenFrames(W.UpBytes(E.SeenBy(es, Run(es).state.up[u])))
  {
    var h := Run(es).state.up[u];
    R.LinkedOnEveryRun(es);
    E.ActivatorIsProduct(es, h);
    E.OneUpstreamPerLife(es, h);
    W.UpstreamIsFramed(E.Life(es, h));
    E.VisibleKeeps(D.Run(E.Life(es, h)).actions);
  }

  lemma BackendRoutes(s: State, a: bool, cs: seq<nat>, us: seq<nat>, u: nat)
    requires u in OnBackendAvailable(s, a, cs, us).state.up
    ensures u in s.up && s.up[u] == OnBackendAvailable(s, a, cs, us).state.up[u]
  {
    R.CloseConnsState(s.(available := a), cs);
  }

  lemma ConnectResultRoutes(s: State, u: nat, ok: bool, v: nat)
    requires v in OnConnectResult(s, u, ok).state.up
    ensures var inForce := E.InForce(s, UpstreamConnectResult(u, ok));
            v in inForce && inForce[v] == OnConnectResult(s, u, ok).state.up[v]
    ensures v in s.up || (v == u && ok && s.pending != [])
  {
  }

  /** A route that is there after a step was in force during it, and is an earlier one or has just been made. */
  lemma RouteKept(s: State, e: Event, u: nat)
    requires u in Step(s, e).state.up
    ensures u in E.InForce(s, e) && E.InForce(s, e)[u] == Step(s, e).state.up[u]
    ensures u in s.up || (e == UpstreamConnectResult(u, true) && s.pending != [])
  {
    match e
    case BackendAvailable(a, cs, us) => BackendRoutes(s, a, cs, us, u);
    case UpstreamConnectResult(v, ok) => ConnectResultRoutes(s, v, ok, u);
    case _ =>
  }

  /** For every mapped upstream: what was sent to its address is what its connection sent upstream. */
  lemma {:induction false} UpToIsSeen(es: seq<Event>, u: nat)
    requires FreshRun(es) && NewAddresses(es) && u in Run(es).state.up
    ensures UpTo(Run(es).actions, u) == W.UpBytes(E.SeenBy(es, Run(es).state.up[u]))
  {
    var init, e := es[..|es| - 1], es[|es| - 1];
    var s := Run(init).state;
    assert es == init + [e];
    RouteKept(s, e, u);
    if u in s.up {
      UpToIsSeen(init, u);
    } else {
      PendingHeardNothing(init, s.pending[0]);
    }
    RouteGoesOn(es, init, e, u);
  }

  lemma RouteGoesOn(es: seq<Event>, init: seq<Event>, e: Event, u: nat)
    requires es == init + [e]
    requires FreshRun(init) && Fresh(Run(init).state, e) && u in E.InForce(Run(init).state, e)
    requires UpTo(Run(init).actions, u) == W.UpBytes(E.SeenBy(init, E.InForce(Run(init).state, e)[u]))
    ensures UpTo(Run(es).actions, u) == W.UpBytes(E.SeenBy(es, E.InForce(Run(init).state, e)[u]))
  {
    R.LinkedOnEveryRun(init);
    UpToStep(init, e, u);
  }

  lemma UpToStep(init: seq<Event>, e: Event, u: nat)
    requires R.Linked(Run(init).state) && Fresh(Run(init).state, e) && u in E.InForce(Run(init).state, e)
    ensures var h := E.InForce(Run(init).state, e)[u];
            UpTo(Run(init).actions, u) == W.UpBytes(E.SeenBy(init, h)) && e != StreamOpen(h)
            ==> UpTo(Run(init + [e]).actions, u) == W.UpBytes(E.SeenBy(init + [e], h))
  {
    var s := Run(init).state;
    var h, acts := E.InForce(s, e)[u], Step(s, e).actions;
    assert (init + [e])[..|init|] == init;
    InForceInjective(s, e);
    UpToAppend(Run(init).actions, acts, u);
    UpSeen(E.InForce(s, e), acts, u);
    W.BytesAppend(E.SeenBy(init, h), E.Seen(E.InForce(s, e), acts, h));
  }
}
