/**
 * From the activator's sends to the sockets: in the closed loop, what a socket took is what the activator sent if
 * and only if no send was cut short. Nobody is told when one is.
 */
module ActivatorWire {
  import opened Common
  import opened ActivatorLoop
  import A = Http2Activator
  import M = StreamManager
  import L = StreamManagerLaws
  import S = StreamManagerSends
  import N = ActivatorAddresses
  import T = ActivatorStack
  import E = Http2ActivatorEndToEnd
  import W = Http2Framing
  import F = Http2Frames
  import U = Http2ActivatorUpstreams

  // ---------------------------------------------------------------------
  // Every byte the activator sends is asked of the manager, once and in order
  // ---------------------------------------------------------------------

  lemma {:induction false} RelayedHands(acts: seq<A.Action>, id: nat)
    ensures N.Handed(Relayed(acts), id) == N.Handed(acts, id)
  {
    if acts != [] {
      var first := if IsL4(acts[0]) then [acts[0]] else [];
      RelayedHands(acts[1..], id);
      N.HandedAppend(first, Relayed(acts[1..]), id);
      N.HandedAppend([acts[0]], acts[1..], id);
      assert acts == [acts[0]] + acts[1..];
    }
  }

  /** What was asked of the manager, and what is still to be asked, is what the activator sent. */
  ghost predicate Accounted(w: World, id: nat)
  {
    S.AskedAll(w.inputs, id) + N.Handed(w.outbox, id) == N.Handed(A.Run(w.seen).actions, id)
  }

  lemma CarriedBytes(a: A.Action, b: M.ManagerAction, id: nat)
    requires Carries(a, b)
    ensures S.Asked(b, id) == N.Handed([a], id)
  {
    assert [a][1..] == [];
  }

  lemma AskedNext(inputs: seq<M.Input>, i: M.Input, outbox: seq<A.Action>, id: nat)
    requires outbox != [] && Carries(outbox[0], i.action)
    ensures S.AskedAll(inputs + [i], id) + N.Handed(outbox[1..], id) == S.AskedAll(inputs, id) + N.Handed(outbox, id)
  {
    assert (inputs + [i])[..|inputs|] == inputs;
    CarriedBytes(outbox[0], i.action, id);
    N.HandedAppend([outbox[0]], outbox[1..], id);
    assert outbox == [outbox[0]] + outbox[1..];
    Associate(S.AskedAll(inputs, id), N.Handed([outbox[0]], id), N.Handed(outbox[1..], id));
  }

  lemma AskedNothing(inputs: seq<M.Input>, i: M.Input, id: nat)
    requires !FromActivator(i.action)
    ensures S.AskedAll(inputs + [i], id) == S.AskedAll(inputs, id)
  {
    assert (inputs + [i])[..|inputs|] == inputs;
    assert S.AskedAll(inputs, id) + [] == S.AskedAll(inputs, id);
  }

  lemma ManageAccounted(w: World, i: M.Input, id: nat)
    requires Accounted(w, id) && Possible(w, Manage(i))
    ensures Accounted(Take(w, Manage(i)), id)
  {
    if FromActivator(i.action) {
      AskedNext(w.inputs, i, w.outbox, id);
    } else {
      AskedNothing(w.inputs, i, id);
    }
  }

  lemma ActivateAccounted(w: World, e: A.Event, id: nat)
    requires Accounted(w, id) && w.state == A.Run(w.seen).state
    ensures Accounted(Activate(w, e), id)
  {
    var acts := A.Step(w.state, e).actions;
    A.RunSnoc(w.seen, e);
    RelayedHands(acts, id);
    N.HandedAppend(w.outbox, Relayed(acts), id);
    N.HandedAppend(A.Run(w.seen).actions, acts, id);
    Associate(S.AskedAll(w.inputs, id), N.Handed(w.outbox, id), N.Handed(acts, id));
  }

  lemma TurnAccounted(w: World, t: Turn, id: nat)
    requires Accounted(w, id) && w.state == A.Run(w.seen).state && Possible(w, t)
    ensures Accounted(Take(w, t), id)
  {
    match t
    case Manage(i) => ManageAccounted(w, i, id);
    case Deliver => ActivateAccounted(w.(past := w.past + [w.inbox[0]], inbox := w.inbox[1..]), w.inbox[0], id);
    case Tell(e) => ActivateAccounted(w, e, id);
    case GiveUp =>
  }

  lemma {:induction false} AccountedOnEveryRun(m: M.Manager, turns: seq<Turn>, id: nat)
    requires PossibleRun(m, turns)
    ensures Accounted(Run(m, turns), id)
  {
    if turns != [] {
      AccountedOnEveryRun(m, turns[..|turns| - 1], id);
      RecordedOnEveryRun(m, turns[..|turns| - 1]);
      TurnAccounted(Run(m, turns[..|turns| - 1]), turns[|turns| - 1], id);
    }
  }

  // ---------------------------------------------------------------------
  // What the sockets took
  // ---------------------------------------------------------------------

  /**
   * On every run of the loop, for every stream: its socket took what the activator sent, but for what the manager
   * has not been given yet, if and only if no send was cut short.
   */
  lemma WrittenOnEveryRun(m: M.Manager, turns: seq<Turn>, id: nat)
    requires M.Initial(m) && PossibleRun(m, turns)
    ensures var w := Run(m, turns);
            M.Written(w.manager, id) + N.Handed(w.outbox, id) == N.Handed(A.Run(w.seen).actions, id)
            <==> S.NoneCutShort(m, w.inputs, id)
  {
    var w := Run(m, turns);
    AccountedOnEveryRun(m, turns, id);
    RecordedOnEveryRun(m, turns);
    S.WrittenIsAcceptedPrefixes(m, w.inputs, id);
    S.TakenAllBounded(m, w.inputs, id);
    SameWithTail(M.Written(w.manager, id), S.AskedAll(w.inputs, id), N.Handed(w.outbox, id));
  }

  lemma SameWithTail(a: seq<Byte>, b: seq<Byte>, tail: seq<Byte>)
    ensures a + tail == b + tail <==> a == b
  {
    if a + tail == b + tail {
      assert |a| == |b|;
      assert a == (a + tail)[..|a|] && b == (b + tail)[..|b|];
    }
  }

  lemma OneDirection(m: M.Manager, inputs: seq<M.Input>, es: seq<A.Event>, id: nat)
    requires M.Initial(m) && M.PlausibleRun(m, inputs) && T.HeardAll(es, M.Run(m, inputs).events)
    ensures id in A.Run(es).state.conns ==> N.Handed(A.Run(es).actions, id) == N.DownTo(A.Run(es).actions, id)
    ensures id in A.Run(es).state.up ==> N.Handed(A.Run(es).actions, id) == N.UpTo(A.Run(es).actions, id)
  {
    var past := M.Run(m, inputs).events;
    L.EventsInOrderOnEveryRun(m, inputs, id);
    assert T.Heard(A.Run(es).state, id, L.AdvanceAll(L.Quiet, past, id));
    T.NothingUnannounced(A.Run(es).actions, past, id);
    N.HandedOneWay(A.Run(es).actions, id);
  }

  /** What was handed over for a live connection is what it was sent during its life: complete frames. */
  lemma DownHanded(m: M.Manager, turns: seq<Turn>, h: nat)
    requires M.Initial(m) && PossibleRun(m, turns) && T.OrdersValid(Run(m, turns).seen)
    requires h in Run(m, turns).state.conns
    ensures var w := Run(m, turns);
            && N.Handed(A.Run(w.seen).actions, h) == W.DownBytes(E.SeenBy(w.seen, h))
            && F.IsFramed(W.DownBytes(E.SeenBy(w.seen, h)))
  {
    var w := Run(m, turns);
    LoopGuarantees(m, turns, h);
    RecordedOnEveryRun(m, turns);
    OneDirection(m, w.inputs, w.seen, h);
    N.DownToIsSeen(w.seen, h);
  }

  /** Likewise for a mapped upstream: the preface and complete frames. */
  lemma UpHanded(m: M.Manager, turns: seq<Turn>, u: nat)
    requires M.Initial(m) && PossibleRun(m, turns) && T.OrdersValid(Run(m, turns).seen)
    requires u in Run(m, turns).state.up
    ensures var w := Run(m, turns);
            && N.Handed(A.Run(w.seen).actions, u) == W.UpBytes(E.SeenBy(w.seen, w.state.up[u]))
            && W.PrefaceThenFrames(W.UpBytes(E.SeenBy(w.seen, w.state.up[u])))
  {
    var w := Run(m, turns);
    LoopGuarantees(m, turns, u);
    RecordedOnEveryRun(m, turns);
    OneDirection(m, w.inputs, w.seen, u);
    N.UpToIsSeen(w.seen, u);
    N.MappedHeardPreface(w.seen, u);
  }

  /**
   * For every live connection, on every run of the loop: the client's socket took exactly what the connection sent
   * it during its life if and only if no send to it was cut short. Then, once the manager has been given everything,
   * the client has been sent complete frames.
   */
  lemma ClientIsWrittenWhole(m: M.Manager, turns: seq<Turn>, h: nat)
    requires M.Initial(m) && PossibleRun(m, turns) && T.OrdersValid(Run(m, turns).seen)
    requires h in Run(m, turns).state.conns
    ensures var w := Run(m, turns);
            && (M.Written(w.manager, h) + N.Handed(w.outbox, h) == W.DownBytes(E.SeenBy(w.seen, h))
                <==> S.NoneCutShort(m, w.inputs, h))
            && (S.NoneCutShort(m, w.inputs, h) && N.Handed(w.outbox, h) == [] ==> F.IsFramed(M.Written(w.manager, h)))
  {
    DownHanded(m, turns, h);
    WrittenOnEveryRun(m, turns, h);
    NothingLeft(M.Written(Run(m, turns).manager, h), N.Handed(Run(m, turns).outbox, h));
  }

  lemma NothingLeft(a: seq<Byte>, b: seq<Byte>)
    ensures b == [] ==> a + b == a
  {
  }

  /** Likewise for every mapped upstream, which has then been sent the preface and complete frames. */
  lemma BackendIsWrittenWhole(m: M.Manager, turns: seq<Turn>, u: nat)
    requires M.Initial(m) && PossibleRun(m, turns) && T.OrdersValid(Run(m, turns).seen)
    requires u in Run(m, turns).state.up
    ensures var w := Run(m, turns);
            && (M.Written(w.manager, u) + N.Handed(w.outbox, u) == W.UpBytes(E.SeenBy(w.seen, w.state.up[u]))
                <==> S.NoneCutShort(m, w.inputs, u))
            && (S.NoneCutShort(m, w.inputs, u) && N.Handed(w.outbox, u) == []
                ==> W.PrefaceThenFrames(M.Written(w.manager, u)))
  {
    UpHanded(m, turns, u);
    WrittenOnEveryRun(m, turns, u);
    NothingLeft(M.Written(Run(m, turns).manager, u), N.Handed(Run(m, turns).outbox, u));
  }

  // ---------------------------------------------------------------------
  // Closes
  // ---------------------------------------------------------------------

  /** What the manager was told to do, in order. */
  function Told(inputs: seq<M.Input>): seq<M.ManagerAction>
  {
    seq(|inputs|, i requires 0 <= i < |inputs| => inputs[i].action)
  }

  /** A close of either side, and what the manager does for it. */
  ghost predicate IsClose(a: A.Action, b: M.ManagerAction)
  {
    (a.DownstreamClose? || a.UpstreamClose?) && Carries(a, b)
  }

  lemma {:induction false} RelayedCounts(acts: seq<A.Action>, a: A.Action)
    requires IsL4(a)
    ensures multiset(Relayed(acts))[a] == multiset(acts)[a]
  {
    if acts != [] {
      RelayedCounts(acts[1..], a);
      assert acts == [acts[0]] + acts[1..];
    }
  }

  /** The closes carried out, and those still to be, are the closes the activator asked for. */
  ghost predicate CloseAccounted(w: World, a: A.Action, b: M.ManagerAction)
  {
    multiset(Told(w.inputs))[b] + multiset(w.outbox)[a] == multiset(A.Run(w.seen).actions)[a]
  }

  lemma ToldNext(inputs: seq<M.Input>, i: M.Input)
    ensures Told(inputs + [i]) == Told(inputs) + [i.action]
  {
  }

  lemma ManageCloses(w: World, i: M.Input, a: A.Action, b: M.ManagerAction)
    requires CloseAccounted(w, a, b) && IsClose(a, b) && Possible(w, Manage(i))
    ensures CloseAccounted(Take(w, Manage(i)), a, b)
  {
    ToldNext(w.inputs, i);
    if FromActivator(i.action) {
      OneCarried(w.outbox, i.action, a, b);
    }
  }

  lemma OneCarried(outbox: seq<A.Action>, done: M.ManagerAction, a: A.Action, b: M.ManagerAction)
    requires outbox != [] && Carries(outbox[0], done) && IsClose(a, b)
    ensures multiset([done])[b] + multiset(outbox[1..])[a] == multiset(outbox)[a]
  {
    assert outbox == [outbox[0]] + outbox[1..];
    assert outbox[0] == a <==> done == b;
  }

  lemma ActivateCloses(w: World, e: A.Event, a: A.Action, b: M.ManagerAction)
    requires CloseAccounted(w, a, b) && IsClose(a, b) && w.state == A.Run(w.seen).state
    ensures CloseAccounted(Activate(w, e), a, b)
  {
    A.RunSnoc(w.seen, e);
    RelayedCounts(A.Step(w.state, e).actions, a);
  }

  lemma TurnCloses(w: World, t: Turn, a: A.Action, b: M.ManagerAction)
    requires CloseAccounted(w, a, b) && IsClose(a, b) && w.state == A.Run(w.seen).state && Possible(w, t)
    ensures CloseAccounted(Take(w, t), a, b)
  {
    match t
    case Manage(i) => ManageCloses(w, i, a, b);
    case Deliver => ActivateCloses(w.(past := w.past + [w.inbox[0]], inbox := w.inbox[1..]), w.inbox[0], a, b);
    case Tell(e) => ActivateCloses(w, e, a, b);
    case GiveUp =>
  }

  /**
   * On every run of the loop, every close that the activator asked for, of either side, has been given to the manager
   * as often as it was asked for, but for those still on their way.
   */
  lemma {:induction false} ClosesCarriedOut(m: M.Manager, turns: seq<Turn>, a: A.Action, b: M.ManagerAction)
    requires PossibleRun(m, turns) && IsClose(a, b)
    ensures CloseAccounted(Run(m, turns), a, b)
  {
    if turns != [] {
      ClosesCarriedOut(m, turns[..|turns| - 1], a, b);
      RecordedOnEveryRun(m, turns[..|turns| - 1]);
      TurnCloses(Run(m, turns[..|turns| - 1]), turns[|turns| - 1], a, b);
    }
  }

  /** On every run of the loop, the manager has closed each upstream at most once. */
  lemma UpstreamsClosedOnce(m: M.Manager, turns: seq<Turn>, u: nat)
    requires M.Initial(m) && PossibleRun(m, turns) && T.OrdersValid(Run(m, turns).seen)
    ensures var w := Run(m, turns);
            && multiset(Told(w.inputs))[M.CloseUp(u)] + multiset(w.outbox)[A.UpstreamClose(u)] <= 1
            && (A.UpstreamConnectResult(u, true) in w.seen ==>
                  multiset(Told(w.inputs))[M.CloseUp(u)] + multiset(w.outbox)[A.UpstreamClose(u)]
                  + U.Ended(w.seen, u) + (if u in w.state.up then 1 else 0) == 1)
  {
    var w := Run(m, turns);
    RecordedOnEveryRun(m, turns);
    WithinMore(T.StreamEvents(w.seen), w.past, w.inbox);
    T.UpstreamsClosedOnce(m, w.inputs, w.seen, u);
    U.ClosesIsMultiplicity(A.Run(w.seen).actions, u);
    ClosesCarriedOut(m, turns, A.UpstreamClose(u), M.CloseUp(u));
  }
}
