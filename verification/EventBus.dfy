/** The event bus: per-namespace ring buffers with fan-out that drops a subscriber on the first failed send. */
module EventBus {
  import opened Common

  type Chan = nat

  datatype Namespace<T> = Namespace(buffer: seq<T>, subscribers: seq<Chan>)

  datatype Bus<T> = Bus(namespaces: map<nat, Namespace<T>>, maxEvents: nat)

  /** The last `n` elements, or all of them when there are fewer. */
  function LastN<T>(s: seq<T>, n: nat): seq<T> { if |s| <= n then s else s[|s| - n..] }

  function Reached(subscribers: seq<Chan>, send: Chan -> bool): seq<Chan>
  {
    if subscribers == [] then []
    else (if send(subscribers[0]) then [subscribers[0]] else []) + Reached(subscribers[1..], send)
  }

  function Entry<T>(bus: Bus<T>, ns: nat): Namespace<T>
  {
    if ns in bus.namespaces then bus.namespaces[ns] else Namespace([], [])
  }

  /** One event of a batch; `send` says which channels take it. */
  function PublishOne<T>(bus: Bus<T>, ns: nat, event: T, send: Chan -> bool): Bus<T>
  {
    var n := Entry(bus, ns);
    bus.(namespaces := bus.namespaces[ns := Namespace(LastN(n.buffer + [event], bus.maxEvents),
                                                      Reached(n.subscribers, send))])
  }

  function Subscribe<T>(bus: Bus<T>, ns: nat, tx: Chan): Bus<T>
  {
    var n := Entry(bus, ns);
    bus.(namespaces := bus.namespaces[ns := n.(subscribers := n.subscribers + [tx])])
  }

  function RemoveNamespace<T>(bus: Bus<T>, ns: nat): Bus<T>
  {
    bus.(namespaces := bus.namespaces - {ns})
  }

  // ---------------------------------------------------------------------
  // Runs, with a record of everything published and everything received
  // ---------------------------------------------------------------------

  datatype Op<!T> =
    | DoPublish(ns: nat, event: T, send: Chan -> bool)
    | DoSubscribe(ns: nat, tx: Chan)
    | DoRemove(ns: nat)

  /** What one subscriber has received, and where in its namespace's publish history that began. */
  datatype Mail<T> = Mail(ns: nat, start: nat, items: seq<T>)

  datatype World<T> = World(bus: Bus<T>, history: map<nat, seq<T>>, mail: map<Chan, Mail<T>>)

  function HistoryOf<T>(w: World<T>, ns: nat): seq<T> { if ns in w.history then w.history[ns] else [] }

  function Step<T>(w: World<T>, op: Op<T>): World<T>
  {
    match op
    case DoPublish(ns, event, send) =>
      var reached := Reached(Entry(w.bus, ns).subscribers, send);
      World(PublishOne(w.bus, ns, event, send),
            w.history[ns := HistoryOf(w, ns) + [event]],
            map c | c in w.mail :: if c in reached then w.mail[c].(items := w.mail[c].items + [event]) else w.mail[c])
    case DoSubscribe(ns, tx) =>
      var snapshot := Entry(w.bus, ns).buffer;
      var n := |HistoryOf(w, ns)|;
      World(Subscribe(w.bus, ns, tx), w.history,
            w.mail[tx := Mail(ns, if |snapshot| <= n then n - |snapshot| else 0, snapshot)])
    case DoRemove(ns) => w.(bus := RemoveNamespace(w.bus, ns))
  }

  function Run<T>(maxEvents: nat, ops: seq<Op<T>>): World<T>
  {
    if ops == [] then World(Bus(map[], maxEvents), map[], map[])
    else Step(Run(maxEvents, ops[..|ops| - 1]), ops[|ops| - 1])
  }

  /** Every subscription uses a channel of its own. */
  predicate NewChans<T>(maxEvents: nat, ops: seq<Op<T>>)
  {
    ops != [] ==>
      && NewChans(maxEvents, ops[..|ops| - 1])
      && (ops[|ops| - 1].DoSubscribe? ==> ops[|ops| - 1].tx !in Run(maxEvents, ops[..|ops| - 1]).mail)
  }

  // ---------------------------------------------------------------------
  // Laws
  // ---------------------------------------------------------------------

  lemma {:induction false} ReachedSpec(subscribers: seq<Chan>, send: Chan -> bool)
    ensures forall c :: c in Reached(subscribers, send) <==> c in subscribers && send(c)
    ensures NoDuplicates(subscribers) ==> NoDuplicates(Reached(subscribers, send))
  {
    if subscribers != [] {
      ReachedSpec(subscribers[1..], send);
      assert subscribers == [subscribers[0]] + subscribers[1..];
      var tail := Reached(subscribers[1..], send);
      assert forall i :: 0 <= i < |tail| ==> tail[i] in subscribers[1..];
    }
  }

  /** `buffer` is a tail of `h`, no longer than the cap. */
  ghost predicate IsTail<T>(buffer: seq<T>, h: seq<T>, cap: nat)
  {
    |buffer| <= |h| && buffer == h[|h| - |buffer|..] && |buffer| <= cap
  }

  lemma TailGrows<T>(buffer: seq<T>, h: seq<T>, cap: nat, event: T)
    requires IsTail(buffer, h, cap)
    ensures IsTail(LastN(buffer + [event], cap), h + [event], cap)
  {
    var longer, whole := buffer + [event], h + [event];
    assert longer == whole[|h| - |buffer|..];
    if |longer| > cap {
      assert longer[|longer| - cap..] == whole[|whole| - cap..];
    }
  }

  /** `items` is the piece of `h` from `start` on, and reaches its end if `current`. */
  ghost predicate IsSegment<T>(items: seq<T>, start: nat, h: seq<T>, current: bool)
  {
    && start + |items| <= |h|
    && items == h[start..start + |items|]
    && (current ==> start + |items| == |h|)
  }

  lemma SegmentStays<T>(items: seq<T>, start: nat, h: seq<T>, event: T)
    requires IsSegment(items, start, h, false)
    ensures IsSegment(items, start, h + [event], false)
  {
  }

  lemma SegmentGrows<T>(items: seq<T>, start: nat, h: seq<T>, event: T)
    requires IsSegment(items, start, h, true)
    ensures IsSegment(items + [event], start, h + [event], true)
  {
  }

  /** The buffer is a tail of everything published to the namespace. */
  ghost predicate BufferInv<T>(w: World<T>, ns: nat)
  {
    ns in w.bus.namespaces ==> IsTail(w.bus.namespaces[ns].buffer, HistoryOf(w, ns), w.bus.maxEvents)
  }

  /** What the channel received is one contiguous piece of history, up to now while it is subscribed. */
  ghost predicate MailInv<T>(w: World<T>, c: Chan)
  {
    c in w.mail ==>
      var m := w.mail[c];
      IsSegment(m.items, m.start, HistoryOf(w, m.ns), c in Entry(w.bus, m.ns).subscribers)
  }

  /** A channel is subscribed to one namespace only, and once. */
  ghost predicate HomeInv<T>(w: World<T>)
  {
    && (forall ns :: ns in w.bus.namespaces ==> NoDuplicates(w.bus.namespaces[ns].subscribers))
    && forall ns, c :: ns in w.bus.namespaces && c in w.bus.namespaces[ns].subscribers ==>
      c in w.mail && w.mail[c].ns == ns
  }

  ghost predicate Inv<T>(w: World<T>)
  {
    HomeInv(w) && (forall ns :: BufferInv(w, ns)) && (forall c :: MailInv(w, c))
  }

  lemma PublishMail<T>(w: World<T>, op: Op<T>, c: Chan)
    requires op.DoPublish? && MailInv(w, c) && HomeInv(w)
    ensures MailInv(Step(w, op), c)
  {
    if c in w.mail {
      var m := w.mail[c];
      var subscribers := Entry(w.bus, op.ns).subscribers;
      ReachedSpec(subscribers, op.send);
      if c in Reached(subscribers, op.send) {
        assert m.ns == op.ns;
        SegmentGrows(m.items, m.start, HistoryOf(w, op.ns), op.event);
      } else if m.ns == op.ns {
        SegmentStays(m.items, m.start, HistoryOf(w, op.ns), op.event);
      }
    }
  }

  lemma PublishBuffer<T>(w: World<T>, op: Op<T>, ns: nat)
    requires op.DoPublish? && BufferInv(w, ns)
    ensures BufferInv(Step(w, op), ns)
  {
    if ns == op.ns {
      EntryTail(w, ns);
      PublishedEntry(w, op);
      TailGrows(Entry(w.bus, ns).buffer, HistoryOf(w, ns), w.bus.maxEvents, op.event);
    }
  }

  lemma EntryTail<T>(w: World<T>, ns: nat)
    requires BufferInv(w, ns)
    ensures IsTail(Entry(w.bus, ns).buffer, HistoryOf(w, ns), w.bus.maxEvents)
  {
  }

  lemma PublishedEntry<T>(w: World<T>, op: Op<T>)
    requires op.DoPublish?
    ensures var w' := Step(w, op);
            && op.ns in w'.bus.namespaces && w'.bus.maxEvents == w.bus.maxEvents
            && w'.bus.namespaces[op.ns].buffer == LastN(Entry(w.bus, op.ns).buffer + [op.event], w.bus.maxEvents)
            && HistoryOf(w', op.ns) == HistoryOf(w, op.ns) + [op.event]
  {
  }

  lemma HomeStep<T>(w: World<T>, op: Op<T>)
    requires HomeInv(w) && (op.DoSubscribe? ==> op.tx !in w.mail)
    ensures HomeInv(Step(w, op))
  {
    if op.DoPublish? {
      ReachedSpec(Entry(w.bus, op.ns).subscribers, op.send);
    } else if op.DoSubscribe? {
      assert op.tx !in Entry(w.bus, op.ns).subscribers;
    }
  }

  lemma SubscribeMail<T>(w: World<T>, op: Op<T>, c: Chan)
    requires op.DoSubscribe? && op.tx !in w.mail && MailInv(w, c) && BufferInv(w, op.ns)
    ensures MailInv(Step(w, op), c)
  {
  }

  lemma StepInv<T>(w: World<T>, op: Op<T>)
    requires Inv(w) && (op.DoSubscribe? ==> op.tx !in w.mail)
    ensures Inv(Step(w, op))
  {
    HomeStep(w, op);
    forall c ensures MailInv(Step(w, op), c) {
      assert MailInv(w, c);
      match op
      case DoPublish(_, _, _) => PublishMail(w, op, c);
      case DoSubscribe(ns, _) =>
        assert BufferInv(w, ns);
        SubscribeMail(w, op, c);
      case DoRemove(_) =>
    }
    forall ns ensures BufferInv(Step(w, op), ns) {
      assert BufferInv(w, ns);
      if op.DoPublish? {
        PublishBuffer(w, op, ns);
      }
    }
  }

  lemma {:induction false} RunInv<T>(maxEvents: nat, ops: seq<Op<T>>)
    requires NewChans(maxEvents, ops)
    ensures Inv(Run(maxEvents, ops))
  {
    if ops != [] {
      RunInv(maxEvents, ops[..|ops| - 1]);
      StepInv(Run(maxEvents, ops[..|ops| - 1]), ops[|ops| - 1]);
    }
  }

  /**
   * On every run: everything a subscriber ever received, snapshot first and live events after it, is one
   * contiguous segment of its namespace's publish history, without gap or repetition; and a subscriber that
   * is still subscribed has everything up to now.
   */
  lemma SubscriberSeesContiguousHistory<T>(maxEvents: nat, ops: seq<Op<T>>, c: Chan)
    requires NewChans(maxEvents, ops) && c in Run(maxEvents, ops).mail
    ensures var w := Run(maxEvents, ops);
            var m := w.mail[c];
            var h := HistoryOf(w, m.ns);
            && m.start + |m.items| <= |h|
            && m.items == h[m.start..m.start + |m.items|]
            && (c in Entry(w.bus, m.ns).subscribers ==> m.start + |m.items| == |h|)
  {
    RunInv(maxEvents, ops);
    assert MailInv(Run(maxEvents, ops), c);
  }

  // ---------------------------------------------------------------------
  // What is buffered, and who is subscribed
  // ---------------------------------------------------------------------

  /** The events published to the namespace since it was last removed. */
  function Recent<T>(ops: seq<Op<T>>, ns: nat): seq<T>
  {
    if ops == [] then []
    else
      var before := Recent(ops[..|ops| - 1], ns);
      match ops[|ops| - 1]
      case DoPublish(g, event, _) => if g == ns then before + [event] else before
      case DoRemove(g) => if g == ns then [] else before
      case DoSubscribe(_, _) => before
  }

  /** `buffer` is the longest tail of `h` that the cap allows. */
  ghost predicate IsLongestTail<T>(buffer: seq<T>, h: seq<T>, cap: nat)
  {
    IsTail(buffer, h, cap) && (|buffer| == cap || |buffer| == |h|)
  }

  lemma LongestTailGrows<T>(buffer: seq<T>, h: seq<T>, cap: nat, event: T)
    requires IsLongestTail(buffer, h, cap)
    ensures IsLongestTail(LastN(buffer + [event], cap), h + [event], cap)
  {
    TailGrows(buffer, h, cap, event);
  }

  /** On every run, a namespace's buffer is the longest tail of what was published since its creation that fits. */
  lemma {:induction false} BufferIsLongestTailOnEveryRun<T>(maxEvents: nat, ops: seq<Op<T>>, ns: nat)
    ensures IsLongestTail(Entry(Run(maxEvents, ops).bus, ns).buffer, Recent(ops, ns), maxEvents)
    ensures Run(maxEvents, ops).bus.maxEvents == maxEvents
  {
    if ops != [] {
      var init, op := ops[..|ops| - 1], ops[|ops| - 1];
      var before := Entry(Run(maxEvents, init).bus, ns);
      BufferIsLongestTailOnEveryRun(maxEvents, init, ns);
      BufferAfterStep(Run(maxEvents, init), op, ns);
      if op.DoPublish? && op.ns == ns {
        LongestTailGrows(before.buffer, Recent(init, ns), maxEvents, op.event);
      }
    }
  }

  lemma BufferAfterStep<T>(w: World<T>, op: Op<T>, ns: nat)
    ensures var before, after := Entry(w.bus, ns), Entry(Step(w, op).bus, ns);
            && Step(w, op).bus.maxEvents == w.bus.maxEvents
            && after.buffer == (if op.DoPublish? && op.ns == ns then LastN(before.buffer + [op.event], w.bus.maxEvents)
                                else if op.DoRemove? && op.ns == ns then []
                                else before.buffer)
  {
  }

  /** Where the channel is subscribed: since it subscribed, it took every event, and its namespace was not removed. */
  function Home<T>(ops: seq<Op<T>>, c: Chan): Option<nat>
  {
    if ops == [] then None
    else
      var before := Home(ops[..|ops| - 1], c);
      match ops[|ops| - 1]
      case DoSubscribe(ns, tx) => if tx == c then Some(ns) else before
      case DoPublish(ns, _, send) => if before == Some(ns) && !send(c) then None else before
      case DoRemove(ns) => if before == Some(ns) then None else before
  }

  /** The channel is subscribed at its home and nowhere else. */
  ghost predicate AtHome<T>(w: World<T>, c: Chan, home: Option<nat>)
  {
    && (forall ns: nat :: c in Entry(w.bus, ns).subscribers <==> home == Some(ns))
    && (home.Some? ==> c in w.mail)
  }

  lemma AtHomeStep<T>(w: World<T>, op: Op<T>, c: Chan, home: Option<nat>, home': Option<nat>)
    requires AtHome(w, c, home) && (op.DoSubscribe? ==> op.tx !in w.mail)
    requires home' == match op
                      case DoSubscribe(ns, tx) => if tx == c then Some(ns) else home
                      case DoPublish(ns, _, send) => if home == Some(ns) && !send(c) then None else home
                      case DoRemove(ns) => if home == Some(ns) then None else home
    ensures AtHome(Step(w, op), c, home')
  {
    if op.DoPublish? {
      ReachedSpec(Entry(w.bus, op.ns).subscribers, op.send);
    }
    forall ns: nat ensures c in Entry(Step(w, op).bus, ns).subscribers <==> home' == Some(ns) {
      assert c in Entry(w.bus, ns).subscribers <==> home == Some(ns);
    }
  }

  /**
   * On every run: a channel is subscribed if and only if it has taken every event published since it subscribed and
   * its namespace was not removed.
   */
  lemma {:induction false} SubscribedIffReachedOnEveryRun<T>(maxEvents: nat, ops: seq<Op<T>>, c: Chan)
    requires NewChans(maxEvents, ops)
    ensures AtHome(Run(maxEvents, ops), c, Home(ops, c))
  {
    if ops != [] {
      SubscribedIffReachedOnEveryRun(maxEvents, ops[..|ops| - 1], c);
      AtHomeStep(Run(maxEvents, ops[..|ops| - 1]), ops[|ops| - 1], c, Home(ops[..|ops| - 1], c), Home(ops, c));
    }
  }
}

/** The bus object, proved to compute the functions of EventBus. */
module EventBusImpl {
  import opened Common
  import Spec = EventBus

  /** A batch is its events, one after the other; the i-th event is sent with the i-th results. */
  function PublishAll<T>(bus: Spec.Bus<T>, ns: nat, events: seq<T>, sends: seq<Spec.Chan -> bool>): Spec.Bus<T>
    requires |events| == |sends|
    decreases |events|
  {
    if events == [] then bus
    else PublishAll(Spec.PublishOne(bus, ns, events[0], sends[0]), ns, events[1..], sends[1..])
  }

  function Publishes<T>(ns: nat, events: seq<T>, sends: seq<Spec.Chan -> bool>): seq<Spec.Op<T>>
    requires |events| == |sends|
  {
    seq(|events|, i requires 0 <= i < |events| => Spec.DoPublish(ns, events[i], sends[i]))
  }

  /** On every run: publishing a batch is the run that goes on with its events, in order. */
  lemma {:induction false} BatchIsItsEvents<T>(maxEvents: nat, ops: seq<Spec.Op<T>>, ns: nat, events: seq<T>,
                                               sends: seq<Spec.Chan -> bool>)
    requires |events| == |sends|
    ensures PublishAll(Spec.Run(maxEvents, ops).bus, ns, events, sends)
            == Spec.Run(maxEvents, ops + Publishes(ns, events, sends)).bus
    decreases |events|
  {
    if events == [] {
      assert ops + Publishes(ns, events, sends) == ops;
    } else {
      var op := Spec.DoPublish(ns, events[0], sends[0]);
      assert (ops + [op])[..|ops + [op]| - 1] == ops;
      BatchIsItsEvents(maxEvents, ops + [op], ns, events[1..], sends[1..]);
      assert Publishes(ns, events, sends) == [op] + Publishes(ns, events[1..], sends[1..]);
      Associate(ops, [op], Publishes(ns, events[1..], sends[1..]));
    }
  }

  method EvictOldest<T>(events: seq<T>, maxEvents: nat) returns (buffer: seq<T>)
    ensures buffer == Spec.LastN(events, maxEvents)
  {
    buffer := events;
    while |buffer| > maxEvents
      invariant Spec.LastN(buffer, maxEvents) == Spec.LastN(events, maxEvents)
    {
      buffer := buffer[1..];
    }
  }

  method FanOut(subscribers: seq<Spec.Chan>, send: Spec.Chan -> bool) returns (kept: seq<Spec.Chan>)
    ensures kept == Spec.Reached(subscribers, send)
  {
    kept := [];
    for i := 0 to |subscribers|
      invariant kept + Spec.Reached(subscribers[i..], send) == Spec.Reached(subscribers, send)
    {
      assert subscribers[i..][1..] == subscribers[i + 1..];
      if send(subscribers[i]) {
        kept := kept + [subscribers[i]];
      }
    }
  }

  class EventBusInner<T> {
    var namespaces: map<nat, Spec.Namespace<T>>
    var maxEventsPerNamespace: nat

    function View(): Spec.Bus<T>
      reads this
    {
      Spec.Bus(namespaces, maxEventsPerNamespace)
    }

    constructor (maxEventsPerNamespace: nat)
      ensures View() == Spec.Bus(map[], maxEventsPerNamespace)
    {
      namespaces := map[];
      this.maxEventsPerNamespace := maxEventsPerNamespace;
    }

    method Publish(ns: nat, events: seq<T>, sends: seq<Spec.Chan -> bool>)
      requires |events| == |sends|
      modifies this
      ensures View() == PublishAll(old(View()), ns, events, sends)
    {
      for i := 0 to |events|
        invariant PublishAll(View(), ns, events[i..], sends[i..]) == PublishAll(old(View()), ns, events, sends)
      {
        assert events[i..][1..] == events[i + 1..] && sends[i..][1..] == sends[i + 1..];
        PublishEvent(ns, events[i], sends[i]);
      }
    }

    method PublishEvent(ns: nat, event: T, send: Spec.Chan -> bool)
      modifies this
      ensures View() == Spec.PublishOne(old(View()), ns, event, send)
    {
      var state := Spec.Entry(View(), ns);
      var buffer := EvictOldest(state.buffer + [event], maxEventsPerNamespace);
      var kept := FanOut(state.subscribers, send);
      namespaces := namespaces[ns := Spec.Namespace(buffer, kept)];
    }

    method Subscribe(ns: nat, tx: Spec.Chan) returns (historical: seq<T>)
      modifies this
      ensures View() == Spec.Subscribe(old(View()), ns, tx)
      ensures historical == Spec.Entry(old(View()), ns).buffer == Spec.Entry(View(), ns).buffer
      ensures forall other :: other != ns ==> Spec.Entry(View(), other) == Spec.Entry(old(View()), other)
    {
      var state := Spec.Entry(View(), ns);
      historical := state.buffer;
      namespaces := namespaces[ns := state.(subscribers := state.subscribers + [tx])];
    }

    method RemoveNamespace(ns: nat)
      modifies this
      ensures View() == Spec.RemoveNamespace(old(View()), ns)
      ensures Spec.Entry(View(), ns) == Spec.Namespace([], [])
      ensures forall other :: other != ns ==> Spec.Entry(View(), other) == Spec.Entry(old(View()), other)
    {
      namespaces := namespaces - {ns};
    }
  }
}
