/** Laws of the log bus: standing subscriptions, delivery, and what the ring buffers hold. */
module LogBusLaws {
  import opened Common
  import opened LogBus

  // ---------------------------------------------------------------------
  // Counting a sender in a list
  // ---------------------------------------------------------------------

  function Count(cs: seq<Chan>, c: Chan): nat
  {
    if cs == [] then 0 else (if cs[0] == c then 1 else 0) + Count(cs[1..], c)
  }

  lemma {:induction false} CountAppend(a: seq<Chan>, b: seq<Chan>, c: Chan)
    ensures Count(a + b, c) == Count(a, c) + Count(b, c)
  {
    if a == [] {
      assert a + b == b;
    } else {
      assert (a + b)[1..] == a[1..] + b;
      CountAppend(a[1..], b, c);
    }
  }

  lemma {:induction false} CountIn(cs: seq<Chan>, c: Chan)
    ensures Count(cs, c) > 0 <==> c in cs
  {
    if cs != [] {
      CountIn(cs[1..], c);
      assert cs == [cs[0]] + cs[1..];
    }
  }

  lemma {:induction false} CountKeep(cs: seq<Chan>, send: Chan -> SendResult, c: Chan)
    ensures Count(Keep(cs, send), c) == if send(c).Closed? then 0 else Count(cs, c)
    ensures Count(Delivered(cs, send), c) == if send(c).Ok? then Count(cs, c) else 0
  {
    if cs != [] {
      CountKeep(cs[1..], send, c);
      CountAppend(if send(cs[0]).Closed? then [] else [cs[0]], Keep(cs[1..], send), c);
      CountAppend(if send(cs[0]).Ok? then [cs[0]] else [], Delivered(cs[1..], send), c);
      assert Count([cs[0]], c) == (if cs[0] == c then 1 else 0) + Count([cs[0]][1..], c);
    }
  }

  // ---------------------------------------------------------------------
  // Subscription lists
  // ---------------------------------------------------------------------

  ghost predicate UniqueChans(subs: seq<Subscription>)
  {
    forall i, j :: 0 <= i < j < |subs| ==> subs[i].tx != subs[j].tx
  }

  lemma {:induction false} LiveSpec(subs: seq<Subscription>, closed: set<Chan>)
    ensures forall s :: s in Live(subs, closed) <==> s in subs && s.tx !in closed
    ensures UniqueChans(subs) ==> UniqueChans(Live(subs, closed))
  {
    if subs != [] {
      LiveSpec(subs[1..], closed);
      assert subs == [subs[0]] + subs[1..];
      var tail := Live(subs[1..], closed);
      assert forall i :: 0 <= i < |tail| ==> tail[i] in subs[1..];
    }
  }

  lemma {:induction false} OtherSubsSpec(subs: seq<Subscription>, ns: nat)
    ensures forall s :: s in OtherSubs(subs, ns) <==> s in subs && s.ns != ns
    ensures UniqueChans(subs) ==> UniqueChans(OtherSubs(subs, ns))
  {
    if subs != [] {
      OtherSubsSpec(subs[1..], ns);
      assert subs == [subs[0]] + subs[1..];
      var tail := OtherSubs(subs[1..], ns);
      assert forall i :: 0 <= i < |tail| ==> tail[i] in subs[1..];
    }
  }

  /** A listed subscription contributes its sender exactly once, and only when it wants the topic. */
  lemma {:induction false} SendersCount(subs: seq<Subscription>, key: Key, workload: string, s: Subscription)
    requires UniqueChans(subs)
    requires forall i :: 0 <= i < |subs| && subs[i].tx == s.tx ==> subs[i] == s
    ensures Count(Senders(subs, key, workload), s.tx) == if s in subs && Wants(s, key, workload) then 1 else 0
  {
    if subs != [] {
      assert subs == [subs[0]] + subs[1..];
      SendersCount(subs[1..], key, workload, s);
      var head := if Wants(subs[0], key, workload) then [subs[0].tx] else [];
      CountAppend(head, Senders(subs[1..], key, workload), s.tx);
      assert Count([subs[0].tx], s.tx) == (if subs[0].tx == s.tx then 1 else 0) + Count([subs[0].tx][1..], s.tx);
      if subs[0] == s {
        assert s !in subs[1..];
      }
    }
  }

  // ---------------------------------------------------------------------
  // Standing subscriptions
  // ---------------------------------------------------------------------

  /** Where the subscription's sender stands in one topic. */
  ghost predicate PlacedIn(s: Subscription, open: bool, k: Key, t: Topic)
  {
    var n := Count(t.subscribers, s.tx);
    && n <= 1
    && (n == 1 ==> Matches(s, k, t.workload))
    && (open && Matches(s, k, t.workload) ==> n == 1)
  }

  /** While its receiver is open the subscription is listed, and attached to exactly the topics it matches. */
  ghost predicate Placed(w: World, s: Subscription)
  {
    && (s.tx !in w.closed ==> s in w.bus.subs)
    && (forall i :: 0 <= i < |w.bus.subs| && w.bus.subs[i].tx == s.tx ==> w.bus.subs[i] == s)
    && (forall k :: k in w.bus.topics ==> PlacedIn(s, s.tx !in w.closed, k, w.bus.topics[k]))
  }

  lemma PreparePlaced(w: World, s: Subscription, key: Key, workload: Option<string>,
                      subs: seq<Subscription>, open: bool)
    requires Placed(w, s) && UniqueChans(subs) && (open ==> s.tx !in w.closed)
    requires forall i :: 0 <= i < |subs| ==> subs[i] in w.bus.subs
    requires open ==> s in subs
    ensures PlacedIn(s, open, key, Prepare(w.bus, key, workload, subs))
  {
    var t := Prepare(w.bus, key, workload, subs);
    if Naming(w.bus, key, workload) {
      var earlier := if key in w.bus.topics then w.bus.topics[key].subscribers else [];
      SendersCount(subs, key, workload.value, s);
      CountAppend(earlier, Senders(subs, key, workload.value), s.tx);
    } else if key in w.bus.topics {
      assert t.subscribers == w.bus.topics[key].subscribers;
    }
  }

  lemma PublishTopicPlaced(s: Subscription, open: bool, k: Key, t: Topic, chunk: Chunk, send: Chan -> SendResult)
    requires PlacedIn(s, open, k, t)
    ensures PlacedIn(s, open && !send(s.tx).Closed?, k, PublishTopic(t, chunk, send))
  {
    CountKeep(t.subscribers, send, s.tx);
  }

  lemma PublishPlaced(w: World, op: Op, s: Subscription)
    requires op.DoPublish? && Placed(w, s) && UniqueChans(w.bus.subs)
    ensures Placed(Step(w, op), s)
  {
    var key := op.chunk.key;
    var subs := if Naming(w.bus, key, op.workload) then Live(w.bus.subs, op.atPrune) else w.bus.subs;
    var t := Prepare(w.bus, key, op.workload, subs);
    var w' := Step(w, op);
    var open := s.tx !in w.closed + op.atPrune;
    LiveSpec(w.bus.subs, op.atPrune);
    PreparePlaced(w, s, key, op.workload, subs, open);
    PublishTopicPlaced(s, open, key, t, op.chunk, op.send);
    CountIn(t.subscribers, s.tx);
    PlacedStep(s, open, key, t, PublishTopic(t, op.chunk, op.send), op.send, s.tx !in w'.closed);
    forall k | k in w'.bus.topics ensures PlacedIn(s, s.tx !in w'.closed, k, w'.bus.topics[k]) {
      assert k != key ==> w'.bus.topics[k] == w.bus.topics[k];
    }
  }

  /** A sender that is attached and reported closed joins the closed channels. */
  lemma PlacedStep(s: Subscription, open: bool, k: Key, t: Topic, t': Topic, send: Chan -> SendResult, open': bool)
    requires PlacedIn(s, open, k, t) && PlacedIn(s, open && !send(s.tx).Closed?, k, t') && t'.workload == t.workload
    requires open' ==> open && !(send(s.tx).Closed? && Count(t.subscribers, s.tx) > 0)
    ensures PlacedIn(s, open', k, t')
  {
  }

  lemma AttachPlaced(w: World, keys: set<Key>, tx: Chan, s: Subscription)
    requires Placed(w, s) && s.tx != tx
    ensures forall k :: k in w.bus.topics ==>
              PlacedIn(s, s.tx !in w.closed, k, Attach(w.bus.topics, keys, tx)[k])
  {
    forall k | k in w.bus.topics ensures PlacedIn(s, s.tx !in w.closed, k, Attach(w.bus.topics, keys, tx)[k]) {
      CountAppend(w.bus.topics[k].subscribers, [tx], s.tx);
      assert Count([tx], s.tx) == 0 + Count([tx][1..], s.tx);
    }
  }

  lemma NewSubscriptionPlaced(w: World, s: Subscription)
    requires NewChan(w, s.tx)
    ensures Placed(w.(bus := SubscribeByWorkload(w.bus, s)), s)
  {
    var topics := Attach(w.bus.topics, Matching(w.bus, s), s.tx);
    forall k | k in topics ensures PlacedIn(s, true, k, topics[k]) {
      CountIn(w.bus.topics[k].subscribers, s.tx);
      CountAppend(w.bus.topics[k].subscribers, [s.tx], s.tx);
      assert Count([s.tx], s.tx) == 1 + Count([s.tx][1..], s.tx);
    }
  }

  lemma StepPlaced(w: World, op: Op, s: Subscription)
    requires Placed(w, s) && UniqueChans(w.bus.subs) && Plausible(w, op)
    requires !(op.DoRemoveNamespace? && op.ns == s.ns)
    ensures Placed(Step(w, op), s)
  {
    match op
    case DoPublish(_, _, _, _, _) =>
      PublishPlaced(w, op, s);
    case DoSubscribe(ns, pods, containers, tx) =>
      AttachPlaced(w, Selected(w.bus, ns, pods, containers), tx, s);
    case DoSubscribeByWorkload(sub) =>
      AttachPlaced(w, Matching(w.bus, sub), sub.tx, s);
    case DoRemoveNamespace(ns) =>
      OtherSubsSpec(w.bus.subs, ns);
    case _ =>
  }

  lemma StepUniqueChans(w: World, op: Op)
    requires UniqueChans(w.bus.subs) && Plausible(w, op)
    ensures UniqueChans(Step(w, op).bus.subs)
  {
    match op
    case DoPublish(_, _, atPrune, _, _) => LiveSpec(w.bus.subs, atPrune);
    case DoRemoveNamespace(ns) => OtherSubsSpec(w.bus.subs, ns);
    case _ =>
  }

  /** The subscriptions made and not removed with their namespace. */
  ghost function Standing(ops: seq<Op>): set<Subscription>
  {
    if ops == [] then {}
    else
      var before := Standing(ops[..|ops| - 1]);
      match ops[|ops| - 1]
      case DoSubscribeByWorkload(sub) => before + {sub}
      case DoRemoveNamespace(ns) => set s | s in before && s.ns != ns
      case _ => before
  }

  lemma {:induction false} RunPlaced(maxBytes: nat, ops: seq<Op>)
    requires PlausibleRun(maxBytes, ops)
    ensures UniqueChans(Run(maxBytes, ops).bus.subs)
    ensures forall s :: s in Standing(ops) ==> Placed(Run(maxBytes, ops), s)
  {
    if ops != [] {
      var init, op := ops[..|ops| - 1], ops[|ops| - 1];
      var w := Run(maxBytes, init);
      RunPlaced(maxBytes, init);
      StepUniqueChans(w, op);
      forall s | s in Standing(ops) ensures Placed(Run(maxBytes, ops), s) {
        if s in Standing(init) {
          StepPlaced(w, op, s);
        } else {
          NewSubscriptionPlaced(w, s);
        }
      }
    }
  }

  /**
   * On every run: a standing subscription whose receiver is open is attached exactly once to every topic
   * matching its namespace, workload and container filter, and to no other topic.
   */
  lemma StandingSubscriptionsOnEveryRun(maxBytes: nat, ops: seq<Op>, s: Subscription)
    requires PlausibleRun(maxBytes, ops) && s in Standing(ops) && s.tx !in Run(maxBytes, ops).closed
    ensures var topics := Run(maxBytes, ops).bus.topics;
            forall k :: k in topics ==>
              Count(topics[k].subscribers, s.tx) == if Matches(s, k, topics[k].workload) then 1 else 0
  {
    RunPlaced(maxBytes, ops);
    assert Placed(Run(maxBytes, ops), s);
  }

  /** On every run, the listed subscriptions are standing ones: a removed namespace takes its own with it. */
  lemma {:induction false} ListedAreStanding(maxBytes: nat, ops: seq<Op>)
    ensures forall s :: s in Run(maxBytes, ops).bus.subs ==> s in Standing(ops)
  {
    if ops != [] {
      var init, op := ops[..|ops| - 1], ops[|ops| - 1];
      ListedAreStanding(maxBytes, init);
      match op
      case DoPublish(_, _, atPrune, _, _) => LiveSpec(Run(maxBytes, init).bus.subs, atPrune);
      case DoRemoveNamespace(ns) => OtherSubsSpec(Run(maxBytes, init).bus.subs, ns);
      case _ =>
    }
  }

  /** Removing a namespace ends its standing subscriptions: they are listed and attached nowhere. */
  lemma RemovedSubscriptionIsGone(maxBytes: nat, ops: seq<Op>, s: Subscription)
    requires PlausibleRun(maxBytes, ops) && s in Standing(ops)
    ensures var bus := Step(Run(maxBytes, ops), DoRemoveNamespace(s.ns)).bus;
            && s !in bus.subs
            && forall k :: k in bus.topics ==> Count(bus.topics[k].subscribers, s.tx) == 0
  {
    var w := Run(maxBytes, ops);
    RunPlaced(maxBytes, ops);
    OtherSubsSpec(w.bus.subs, s.ns);
    forall k | k in w.bus.topics && k.ns != s.ns ensures Count(w.bus.topics[k].subscribers, s.tx) == 0 {
      assert PlacedIn(s, s.tx !in w.closed, k, w.bus.topics[k]);
    }
  }

  /**
   * On every run: a chunk published to a topic is delivered exactly once to a standing subscription that
   * matches the topic (by the name it has then) and has room, and not at all to one that does not match.
   */
  lemma ChunkDeliveredOnce(maxBytes: nat, ops: seq<Op>, op: Op, s: Subscription)
    requires PlausibleRun(maxBytes, ops) && op.DoPublish? && s in Standing(ops)
    requires s.tx !in Run(maxBytes, ops).closed + op.atPrune
    ensures var bus, key := Run(maxBytes, ops).bus, op.chunk.key;
            var subs := if Naming(bus, key, op.workload) then Live(bus.subs, op.atPrune) else bus.subs;
            var t := Prepare(bus, key, op.workload, subs);
            Count(Delivered(t.subscribers, op.send), s.tx)
            == if Matches(s, key, t.workload) && op.send(s.tx).Ok? then 1 else 0
  {
    var w := Run(maxBytes, ops);
    var key := op.chunk.key;
    var subs := if Naming(w.bus, key, op.workload) then Live(w.bus.subs, op.atPrune) else w.bus.subs;
    RunPlaced(maxBytes, ops);
    LiveSpec(w.bus.subs, op.atPrune);
    PreparePlaced(w, s, key, op.workload, subs, true);
    CountKeep(Prepare(w.bus, key, op.workload, subs).subscribers, op.send, s.tx);
  }

  // ---------------------------------------------------------------------
  // Ring buffers
  // ---------------------------------------------------------------------

  lemma {:induction false} BytesAppend(a: seq<Chunk>, b: seq<Chunk>)
    ensures Bytes(a + b) == Bytes(a) + Bytes(b)
  {
    if a == [] {
      assert a + b == b;
    } else {
      assert (a + b)[1..] == a[1..] + b;
      BytesAppend(a[1..], b);
    }
  }

  /** Evicting as chunks arrive is the same as evicting once at the end. */
  lemma {:induction false} EvictAppend(h: seq<Chunk>, c: Chunk, maxBytes: nat)
    ensures Evict(Evict(h, maxBytes) + [c], maxBytes) == Evict(h + [c], maxBytes)
  {
    if Bytes(h) > maxBytes {
      BytesAppend(h, [c]);
      assert (h + [c])[1..] == h[1..] + [c];
      EvictAppend(h[1..], c, maxBytes);
    }
  }

  /** What eviction leaves is the longest suffix that fits. */
  lemma {:induction false} EvictIsLongestSuffix(h: seq<Chunk>, maxBytes: nat, j: nat)
    requires j <= |h|
    ensures |Evict(h, maxBytes)| <= |h| && Evict(h, maxBytes) == h[|h| - |Evict(h, maxBytes)|..]
    ensures Bytes(h[j..]) <= maxBytes <==> j >= |h| - |Evict(h, maxBytes)|
  {
    if Bytes(h) <= maxBytes {
      assert h[..j] + h[j..] == h;
      BytesAppend(h[..j], h[j..]);
    } else if j == 0 {
      EvictIsLongestSuffix(h[1..], maxBytes, 0);
    } else {
      assert h[1..][j - 1..] == h[j..];
      EvictIsLongestSuffix(h[1..], maxBytes, j - 1);
    }
  }

  /** The loop's counter is exact if it starts exact; so it never goes below zero. */
  lemma {:induction false} EvictRingExact(r: Ring, maxBytes: nat)
    requires r.bytes == Bytes(r.buffer)
    ensures EvictRing(r, maxBytes) == Ring(Evict(r.buffer, maxBytes), Bytes(Evict(r.buffer, maxBytes)))
    decreases |r.buffer|
  {
    if r.bytes > maxBytes && r.buffer != [] {
      EvictRingExact(Ring(r.buffer[1..], r.bytes - |r.buffer[0].data|), maxBytes);
    }
  }

  lemma PublishRing(t: Topic, chunk: Chunk, send: Chan -> SendResult)
    requires t.bytes == Bytes(t.buffer)
    ensures var t' := PublishTopic(t, chunk, send);
            && t'.buffer == Evict(t.buffer + [Stamp(chunk, t.workload)], t.maxBytes)
            && t'.bytes == Bytes(t'.buffer)
  {
    var stamped := Stamp(chunk, t.workload);
    BytesAppend(t.buffer, [stamped]);
    assert Bytes([stamped]) == |stamped.data| + Bytes([]);
    EvictRingExact(Ring(t.buffer + [stamped], t.bytes + |stamped.data|), t.maxBytes);
  }

  /** Everything published to the topic since it was last created, as stamped. */
  ghost function History(maxBytes: nat, ops: seq<Op>, key: Key): seq<Chunk>
  {
    if ops == [] then []
    else
      var init, op := ops[..|ops| - 1], ops[|ops| - 1];
      var bus := Run(maxBytes, init).bus;
      if op.DoPublish? && op.chunk.key == key then
        (if key in bus.topics then History(maxBytes, init, key) else [])
        + [Stamp(op.chunk, Prepare(bus, key, op.workload, []).workload)]
      else History(maxBytes, init, key)
  }

  lemma BufferAfterPublish(bus: Bus, op: Op, key: Key, h: seq<Chunk>)
    requires op.DoPublish? && op.chunk.key == key
    requires key in bus.topics ==>
               bus.topics[key].buffer == Evict(h, bus.maxBytes) && bus.topics[key].maxBytes == bus.maxBytes
    requires key in bus.topics ==> bus.topics[key].bytes == Bytes(bus.topics[key].buffer)
    requires key !in bus.topics ==> h == []
    ensures var t := Publish(bus, op.chunk, op.workload, op.atPrune, op.send, op.expired).topics;
            key in t && t[key].maxBytes == bus.maxBytes && t[key].bytes == Bytes(t[key].buffer)
            && t[key].buffer == Evict(h + [Stamp(op.chunk, Prepare(bus, key, op.workload, []).workload)], bus.maxBytes)
  {
    var subs := if Naming(bus, key, op.workload) then Live(bus.subs, op.atPrune) else bus.subs;
    EvictAppend(h, Stamp(op.chunk, Prepare(bus, key, op.workload, []).workload), bus.maxBytes);
    PublishRing(Prepare(bus, key, op.workload, subs), op.chunk, op.send);
  }

  /**
   * On every run: a topic's buffer is the longest suffix of its whole publish history that fits the byte
   * cap, and its byte counter is the true size of that suffix.
   */
  lemma {:induction false} BufferIsLongestSuffixOnEveryRun(maxBytes: nat, ops: seq<Op>, key: Key)
    requires key in Run(maxBytes, ops).bus.topics
    ensures var t := Run(maxBytes, ops).bus.topics[key];
            && t.maxBytes == maxBytes && Run(maxBytes, ops).bus.maxBytes == maxBytes
            && t.bytes == Bytes(t.buffer)
            && t.buffer == Evict(History(maxBytes, ops, key), maxBytes)
  {
    var init, op := ops[..|ops| - 1], ops[|ops| - 1];
    var bus := Run(maxBytes, init).bus;
    CapFixed(maxBytes, init);
    if key in bus.topics {
      BufferIsLongestSuffixOnEveryRun(maxBytes, init, key);
    }
    if op.DoPublish? && op.chunk.key == key {
      BufferAfterPublish(bus, op, key, if key in bus.topics then History(maxBytes, init, key) else []);
    } else {
      BufferUntouched(Run(maxBytes, init), op, key);
    }
  }

  lemma BufferUntouched(w: World, op: Op, key: Key)
    requires key in Step(w, op).bus.topics && !(op.DoPublish? && op.chunk.key == key)
    ensures key in w.bus.topics
    ensures var t, t' := w.bus.topics[key], Step(w, op).bus.topics[key];
            t'.buffer == t.buffer && t'.bytes == t.bytes && t'.maxBytes == t.maxBytes
  {
  }

  lemma {:induction false} CapFixed(maxBytes: nat, ops: seq<Op>)
    ensures Run(maxBytes, ops).bus.maxBytes == maxBytes
  {
    if ops != [] {
      CapFixed(maxBytes, ops[..|ops| - 1]);
    }
  }
}
