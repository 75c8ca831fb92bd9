/** What a subscriber to existing topics gets: the topics it asked for and no others, for as long as they exist. */
module LogBusSubscribers {
  import opened Common
  import opened StableSort
  import opened LogBus
  import opened LogBusLaws

  // ---------------------------------------------------------------------
  // The reference
  // ---------------------------------------------------------------------

  /** The topic is one that the subscriber asked for. */
  predicate AskedFor(op: Op, k: Key)
    requires op.DoSubscribe?
  {
    && k.ns == op.ns
    && (op.pods == None || k.pod in op.pods.value)
    && (op.containers == None || k.container in op.containers.value)
  }

  /** The topics asked for that existed at the subscription and have existed ever since. */
  ghost function Since(maxBytes: nat, before: seq<Op>, op: Op, after: seq<Op>): set<Key>
    requires op.DoSubscribe?
    decreases |after|
  {
    if after == [] then set k | k in Run(maxBytes, before).bus.topics && AskedFor(op, k)
    else
      Since(maxBytes, before, op, after[..|after| - 1])
      * Run(maxBytes, before + [op] + after).bus.topics.Keys
  }

  /** Each subscription makes a channel of its own. */
  predicate NotReused(ops: seq<Op>, tx: Chan)
  {
    forall i :: 0 <= i < |ops| ==>
      (ops[i].DoSubscribe? ==> ops[i].tx != tx) && (ops[i].DoSubscribeByWorkload? ==> ops[i].sub.tx != tx)
  }

  // ---------------------------------------------------------------------
  // Where the sender stands
  // ---------------------------------------------------------------------

  ghost predicate JoinedIn(tx: Chan, live: set<Key>, open: bool, k: Key, t: Topic)
  {
    var n := Count(t.subscribers, tx);
    && n <= 1
    && (n == 1 ==> k in live)
    && (open && k in live ==> n == 1)
  }

  /** The sender stands once in each live topic while it is open, in no other, and in no standing subscription. */
  ghost predicate Joined(w: World, tx: Chan, live: set<Key>)
  {
    && live <= w.bus.topics.Keys
    && (forall i :: 0 <= i < |w.bus.subs| ==> w.bus.subs[i].tx != tx)
    && (forall k :: k in w.bus.topics ==> JoinedIn(tx, live, tx !in w.closed, k, w.bus.topics[k]))
  }

  lemma {:induction false} SendersWithout(subs: seq<Subscription>, key: Key, workload: string, tx: Chan)
    requires forall i :: 0 <= i < |subs| ==> subs[i].tx != tx
    ensures Count(Senders(subs, key, workload), tx) == 0
  {
    if subs != [] {
      SendersWithout(subs[1..], key, workload, tx);
      var head := if Wants(subs[0], key, workload) then [subs[0].tx] else [];
      CountAppend(head, Senders(subs[1..], key, workload), tx);
      assert Count([subs[0].tx], tx) == 0 + Count([subs[0].tx][1..], tx);
    }
  }

  lemma PrepareJoined(w: World, tx: Chan, live: set<Key>, key: Key, workload: Option<string>, subs: seq<Subscription>)
    requires Joined(w, tx, live) && forall i :: 0 <= i < |subs| ==> subs[i].tx != tx
    ensures JoinedIn(tx, live, tx !in w.closed, key, Prepare(w.bus, key, workload, subs))
  {
    var t := Prepare(w.bus, key, workload, subs);
    var earlier := if key in w.bus.topics then w.bus.topics[key].subscribers else [];
    if Naming(w.bus, key, workload) {
      SendersWithout(subs, key, workload.value, tx);
      CountAppend(earlier, Senders(subs, key, workload.value), tx);
    } else {
      assert t.subscribers == earlier;
    }
  }

  /** The subscriptions that a publish goes by. */
  function SubsAt(bus: Bus, op: Op): seq<Subscription>
    requires op.DoPublish?
  {
    if Naming(bus, op.chunk.key, op.workload) then Live(bus.subs, op.atPrune) else bus.subs
  }

  /** The topic as a publish finds it. */
  function TopicAt(bus: Bus, op: Op): Topic
    requires op.DoPublish?
  {
    Prepare(bus, op.chunk.key, op.workload, SubsAt(bus, op))
  }

  lemma SubsAtWithout(w: World, op: Op, tx: Chan)
    requires op.DoPublish? && forall i :: 0 <= i < |w.bus.subs| ==> w.bus.subs[i].tx != tx
    ensures var subs := SubsAt(w.bus, op); forall i :: 0 <= i < |subs| ==> subs[i].tx != tx
  {
    var subs := SubsAt(w.bus, op);
    LiveSpec(w.bus.subs, op.atPrune);
    forall i | 0 <= i < |subs| ensures subs[i].tx != tx {
      assert subs[i] in subs;
    }
  }

  lemma PublishedTopicJoined(tx: Chan, live: set<Key>, open: bool, k: Key, t: Topic, op: Op, open': bool)
    requires op.DoPublish? && JoinedIn(tx, live, open, k, t)
    requires open' ==> open && !(op.send(tx).Closed? && tx in t.subscribers)
    ensures JoinedIn(tx, live, open', k, PublishTopic(t, op.chunk, op.send))
  {
    CountKeep(t.subscribers, op.send, tx);
    CountIn(t.subscribers, tx);
  }

  lemma PublishJoined(w: World, op: Op, tx: Chan, live: set<Key>)
    requires op.DoPublish? && Joined(w, tx, live)
    ensures Joined(Step(w, op), tx, live * Step(w, op).bus.topics.Keys)
  {
    var key, w' := op.chunk.key, Step(w, op);
    var live' := live * w'.bus.topics.Keys;
    SubsAtWithout(w, op, tx);
    PrepareJoined(w, tx, live, key, op.workload, SubsAt(w.bus, op));
    PublishedTopicJoined(tx, live, tx !in w.closed, key, TopicAt(w.bus, op), op, tx !in w'.closed);
    forall k | k in w'.bus.topics ensures JoinedIn(tx, live', tx !in w'.closed, k, w'.bus.topics[k]) {
      assert k != key ==> w'.bus.topics[k] == w.bus.topics[k];
    }
  }

  lemma AttachOther(t: Topic, tx: Chan, other: Chan)
    requires tx != other
    ensures Count(t.subscribers + [other], tx) == Count(t.subscribers, tx)
  {
    CountAppend(t.subscribers, [other], tx);
    assert Count([other], tx) == 0 + Count([other][1..], tx);
  }

  lemma AttachJoined(w: World, keys: set<Key>, other: Chan, tx: Chan, live: set<Key>)
    requires Joined(w, tx, live) && tx != other
    ensures var topics := Attach(w.bus.topics, keys, other);
            forall k :: k in topics ==> JoinedIn(tx, live, tx !in w.closed, k, topics[k])
  {
    var topics := Attach(w.bus.topics, keys, other);
    forall k | k in topics ensures JoinedIn(tx, live, tx !in w.closed, k, topics[k]) {
      AttachOther(w.bus.topics[k], tx, other);
    }
  }

  lemma StepJoined(w: World, op: Op, tx: Chan, live: set<Key>)
    requires Joined(w, tx, live) && NotReused([op], tx)
    ensures Joined(Step(w, op), tx, live * Step(w, op).bus.topics.Keys)
  {
    var live' := live * Step(w, op).bus.topics.Keys;
    assert [op][0] == op;
    match op
    case DoPublish(_, _, _, _, _) =>
      PublishJoined(w, op, tx, live);
    case DoSubscribe(ns, pods, containers, other) =>
      AttachJoined(w, Selected(w.bus, ns, pods, containers), other, tx, live);
      assert live' == live;
    case DoSubscribeByWorkload(sub) =>
      AttachJoined(w, Matching(w.bus, sub), sub.tx, tx, live);
      assert live' == live;
    case DoRemoveNamespace(ns) =>
      OtherSubsSpec(w.bus.subs, ns);
      var subs := OtherSubs(w.bus.subs, ns);
      forall i | 0 <= i < |subs| ensures subs[i].tx != tx {
        assert subs[i] in subs;
      }
    case DoRetire(key) =>
      assert live' == live;
    case ReceiverDropped(_) =>
      assert live' == live;
  }

  lemma SubscribeJoins(w: World, op: Op)
    requires op.DoSubscribe? && NewChan(w, op.tx)
    ensures Joined(Step(w, op), op.tx, set k | k in w.bus.topics && AskedFor(op, k))
  {
    var live := set k | k in w.bus.topics && AskedFor(op, k);
    var topics := Step(w, op).bus.topics;
    forall k | k in topics ensures JoinedIn(op.tx, live, true, k, topics[k]) {
      CountIn(w.bus.topics[k].subscribers, op.tx);
      CountAppend(w.bus.topics[k].subscribers, [op.tx], op.tx);
      assert Count([op.tx], op.tx) == 1 + Count([op.tx][1..], op.tx);
    }
  }

  lemma RunSplit(maxBytes: nat, before: seq<Op>, op: Op, after: seq<Op>)
    ensures Run(maxBytes, before + [op]) == Step(Run(maxBytes, before), op)
    ensures PlausibleRun(maxBytes, before + [op]) ==>
              PlausibleRun(maxBytes, before) && Plausible(Run(maxBytes, before), op)
    ensures after != [] ==>
              var all, init, last := before + [op] + after, before + [op] + after[..|after| - 1], after[|after| - 1];
              && Run(maxBytes, all) == Step(Run(maxBytes, init), last)
              && (PlausibleRun(maxBytes, all) ==> PlausibleRun(maxBytes, init) && Plausible(Run(maxBytes, init), last))
  {
    assert (before + [op])[..|before|] == before;
    if after != [] {
      var all := before + [op] + after;
      assert all[..|all| - 1] == before + [op] + after[..|after| - 1];
    }
  }

  lemma {:induction false} RunJoined(maxBytes: nat, before: seq<Op>, op: Op, after: seq<Op>)
    requires PlausibleRun(maxBytes, before + [op] + after) && op.DoSubscribe? && NotReused(after, op.tx)
    ensures Joined(Run(maxBytes, before + [op] + after), op.tx, Since(maxBytes, before, op, after))
    decreases |after|
  {
    RunSplit(maxBytes, before, op, after);
    if after == [] {
      assert before + [op] + after == before + [op];
      SubscribeJoins(Run(maxBytes, before), op);
    } else {
      var init, last := after[..|after| - 1], after[|after| - 1];
      RunJoined(maxBytes, before, op, init);
      StepJoined(Run(maxBytes, before + [op] + init), last, op.tx, Since(maxBytes, before, op, init));
    }
  }

  /**
   * On every run after a subscription: its sender is attached to nothing but topics that were asked for by namespace,
   * pod and container, existed then and have existed ever since; and while its receiver is open, exactly once to each
   * of these.
   */
  lemma SubscriberOnEveryRun(maxBytes: nat, before: seq<Op>, op: Op, after: seq<Op>, k: Key)
    requires PlausibleRun(maxBytes, before + [op] + after) && op.DoSubscribe? && NotReused(after, op.tx)
    requires k in Run(maxBytes, before + [op] + after).bus.topics
    ensures var w := Run(maxBytes, before + [op] + after);
            var n := Count(w.bus.topics[k].subscribers, op.tx);
            && (n > 0 ==> n == 1 && k in Since(maxBytes, before, op, after) && AskedFor(op, k))
            && (op.tx !in w.closed ==> n == if k in Since(maxBytes, before, op, after) then 1 else 0)
  {
    RunJoined(maxBytes, before, op, after);
    SinceAskedFor(maxBytes, before, op, after);
    var w := Run(maxBytes, before + [op] + after);
    assert JoinedIn(op.tx, Since(maxBytes, before, op, after), op.tx !in w.closed, k, w.bus.topics[k]);
  }

  lemma {:induction false} SinceAskedFor(maxBytes: nat, before: seq<Op>, op: Op, after: seq<Op>)
    requires op.DoSubscribe?
    ensures forall k :: k in Since(maxBytes, before, op, after) ==> AskedFor(op, k)
    decreases |after|
  {
    if after != [] {
      SinceAskedFor(maxBytes, before, op, after[..|after| - 1]);
    }
  }

  // ---------------------------------------------------------------------
  // Names
  // ---------------------------------------------------------------------

  /** The first workload name that came with a chunk since the topic was created. */
  ghost function NameOf(maxBytes: nat, ops: seq<Op>, key: Key): Option<string>
  {
    if ops == [] then None
    else
      var init, op := ops[..|ops| - 1], ops[|ops| - 1];
      var before := if key in Run(maxBytes, init).bus.topics then NameOf(maxBytes, init, key) else None;
      if op.DoPublish? && op.chunk.key == key && before == None then op.workload else before
  }

  /** The topic was retired after the last chunk published to it. */
  ghost function IsRetired(maxBytes: nat, ops: seq<Op>, key: Key): bool
  {
    if ops == [] then false
    else
      var init, op := ops[..|ops| - 1], ops[|ops| - 1];
      if op.DoPublish? && op.chunk.key == key then false
      else if op == DoRetire(key) && key in Run(maxBytes, init).bus.topics then true
      else IsRetired(maxBytes, init, key)
  }

  lemma NamesAfterStep(w: World, op: Op, key: Key)
    requires key in Step(w, op).bus.topics
    ensures var t := Step(w, op).bus.topics[key];
            var known := key in w.bus.topics;
            var published := op.DoPublish? && op.chunk.key == key;
            var name := if known then w.bus.topics[key].workload else None;
            && (published || known)
            && t.workload == (if published && name == None then op.workload else name)
            && t.retired == (!published && (op == DoRetire(key) || w.bus.topics[key].retired))
            && (published ==> TopicAt(w.bus, op).workload == t.workload)
  {
    if op.DoPublish? && op.chunk.key == key {
      assert Step(w, op).bus.topics[key] == PublishTopic(TopicAt(w.bus, op), op.chunk, op.send);
    }
  }

  /** On every run, a topic has the first name it was given, and is retired if nothing came after it was. */
  lemma {:induction false} NamesOnEveryRun(maxBytes: nat, ops: seq<Op>, key: Key)
    requires key in Run(maxBytes, ops).bus.topics
    ensures Run(maxBytes, ops).bus.topics[key].workload == NameOf(maxBytes, ops, key)
    ensures Run(maxBytes, ops).bus.topics[key].retired == IsRetired(maxBytes, ops, key)
  {
    var init := ops[..|ops| - 1];
    NamesAfterStep(Run(maxBytes, init), ops[|ops| - 1], key);
    if key in Run(maxBytes, init).bus.topics {
      NamesOnEveryRun(maxBytes, init, key);
    }
  }

  lemma NameAtPublish(maxBytes: nat, ops: seq<Op>, op: Op)
    requires op.DoPublish?
    ensures TopicAt(Run(maxBytes, ops).bus, op).workload == NameOf(maxBytes, ops + [op], op.chunk.key)
  {
    var w, key := Run(maxBytes, ops), op.chunk.key;
    assert (ops + [op])[..|ops|] == ops;
    if key in w.bus.topics {
      NamesOnEveryRun(maxBytes, ops, key);
    }
  }

  // ---------------------------------------------------------------------
  // What it receives
  // ---------------------------------------------------------------------

  /** The chunks that an operation sends to `tx`, as stamped. */
  function SentBy(bus: Bus, op: Op, tx: Chan): seq<Chunk>
  {
    if !op.DoPublish? then []
    else
      var t := TopicAt(bus, op);
      seq(Count(Delivered(t.subscribers, op.send), tx), _ => Stamp(op.chunk, t.workload))
  }

  /** The chunks sent to the subscriber since it subscribed, in order. */
  ghost function Got(maxBytes: nat, before: seq<Op>, op: Op, after: seq<Op>): seq<Chunk>
    requires op.DoSubscribe?
    decreases |after|
  {
    if after == [] then []
    else
      var init := after[..|after| - 1];
      Got(maxBytes, before, op, init) + SentBy(Run(maxBytes, before + [op] + init).bus, after[|after| - 1], op.tx)
  }

  /** A chunk keeps the name it comes with, and otherwise gets that of its topic. */
  function Labelled(c: Chunk, name: Option<string>): Chunk
  {
    Chunk(c.key, if c.workload.Some? then c.workload else name, c.data, c.seqNo, c.timestamp)
  }

  /** What an operation after `ops` owes to `tx`, given the topics it is to hear of. */
  ghost function DueBy(maxBytes: nat, ops: seq<Op>, op: Op, tx: Chan, live: set<Key>): seq<Chunk>
  {
    if op.DoPublish? && op.send(tx).Ok? && op.chunk.key in live
    then [Labelled(op.chunk, NameOf(maxBytes, ops + [op], op.chunk.key))] else []
  }

  /** The chunks it should get: those published, when it has room, to topics it asked for that it found. */
  ghost function Due(maxBytes: nat, before: seq<Op>, op: Op, after: seq<Op>): seq<Chunk>
    requires op.DoSubscribe?
    decreases |after|
  {
    if after == [] then []
    else
      var init, last := after[..|after| - 1], after[|after| - 1];
      Due(maxBytes, before, op, init)
      + DueBy(maxBytes, before + [op] + init, last, op.tx, Since(maxBytes, before, op, init))
  }

  lemma SentWhenJoined(w: World, op: Op, tx: Chan, live: set<Key>)
    requires op.DoPublish? && Joined(w, tx, live)
    ensures var n := Count(Delivered(TopicAt(w.bus, op).subscribers, op.send), tx);
            && (n > 0 ==> n == 1 && op.chunk.key in live && op.send(tx).Ok?)
            && (tx !in w.closed && op.chunk.key in live && op.send(tx).Ok? ==> n == 1)
  {
    SubsAtWithout(w, op, tx);
    PrepareJoined(w, tx, live, op.chunk.key, op.workload, SubsAt(w.bus, op));
    CountKeep(TopicAt(w.bus, op).subscribers, op.send, tx);
  }

  lemma SentIsDue(maxBytes: nat, ops: seq<Op>, op: Op, tx: Chan, live: set<Key>)
    requires Joined(Run(maxBytes, ops), tx, live)
    ensures var sent, due := SentBy(Run(maxBytes, ops).bus, op, tx), DueBy(maxBytes, ops, op, tx, live);
            (sent == due || sent == []) && (tx !in Run(maxBytes, ops).closed ==> sent == due)
  {
    if op.DoPublish? {
      SentWhenJoined(Run(maxBytes, ops), op, tx, live);
      NameAtPublish(maxBytes, ops, op);
    }
  }

  lemma {:induction false} ClosedGrows(maxBytes: nat, before: seq<Op>, op: Op, after: seq<Op>, tx: Chan)
    requires after != []
    ensures tx in Run(maxBytes, before + [op] + after[..|after| - 1]).closed
            ==> tx in Run(maxBytes, before + [op] + after).closed
  {
    RunSplit(maxBytes, before, op, after);
  }

  /**
   * On every run after a subscription, as long as its receiver is open: it has been sent every chunk that was
   * published, when it had room, to a topic it asked for that existed all along, in order, once, and nothing else.
   */
  lemma {:induction false} SubscriberGetsWhatIsDue(maxBytes: nat, before: seq<Op>, op: Op, after: seq<Op>)
    requires PlausibleRun(maxBytes, before + [op] + after) && op.DoSubscribe? && NotReused(after, op.tx)
    requires op.tx !in Run(maxBytes, before + [op] + after).closed
    ensures Got(maxBytes, before, op, after) == Due(maxBytes, before, op, after)
    decreases |after|
  {
    if after != [] {
      var init := after[..|after| - 1];
      RunSplit(maxBytes, before, op, after);
      ClosedGrows(maxBytes, before, op, after, op.tx);
      RunJoined(maxBytes, before, op, init);
      SubscriberGetsWhatIsDue(maxBytes, before, op, init);
      SentIsDue(maxBytes, before + [op] + init, after[|after| - 1], op.tx, Since(maxBytes, before, op, init));
    }
  }

  /** On every run, open or not: every chunk sent to the subscriber belongs to a topic it asked for. */
  lemma {:induction false} SubscriberGetsNothingElse(maxBytes: nat, before: seq<Op>, op: Op, after: seq<Op>, c: Chunk)
    requires PlausibleRun(maxBytes, before + [op] + after) && op.DoSubscribe? && NotReused(after, op.tx)
    requires c in Got(maxBytes, before, op, after)
    ensures AskedFor(op, c.key)
    decreases |after|
  {
    var init, last := after[..|after| - 1], after[|after| - 1];
    RunSplit(maxBytes, before, op, after);
    if c in Got(maxBytes, before, op, init) {
      SubscriberGetsNothingElse(maxBytes, before, op, init, c);
    } else {
      RunJoined(maxBytes, before, op, init);
      SinceAskedFor(maxBytes, before, op, init);
      SentIsDue(maxBytes, before + [op] + init, last, op.tx, Since(maxBytes, before, op, init));
      assert c in SentBy(Run(maxBytes, before + [op] + init).bus, last, op.tx);
    }
  }

  // ---------------------------------------------------------------------
  // The history it starts with
  // ---------------------------------------------------------------------

  lemma {:induction false} HistoryKeys(maxBytes: nat, ops: seq<Op>, key: Key)
    ensures forall i :: 0 <= i < |History(maxBytes, ops, key)| ==> History(maxBytes, ops, key)[i].key == key
  {
    if ops != [] {
      HistoryKeys(maxBytes, ops[..|ops| - 1], key);
    }
  }

  /** On every run, a topic's buffer holds chunks of that topic only. */
  lemma BufferKeys(maxBytes: nat, ops: seq<Op>, key: Key)
    requires key in Run(maxBytes, ops).bus.topics
    ensures forall c :: c in Run(maxBytes, ops).bus.topics[key].buffer ==> c.key == key
  {
    var h := History(maxBytes, ops, key);
    BufferIsLongestSuffixOnEveryRun(maxBytes, ops, key);
    EvictIsLongestSuffix(h, maxBytes, 0);
    HistoryKeys(maxBytes, ops, key);
  }

  ghost predicate KeysMatch(topics: map<Key, Topic>)
  {
    forall k, c :: k in topics && c in topics[k].buffer ==> c.key == k
  }

  lemma {:induction false} BuffersExactly(topics: map<Key, Topic>, keys: set<Key>, order: seq<Key>, c: Chunk)
    requires KeysMatch(topics) && NoDuplicates(order)
    ensures multiset(Buffers(topics, keys, order))[c]
            == if c.key in order && c.key in keys && c.key in topics then multiset(topics[c.key].buffer)[c] else 0
  {
    if order != [] {
      var init, key := order[..|order| - 1], order[|order| - 1];
      BuffersExactly(topics, keys, init, c);
      assert order == init + [key] && key !in init;
      if key in topics && c.key != key {
        assert c !in topics[key].buffer;
      }
    }
  }

  /** The chunks that a new subscriber to `keys` gets at once. */
  function Historical(bus: Bus, keys: set<Key>, order: seq<Key>): seq<Chunk>
  {
    SortByKey(Buffers(bus.topics, keys, order), ByTime)
  }

  ghost predicate InTimeOrder(chunks: seq<Chunk>)
  {
    forall i, j :: 0 <= i < j < |chunks| ==> chunks[i].timestamp <= chunks[j].timestamp
  }

  /**
   * On every run, whatever the iteration order: a new subscriber gets at once, ordered by time, every chunk that is
   * buffered in a topic it asked for, as often as it is there, and nothing else.
   */
  lemma HistoryIsWhatWasAskedFor(maxBytes: nat, ops: seq<Op>, op: Op, order: seq<Key>, c: Chunk)
    requires op.DoSubscribe? && Enumerates(order, Run(maxBytes, ops).bus.topics.Keys)
    ensures var bus := Run(maxBytes, ops).bus;
            var got := Historical(bus, Selected(bus, op.ns, op.pods, op.containers), order);
            && InTimeOrder(got)
            && multiset(got)[c]
               == if c.key in bus.topics && AskedFor(op, c.key) then multiset(bus.topics[c.key].buffer)[c] else 0
  {
    var bus := Run(maxBytes, ops).bus;
    HistoryExactly(maxBytes, ops, Selected(bus, op.ns, op.pods, op.containers), order, c);
  }

  lemma HistoryExactly(maxBytes: nat, ops: seq<Op>, keys: set<Key>, order: seq<Key>, c: Chunk)
    requires Enumerates(order, Run(maxBytes, ops).bus.topics.Keys)
    ensures var bus := Run(maxBytes, ops).bus;
            var got := Historical(bus, keys, order);
            && InTimeOrder(got)
            && multiset(got)[c]
               == if c.key in bus.topics && c.key in keys then multiset(bus.topics[c.key].buffer)[c] else 0
  {
    var bus := Run(maxBytes, ops).bus;
    var chunks := Buffers(bus.topics, keys, order);
    forall k, b | k in bus.topics && b in bus.topics[k].buffer ensures b.key == k {
      BufferKeys(maxBytes, ops, k);
    }
    BuffersExactly(bus.topics, keys, order, c);
    SortSpec(chunks, ByTime, 0);
    SortKeepsAll(chunks, ByTime);
  }

  /** The same for a new standing subscription, by namespace, workload name and container. */
  lemma StandingHistoryIsWhatMatches(maxBytes: nat, ops: seq<Op>, sub: Subscription, order: seq<Key>, c: Chunk)
    requires Enumerates(order, Run(maxBytes, ops).bus.topics.Keys)
    ensures var bus := Run(maxBytes, ops).bus;
            var got := Historical(bus, Matching(bus, sub), order);
            var k := c.key;
            && InTimeOrder(got)
            && multiset(got)[c]
               == if && k in bus.topics && k.ns == sub.ns && bus.topics[k].workload == Some(sub.workload)
                     && (sub.containers == None || k.container in sub.containers.value)
                  then multiset(bus.topics[k].buffer)[c] else 0
  {
    var bus := Run(maxBytes, ops).bus;
    HistoryExactly(maxBytes, ops, Matching(bus, sub), order, c);
  }

  // ---------------------------------------------------------------------
  // Which topics there are
  // ---------------------------------------------------------------------

  /**
   * A publish creates its topic if need be; a topic goes when its namespace is removed, or when a publish that makes
   * more than 64 topics finds it retired and expired; every other topic stays.
   */
  lemma TopicsAfterStep(maxBytes: nat, ops: seq<Op>, op: Op, key: Key)
    ensures var before := Run(maxBytes, ops).bus.topics;
            var crowded := op.DoPublish? && |before.Keys + {op.chunk.key}| > 64;
            key in Step(Run(maxBytes, ops), op).bus.topics
            <==> || (op.DoPublish? && op.chunk.key == key)
                 || (key in before && !(op.DoRemoveNamespace? && op.ns == key.ns)
                     && !(crowded && IsRetired(maxBytes, ops, key) && key in op.expired))
  {
    var bus := Run(maxBytes, ops).bus;
    if key in bus.topics {
      NamesOnEveryRun(maxBytes, ops, key);
    }
    if op.DoPublish? {
      var topics := bus.topics[op.chunk.key := PublishTopic(TopicAt(bus, op), op.chunk, op.send)];
      assert topics.Keys == bus.topics.Keys + {op.chunk.key} && |topics| == |topics.Keys|;
    }
  }
}
