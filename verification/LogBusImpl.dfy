/** The log bus objects, proved to compute the functions of LogBus. */
module LogBusImpl {
  import opened Common
  import opened StableSort
  import opened Spec = LogBus
  import Laws = LogBusLaws

  class TopicState {
    var buffer: seq<Chunk>
    var bufferBytes: int
    var maxBytes: nat
    var subscribers: seq<Chan>
    var workloadName: Option<string>
    var retired: bool

    function View(): Topic
      reads this
    {
      Topic(buffer, bufferBytes, maxBytes, subscribers, workloadName, retired)
    }

    constructor (maxBytes: nat, workloadName: Option<string>)
      ensures View() == Topic([], 0, maxBytes, [], workloadName, false)
    {
      buffer, bufferBytes, subscribers, retired := [], 0, [], false;
      this.maxBytes, this.workloadName := maxBytes, workloadName;
    }

    /** The entry of a topic, taken out of the table to work on. */
    constructor From(t: Topic)
      ensures View() == t
    {
      buffer, bufferBytes, subscribers, retired := t.buffer, t.bytes, t.subscribers, t.retired;
      maxBytes, workloadName := t.maxBytes, t.workload;
    }

    /** Buffers and fans out one chunk. */
    method Publish(chunk: Chunk, send: Chan -> SendResult) returns (delivered: seq<Chan>)
      modifies this
      ensures View() == PublishTopic(old(View()), chunk, send)
      ensures delivered == Delivered(old(subscribers), send)
      ensures old(bufferBytes) == Bytes(old(buffer)) ==> bufferBytes == Bytes(buffer)
    {
      var stamped := if chunk.workload == None then chunk.(workload := workloadName) else chunk;
      bufferBytes := bufferBytes + |stamped.data|;
      buffer := buffer + [stamped];
      ghost var whole := EvictRing(Ring(buffer, bufferBytes), maxBytes);
      while bufferBytes > maxBytes
        invariant EvictRing(Ring(buffer, bufferBytes), maxBytes) == whole
        invariant maxBytes == old(maxBytes) && subscribers == old(subscribers)
        invariant workloadName == old(workloadName) && retired == old(retired)
        decreases |buffer|
      {
        if buffer == [] {
          break;
        }
        bufferBytes := bufferBytes - |buffer[0].data|;
        buffer := buffer[1..];
      }
      delivered := FanOut(send);
      if old(bufferBytes) == Bytes(old(buffer)) {
        Laws.PublishRing(old(View()), chunk, send);
      }
    }

    method FanOut(send: Chan -> SendResult) returns (delivered: seq<Chan>)
      modifies this`subscribers
      ensures subscribers == Keep(old(subscribers), send)
      ensures delivered == Delivered(old(subscribers), send)
    {
      var kept: seq<Chan> := [];
      delivered := [];
      for i := 0 to |subscribers|
        invariant kept + Keep(subscribers[i..], send) == Keep(subscribers, send)
        invariant delivered + Delivered(subscribers[i..], send) == Delivered(subscribers, send)
      {
        var tx := subscribers[i];
        assert subscribers[i..][1..] == subscribers[i + 1..];
        match send(tx) {
          case Ok =>
            kept := kept + [tx];
            delivered := delivered + [tx];
          case Full =>
            kept := kept + [tx];
          case Closed =>
        }
      }
      subscribers := kept;
    }
  }

  lemma BuffersNext(topics: map<Key, Topic>, matching: set<Key>, order: seq<Key>, key: Key)
    requires key in topics
    ensures Buffers(topics, matching, order + [key])
            == Buffers(topics, matching, order) + if key in matching then topics[key].buffer else []
  {
    assert (order + [key])[..|order|] == order;
  }

  lemma AttachNext(topics: map<Key, Topic>, done: set<Key>, key: Key, tx: Chan)
    requires key in topics && key !in done
    ensures Attach(topics, done, tx)[key] == topics[key]
    ensures Attach(topics, done + {key}, tx)
            == Attach(topics, done, tx)[key := topics[key].(subscribers := topics[key].subscribers + [tx])]
  {
  }

  lemma AttachSame(topics: map<Key, Topic>, a: set<Key>, b: set<Key>, tx: Chan)
    requires forall k :: k in topics ==> (k in a <==> k in b)
    ensures Attach(topics, a, tx) == Attach(topics, b, tx)
  {
  }

  class LogBusInner {
    var topics: map<Key, Topic>
    var maxBytesPerTopic: nat
    var workloadSubscriptions: seq<Subscription>

    function View(): Bus
      reads this
    {
      Bus(topics, maxBytesPerTopic, workloadSubscriptions)
    }

    constructor (maxBytesPerTopic: nat)
      ensures View() == Bus(map[], maxBytesPerTopic, [])
    {
      topics, workloadSubscriptions := map[], [];
      this.maxBytesPerTopic := maxBytesPerTopic;
    }

    method Publish(chunk: Chunk, workloadName: Option<string>, closed: set<Chan>, send: Chan -> SendResult,
                   expired: set<Key>)
      modifies this
      ensures View() == Spec.Publish(old(View()), chunk, workloadName, closed, send, expired)
    {
      var key := chunk.key;
      var isNewTopic := key !in topics;
      var needsSubMatching := workloadName.Some? && (isNewTopic || topics[key].workload == None);
      var matchingSubs: seq<Chan> := [];
      if needsSubMatching {
        workloadSubscriptions := Live(workloadSubscriptions, closed);
        matchingSubs := CollectMatching(key, workloadName.value);
      }
      var topic := if isNewTopic then Topic([], 0, maxBytesPerTopic, [], workloadName, false) else topics[key];
      if topic.workload == None && workloadName.Some? {
        topic := topic.(workload := workloadName);
      }
      topic := topic.(retired := false);
      topic := topic.(subscribers := topic.subscribers + matchingSubs);
      var state := new TopicState.From(topic);
      var delivered := state.Publish(chunk, send);
      topics := topics[key := state.View()];
      if |topics| > SWEEP_THRESHOLD {
        topics := map k | k in topics && !(topics[k].retired && k in expired) :: topics[k];
      }
    }

    method CollectMatching(key: Key, workloadName: string) returns (txs: seq<Chan>)
      ensures txs == Senders(workloadSubscriptions, key, workloadName)
    {
      txs := [];
      var subs := workloadSubscriptions;
      for i := 0 to |subs|
        invariant txs + Senders(subs[i..], key, workloadName) == Senders(subs, key, workloadName)
      {
        assert subs[i..][0] == subs[i] && subs[i..][1..] == subs[i + 1..];
        Associate(txs, [subs[i].tx], Senders(subs[i + 1..], key, workloadName));
        if subs[i].ns != key.ns {
          continue;
        }
        if subs[i].workload != workloadName {
          continue;
        }
        if subs[i].containers.Some? && key.container !in subs[i].containers.value {
          continue;
        }
        txs := txs + [subs[i].tx];
      }
    }

    method RetireTopic(key: Key)
      modifies this
      ensures View() == Spec.RetireTopic(old(View()), key)
      ensures topics.Keys == old(topics).Keys && workloadSubscriptions == old(workloadSubscriptions)
      ensures forall k :: k in topics ==> topics[k].(retired := false) == old(topics)[k].(retired := false)
      ensures forall k :: k in topics && k != key ==> topics[k] == old(topics)[k]
    {
      if key in topics {
        topics := topics[key := topics[key].(retired := true)];
      }
    }

    /**
     * Walks the topics in the table's iteration order; collects the buffers of those in `matching`, which
     * come back in that order, and attaches the sender to them.
     */
    method AttachMatching(matching: set<Key>, tx: Chan, order: seq<Key>) returns (historical: seq<Chunk>)
      requires Enumerates(order, topics.Keys)
      modifies this`topics
      ensures topics == Attach(old(topics), matching, tx)
      ensures historical == Buffers(old(topics), matching, order)
    {
      historical := [];
      ghost var done: set<Key> := {};
      for i := 0 to |order|
        invariant topics == Attach(old(topics), done, tx)
        invariant forall k :: k in done <==> k in matching && k in order[..i]
        invariant historical == Buffers(old(topics), matching, order[..i])
      {
        var key := order[i];
        assert order[..i + 1] == order[..i] + [key];
        assert key !in order[..i];
        BuffersNext(old(topics), matching, order[..i], key);
        if key in matching {
          assert key !in done;
          AttachNext(old(topics), done, key, tx);
          done := done + {key};
          historical := historical + topics[key].buffer;
          topics := topics[key := topics[key].(subscribers := topics[key].subscribers + [tx])];
        }
      }
      assert order[..|order|] == order;
      AttachSame(old(topics), done, matching, tx);
    }

    method Subscribe(ns: nat, pods: Option<seq<nat>>, containers: Option<seq<string>>, tx: Chan, order: seq<Key>)
      returns (historical: seq<Chunk>)
      requires Enumerates(order, topics.Keys)
      modifies this`topics
      ensures View() == Spec.Subscribe(old(View()), ns, pods, containers, tx)
      ensures historical == SortByKey(Buffers(old(topics), Selected(old(View()), ns, pods, containers), order), ByTime)
    {
      historical := AttachMatching(Selected(View(), ns, pods, containers), tx, order);
      historical := SortByKey(historical, ByTime);
    }

    method SubscribeByWorkload(sub: Subscription, order: seq<Key>) returns (historical: seq<Chunk>)
      requires Enumerates(order, topics.Keys)
      modifies this
      ensures View() == Spec.SubscribeByWorkload(old(View()), sub)
      ensures historical == SortByKey(Buffers(old(topics), Matching(old(View()), sub), order), ByTime)
    {
      historical := AttachMatching(Matching(View(), sub), sub.tx, order);
      historical := SortByKey(historical, ByTime);
      workloadSubscriptions := workloadSubscriptions + [sub];
    }

    method RemoveNamespace(ns: nat)
      modifies this
      ensures View() == Spec.RemoveNamespace(old(View()), ns)
      ensures forall k :: k in topics <==> k in old(topics) && k.ns != ns
      ensures forall k :: k in topics ==> topics[k] == old(topics)[k]
      ensures forall s :: s in workloadSubscriptions <==> s in old(workloadSubscriptions) && s.ns != ns
    {
      Laws.OtherSubsSpec(workloadSubscriptions, ns);
      topics := map k | k in topics && k.ns != ns :: topics[k];
      workloadSubscriptions := OtherSubs(workloadSubscriptions, ns);
    }
  }
}
