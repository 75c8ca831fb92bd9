/**
 * The log bus, as a function on values: one ring buffer per topic, live fan-out, and standing workload
 * subscriptions that must find their topics whenever these appear. Channels are opaque names; what a send
 * or a closed-check reports is given by the environment.
 */
module LogBus {
  import opened Common

  type Chan = nat

  datatype Key = Key(ns: nat, pod: nat, container: string)

  datatype Chunk = Chunk(key: Key, workload: Option<string>, data: seq<Byte>, seqNo: nat, timestamp: nat)

  datatype SendResult = Ok | Full | Closed

  datatype Topic = Topic(
    buffer: seq<Chunk>,
    bytes: int,
    maxBytes: nat,
    subscribers: seq<Chan>,
    workload: Option<string>,
    retired: bool)

  datatype Subscription = Subscription(ns: nat, workload: string, containers: Option<seq<string>>, tx: Chan)

  datatype Bus = Bus(topics: map<Key, Topic>, maxBytes: nat, subs: seq<Subscription>)

  const SWEEP_THRESHOLD := 64

  // ---------------------------------------------------------------------
  // One topic
  // ---------------------------------------------------------------------

  function Bytes(chunks: seq<Chunk>): nat
  {
    if chunks == [] then 0 else |chunks[0].data| + Bytes(chunks[1..])
  }

  /** Drops chunks from the front until the rest fits. */
  function Evict(chunks: seq<Chunk>, maxBytes: nat): seq<Chunk>
  {
    if Bytes(chunks) <= maxBytes then chunks
    else if chunks == [] then []
    else Evict(chunks[1..], maxBytes)
  }

  datatype Ring = Ring(buffer: seq<Chunk>, bytes: int)

  /** The eviction loop with its own byte counter, which knows nothing of the true size. */
  function EvictRing(r: Ring, maxBytes: nat): Ring
    decreases |r.buffer|
  {
    if r.bytes <= maxBytes || r.buffer == [] then r
    else EvictRing(Ring(r.buffer[1..], r.bytes - |r.buffer[0].data|), maxBytes)
  }

  function ByTime(chunk: Chunk): nat { chunk.timestamp }

  function Stamp(chunk: Chunk, workload: Option<string>): Chunk
  {
    if chunk.workload == None then chunk.(workload := workload) else chunk
  }

  /** The subscribers for which a send gives the wanted kind of result, in order. */
  function Keep(subscribers: seq<Chan>, send: Chan -> SendResult): seq<Chan>
  {
    if subscribers == [] then []
    else (if send(subscribers[0]).Closed? then [] else [subscribers[0]]) + Keep(subscribers[1..], send)
  }

  function Delivered(subscribers: seq<Chan>, send: Chan -> SendResult): seq<Chan>
  {
    if subscribers == [] then []
    else (if send(subscribers[0]).Ok? then [subscribers[0]] else []) + Delivered(subscribers[1..], send)
  }

  function PublishTopic(t: Topic, chunk: Chunk, send: Chan -> SendResult): Topic
  {
    var stamped := Stamp(chunk, t.workload);
    var ring := EvictRing(Ring(t.buffer + [stamped], t.bytes + |stamped.data|), t.maxBytes);
    t.(buffer := ring.buffer, bytes := ring.bytes, subscribers := Keep(t.subscribers, send))
  }

  // ---------------------------------------------------------------------
  // The bus
  // ---------------------------------------------------------------------

  predicate Wants(s: Subscription, key: Key, workload: string)
  {
    s.ns == key.ns && s.workload == workload && (s.containers.Some? ==> key.container in s.containers.value)
  }

  /** A standing subscription matches a topic whose workload is known and is the one it asks for. */
  predicate Matches(s: Subscription, key: Key, workload: Option<string>)
  {
    workload.Some? && Wants(s, key, workload.value)
  }

  function Live(subs: seq<Subscription>, closed: set<Chan>): seq<Subscription>
  {
    if subs == [] then []
    else (if subs[0].tx in closed then [] else [subs[0]]) + Live(subs[1..], closed)
  }

  function Senders(subs: seq<Subscription>, key: Key, workload: string): seq<Chan>
  {
    if subs == [] then []
    else (if Wants(subs[0], key, workload) then [subs[0].tx] else []) + Senders(subs[1..], key, workload)
  }

  /** The topic gets its workload name now: it is new, or was created before the name was known. */
  predicate Naming(bus: Bus, key: Key, workload: Option<string>)
  {
    workload.Some? && (key in bus.topics ==> bus.topics[key].workload == None)
  }

  /** The topic as the chunk finds it: created, named, unretired, with newly matching subscribers attached. */
  function Prepare(bus: Bus, key: Key, workload: Option<string>, subs: seq<Subscription>): Topic
  {
    var t := if key in bus.topics then bus.topics[key] else Topic([], 0, bus.maxBytes, [], workload, false);
    t.(workload := if t.workload == None then workload else t.workload,
       retired := false,
       subscribers := t.subscribers + if Naming(bus, key, workload) then Senders(subs, key, workload.value) else [])
  }

  /**
   * `closed`: channels whose receiver is gone when subscriptions are pruned. `send`: what each send reports.
   * `expired`: retired topics past their time to live when the sweep runs.
   */
  function Publish(bus: Bus, chunk: Chunk, workload: Option<string>, closed: set<Chan>, send: Chan -> SendResult,
                   expired: set<Key>): Bus
  {
    var key := chunk.key;
    var subs := if Naming(bus, key, workload) then Live(bus.subs, closed) else bus.subs;
    var topics := bus.topics[key := PublishTopic(Prepare(bus, key, workload, subs), chunk, send)];
    bus.(subs := subs, topics := if |topics| > SWEEP_THRESHOLD then Sweep(topics, expired) else topics)
  }

  function Sweep(topics: map<Key, Topic>, expired: set<Key>): map<Key, Topic>
  {
    map k | k in topics && !(topics[k].retired && k in expired) :: topics[k]
  }

  function RetireTopic(bus: Bus, key: Key): Bus
  {
    if key in bus.topics then bus.(topics := bus.topics[key := bus.topics[key].(retired := true)]) else bus
  }

  /** Attaches a sender to the topics in `keys`. */
  function Attach(topics: map<Key, Topic>, keys: set<Key>, tx: Chan): map<Key, Topic>
  {
    map k | k in topics :: if k in keys then topics[k].(subscribers := topics[k].subscribers + [tx]) else topics[k]
  }

  function Selected(bus: Bus, ns: nat, pods: Option<seq<nat>>, containers: Option<seq<string>>): set<Key>
  {
    set k | k in bus.topics && k.ns == ns && (pods.Some? ==> k.pod in pods.value)
            && (containers.Some? ==> k.container in containers.value)
  }

  function Subscribe(bus: Bus, ns: nat, pods: Option<seq<nat>>, containers: Option<seq<string>>, tx: Chan): Bus
  {
    bus.(topics := Attach(bus.topics, Selected(bus, ns, pods, containers), tx))
  }

  function Matching(bus: Bus, s: Subscription): set<Key>
  {
    set k | k in bus.topics && Matches(s, k, bus.topics[k].workload)
  }

  function SubscribeByWorkload(bus: Bus, s: Subscription): Bus
  {
    bus.(topics := Attach(bus.topics, Matching(bus, s), s.tx), subs := bus.subs + [s])
  }

  function OtherSubs(subs: seq<Subscription>, ns: nat): seq<Subscription>
  {
    if subs == [] then [] else (if subs[0].ns == ns then [] else [subs[0]]) + OtherSubs(subs[1..], ns)
  }

  /** The buffers of the matching topics, one after the other in iteration order. */
  function Buffers(topics: map<Key, Topic>, matching: set<Key>, order: seq<Key>): seq<Chunk>
  {
    if order == [] then []
    else
      var key := order[|order| - 1];
      Buffers(topics, matching, order[..|order| - 1])
      + if key in matching && key in topics then topics[key].buffer else []
  }

  function RemoveNamespace(bus: Bus, ns: nat): Bus
  {
    bus.(topics := map k | k in bus.topics && k.ns != ns :: bus.topics[k], subs := OtherSubs(bus.subs, ns))
  }

  // ---------------------------------------------------------------------
  // Runs
  // ---------------------------------------------------------------------

  datatype Op =
    | DoPublish(chunk: Chunk, workload: Option<string>, atPrune: set<Chan>, send: Chan -> SendResult, expired: set<Key>)
    | DoRetire(key: Key)
    | DoSubscribe(ns: nat, pods: Option<seq<nat>>, containers: Option<seq<string>>, tx: Chan)
    | DoSubscribeByWorkload(sub: Subscription)
    | DoRemoveNamespace(ns: nat)
    | ReceiverDropped(tx: Chan)

  /** The bus and the channels whose receivers are known to be gone. */
  datatype World = World(bus: Bus, closed: set<Chan>)

  ghost function Closings(subscribers: seq<Chan>, send: Chan -> SendResult): set<Chan>
  {
    set c | c in subscribers && send(c).Closed?
  }

  ghost function Step(w: World, op: Op): World
  {
    match op
    case DoPublish(chunk, workload, atPrune, send, expired) =>
      var subs := if Naming(w.bus, chunk.key, workload) then Live(w.bus.subs, atPrune) else w.bus.subs;
      World(Publish(w.bus, chunk, workload, atPrune, send, expired),
            w.closed + atPrune + Closings(Prepare(w.bus, chunk.key, workload, subs).subscribers, send))
    case DoRetire(key) => w.(bus := RetireTopic(w.bus, key))
    case DoSubscribe(ns, pods, containers, tx) => w.(bus := Subscribe(w.bus, ns, pods, containers, tx))
    case DoSubscribeByWorkload(sub) => w.(bus := SubscribeByWorkload(w.bus, sub))
    case DoRemoveNamespace(ns) => w.(bus := RemoveNamespace(w.bus, ns))
    case ReceiverDropped(tx) => w.(closed := w.closed + {tx})
  }

  /** A new channel is unknown to the bus. */
  ghost predicate NewChan(w: World, tx: Chan)
  {
    && tx !in w.closed
    && (forall k :: k in w.bus.topics ==> tx !in w.bus.topics[k].subscribers)
    && (forall i :: 0 <= i < |w.bus.subs| ==> w.bus.subs[i].tx != tx)
  }

  ghost predicate Plausible(w: World, op: Op)
  {
    match op
    case DoSubscribe(_, _, _, tx) => NewChan(w, tx)
    case DoSubscribeByWorkload(sub) => NewChan(w, sub.tx)
    case _ => true
  }

  ghost function Run(maxBytes: nat, ops: seq<Op>): World
  {
    if ops == [] then World(Bus(map[], maxBytes, []), {})
    else Step(Run(maxBytes, ops[..|ops| - 1]), ops[|ops| - 1])
  }

  ghost predicate PlausibleRun(maxBytes: nat, ops: seq<Op>)
  {
    ops != [] ==>
      PlausibleRun(maxBytes, ops[..|ops| - 1]) && Plausible(Run(maxBytes, ops[..|ops| - 1]), ops[|ops| - 1])
  }
}
