/** What a connection delivers: client frames go upstream once each and in order, and only whole frames are sent. */
module Http2Delivery {
  import opened Common
  import opened Http2Frames
  import opened Http2Connection
  import opened Http2StreamTable
  import opened Http2Chunking

  // ---------------------------------------------------------------------
  // Client frames: sent upstream, or still buffered
  // ---------------------------------------------------------------------

  /** The client frames among the upstream sends, in order. */
  function ClientSends(acts: seq<ConnAction>): seq<seq<Byte>>
  {
    if acts == [] then []
    else ClientSend(acts[0]) + ClientSends(acts[1..])
  }

  function ClientSend(a: ConnAction): seq<seq<Byte>>
  {
    if a.UpstreamSend? && a.origin.Client? then [a.data] else []
  }

  lemma {:induction false} ClientSendsAppend(a: seq<ConnAction>, b: seq<ConnAction>)
    ensures ClientSends(a + b) == ClientSends(a) + ClientSends(b)
  {
    if a == [] {
      assert a + b == b;
    } else {
      assert (a + b)[1..] == a[1..] + b;
      ClientSendsAppend(a[1..], b);
      Associate(ClientSend(a[0]), ClientSends(a[1..]), ClientSends(b));
    }
  }

  lemma {:induction false} ClientSendsOfSends(frames: seq<seq<Byte>>)
    ensures ClientSends(Sends(frames)) == frames
  {
    if frames != [] {
      var acts := Sends(frames);
      assert acts[1..] == Sends(frames[1..]);
      ClientSendsOfSends(frames[1..]);
    }
  }

  /** SETTINGS and PING end at the proxy; everything else is passed on. */
  predicate PassedOn(raw: RawFrame)
  {
    var t := DecodeFrame(raw).frameType;
    !t.Settings? && !t.Ping?
  }

  function Forwardable(raws: seq<RawFrame>): seq<seq<Byte>>
  {
    if raws == [] then [] else (if PassedOn(raws[0]) then [raws[0]] else []) + Forwardable(raws[1..])
  }

  lemma {:induction false} ForwardableAppend(a: seq<RawFrame>, b: seq<RawFrame>)
    ensures Forwardable(a + b) == Forwardable(a) + Forwardable(b)
  {
    if a == [] {
      assert a + b == b;
    } else {
      assert (a + b)[1..] == a[1..] + b;
      ForwardableAppend(a[1..], b);
      Associate(if PassedOn(a[0]) then [a[0]] else [], Forwardable(a[1..]), Forwardable(b));
    }
  }

  predicate Settled(c: Core) { c.upstream.Ready? ==> c.buffered == [] }

  /** `accepted` new client frames joined the queue, and the head of the queue may have been sent. */
  ghost predicate Conserves(before: Core, acts: seq<ConnAction>, after: Core, accepted: seq<seq<Byte>>)
  {
    Settled(before) ==>
      Settled(after) && ClientSends(acts) + after.buffered == before.buffered + accepted
  }

  lemma ConservesThen(c0: Core, a: seq<ConnAction>, c1: Core, b: seq<ConnAction>, c2: Core,
                      p: seq<seq<Byte>>, q: seq<seq<Byte>>)
    requires Conserves(c0, a, c1, p) && Conserves(c1, b, c2, q)
    ensures Conserves(c0, a + b, c2, p + q)
  {
    ClientSendsAppend(a, b);
    if Settled(c0) {
      Associate(ClientSends(a), ClientSends(b), c2.buffered);
      Associate(ClientSends(a), c1.buffered, q);
      Associate(c0.buffered, p, q);
    }
  }

  predicate NoClientSends(acts: seq<ConnAction>)
  {
    forall i :: 0 <= i < |acts| ==> !(acts[i].UpstreamSend? && acts[i].origin.Client?)
  }

  lemma {:induction false} NoClientSendsEmpty(acts: seq<ConnAction>)
    requires NoClientSends(acts)
    ensures ClientSends(acts) == []
  {
    if acts != [] {
      NoClientSendsEmpty(acts[1..]);
    }
  }

  /** A step that touches neither the buffer nor the upstream state. */
  lemma ConservesQuiet(before: Core, acts: seq<ConnAction>, after: Core)
    requires NoClientSends(acts) && after.buffered == before.buffered
    requires after.upstream.Ready? ==> before.upstream.Ready?
    ensures Conserves(before, acts, after, [])
  {
    NoClientSendsEmpty(acts);
  }

  lemma BufferOrForwardConserves(before: Core, prefix: seq<ConnAction>, c: Core, raw: seq<Byte>)
    requires NoClientSends(prefix) && c.buffered == before.buffered && c.upstream == before.upstream
    ensures var o := BufferOrForward(c, raw); Conserves(before, prefix + o.actions, o.core, [raw])
  {
    var o := BufferOrForward(c, raw);
    NoClientSendsEmpty(prefix);
    ClientSendsAppend(prefix, o.actions);
    assert ClientSends([UpstreamSend(raw, Client)]) == [raw] + ClientSends([]);
  }

  lemma ClientFrameConserves(c: Core, f: Frame, raw: seq<Byte>)
    ensures var o := HandleClientFrame(c, f, raw);
            Conserves(c, o.actions, o.core, if f.frameType.Settings? || f.frameType.Ping? then [] else [raw])
  {
    match f.frameType
    case Settings =>
      ConservesQuiet(c, HandleClientFrame(c, f, raw).actions, HandleClientFrame(c, f, raw).core);
    case Ping =>
      ConservesQuiet(c, HandleClientFrame(c, f, raw).actions, c);
    case Headers =>
      var started := OpenStream(c, f.streamId);
      var ended := EndIfFlagged(started.core, f, true);
      BufferOrForwardConserves(c, started.actions + ended.actions, ended.core, raw);
    case Data =>
      var ended := EndIfFlagged(c, f, true);
      BufferOrForwardConserves(c, ClientCredit(f) + ended.actions, ended.core, raw);
    case RstStream =>
      var reset := ResetStream(c, f.streamId);
      BufferOrForwardConserves(c, reset.actions, reset.core, raw);
    case Goaway =>
      BufferOrForwardConserves(c, [], c.(phase := Closing), raw);
      assert [] + BufferOrForward(c.(phase := Closing), raw).actions
             == BufferOrForward(c.(phase := Closing), raw).actions;
    case _ =>
      BufferOrForwardConserves(c, [], c, raw);
      assert [] + BufferOrForward(c, raw).actions == BufferOrForward(c, raw).actions;
  }

  lemma BecomeReadyConserves(c: Core, c': Core, prefix: seq<ConnAction>)
    requires NoClientSends(prefix) && c'.buffered == c.buffered && c'.upstream == c.upstream
    ensures var o := BecomeReady(c'); Conserves(c, prefix + o.actions, o.core, [])
  {
    NoClientSendsEmpty(prefix);
    ClientSendsOfSends(c.buffered);
    ClientSendsAppend(prefix, BecomeReady(c').actions);
  }

  lemma UpstreamFrameConserves(c: Core, f: Frame, raw: seq<Byte>)
    ensures var o := HandleUpstreamFrame(c, f, raw); Conserves(c, o.actions, o.core, [])
  {
    var o := HandleUpstreamFrame(c, f, raw);
    if f.frameType.Settings? {
      if LowFlag(f) {
        BecomeReadyConserves(c, c.(upstreamAcked := true), []);
        assert [] + o.actions == o.actions;
      } else {
        BecomeReadyConserves(c, c, [UpstreamSend(SettingsAck(), Proxy)]);
      }
    } else {
      ConservesQuiet(c, o.actions, o.core);
    }
  }

  /** The client frame a step accepts, if any. */
  function AcceptedBy(side: Side, c: Core, raw: RawFrame): seq<seq<Byte>>
  {
    if side.FromClient? && !c.phase.Closing? && PassedOn(raw) then [raw] else []
  }

  lemma ReceiveConserves(side: Side, c: Core, raw: RawFrame)
    ensures Conserves(c, Receive(side, c, raw).actions, Receive(side, c, raw).core, AcceptedBy(side, c, raw))
  {
    ClientFrameConserves(c, DecodeFrame(raw), raw);
    UpstreamFrameConserves(c, DecodeFrame(raw), raw);
  }

  function AcceptedFrom(side: Side, phase: Phase, raws: seq<RawFrame>): seq<seq<Byte>>
  {
    if side.FromBackend? then [] else Forwardable(Heeded(FromClient, phase, raws))
  }

  lemma AcceptedFromFirst(side: Side, c: Core, raws: seq<RawFrame>)
    requires raws != []
    ensures AcceptedFrom(side, c.phase, raws)
            == AcceptedBy(side, c, raws[0]) + AcceptedFrom(side, Receive(side, c, raws[0]).core.phase, raws[1..])
  {
    if side.FromClient? {
      var after := Receive(side, c, raws[0]).core.phase;
      var heeded := Heeded(side, c.phase, raws);
      ClosingOnGoaway(c, raws[0]);
      if !c.phase.Closing? && !DecodeFrame(raws[0]).frameType.Goaway? {
        HeededPhase(side, c.phase, after, raws[1..]);
        assert heeded[1..] == Heeded(side, after, raws[1..]);
      } else if !c.phase.Closing? {
        assert heeded[0] == raws[0] && heeded[1..] == [];
      }
    }
  }

  lemma {:induction false} ReceiveAllConserves(side: Side, c: Core, raws: seq<RawFrame>)
    ensures var o := ReceiveAll(side, c, raws);
            Conserves(c, o.actions, o.core, AcceptedFrom(side, c.phase, raws))
    decreases |raws|
  {
    if raws != [] {
      var first := Receive(side, c, raws[0]);
      var others := ReceiveAll(side, first.core, raws[1..]);
      ReceiveConserves(side, c, raws[0]);
      ReceiveAllConserves(side, first.core, raws[1..]);
      AcceptedFromFirst(side, c, raws);
      ConservesThen(c, first.actions, first.core, others.actions, others.core,
                    AcceptedBy(side, c, raws[0]), AcceptedFrom(side, first.core.phase, raws[1..]));
    } else {
      assert ClientSends([]) == [];
    }
  }

  // ---------------------------------------------------------------------
  // Every interleaving of inputs
  // ---------------------------------------------------------------------

  datatype ConnEvent =
    | ClientData(data: seq<Byte>)
    | ConnectStarted
    | UpstreamConnected
    | UpstreamData(data: seq<Byte>)
    | UpstreamClosed
    | UpstreamFailed

  function Apply(c: Conn, e: ConnEvent): ConnOutcome
  {
    match e
    case ClientData(d) => OnClientData(c, d)
    case ConnectStarted => ConnOutcome(SetUpstream(c, Connecting), [])
    case UpstreamConnected => OnUpstreamConnected(c)
    case UpstreamData(d) => OnUpstreamData(c, d)
    case UpstreamClosed => OnUpstreamClosed(c)
    case UpstreamFailed => OnUpstreamFailed(c)
  }

  type EventStep = (Conn, ConnEvent) -> ConnOutcome

  function RunWith(step: EventStep, c: Conn, es: seq<ConnEvent>): ConnOutcome
    decreases |es|
  {
    if es == [] then ConnOutcome(c, [])
    else
      var before := RunWith(step, c, es[..|es| - 1]);
      var last := step(before.conn, es[|es| - 1]);
      ConnOutcome(last.conn, before.actions + last.actions)
  }

  lemma {:induction false} RunWithAppend(step: EventStep, c: Conn, a: seq<ConnEvent>, b: seq<ConnEvent>)
    ensures RunWith(step, c, a + b).conn == RunWith(step, RunWith(step, c, a).conn, b).conn
    ensures RunWith(step, c, a + b).actions
            == RunWith(step, c, a).actions + RunWith(step, RunWith(step, c, a).conn, b).actions
    decreases |b|
  {
    if b == [] {
      assert a + b == a;
    } else {
      assert (a + b)[..|a + b| - 1] == a + b[..|b| - 1];
      RunWithAppend(step, c, a, b[..|b| - 1]);
    }
  }

  lemma RunWithOne(step: EventStep, c: Conn, e: ConnEvent)
    ensures RunWith(step, c, [e]) == step(c, e)
  {
    assert [e][..0] == [];
    assert [] + step(c, e).actions == step(c, e).actions;
  }

  lemma RunWithTwo(step: EventStep, c: Conn, e: ConnEvent, f: ConnEvent)
    ensures RunWith(step, c, [e, f]).conn == step(step(c, e).conn, f).conn
    ensures RunWith(step, c, [e, f]).actions == step(c, e).actions + step(step(c, e).conn, f).actions
  {
    RunWithOne(step, c, e);
    assert [e, f][..1] == [e];
  }

  function Applier(): EventStep { (c: Conn, e: ConnEvent) => Apply(c, e) }

  function RunFrom(c: Conn, es: seq<ConnEvent>): ConnOutcome { RunWith(Applier(), c, es) }

  /** A connection's whole life so far. */
  function Run(es: seq<ConnEvent>): ConnOutcome { RunFrom(NEW_CONN, es) }

  /**
   * The reference: the bytes each side has sent, where the client's stop counting once the backend
   * ends the conversation (a GOAWAY from it, or its connection closing or failing).
   */
  datatype Ledger = Ledger(clientBytes: seq<Byte>, backendBytes: seq<Byte>, ended: bool)

  predicate HasGoaway(raws: seq<RawFrame>)
  {
    exists i :: 0 <= i < |raws| && DecodeFrame(raws[i]).frameType.Goaway?
  }

  function Account(l: Ledger, e: ConnEvent): Ledger
  {
    match e
    case ClientData(d) => if l.ended then l else l.(clientBytes := l.clientBytes + d)
    case UpstreamData(d) =>
      var bytes := l.backendBytes + d;
      l.(backendBytes := bytes, ended := l.ended || HasGoaway(CutFrames(bytes).frames))
    case UpstreamClosed => l.(ended := true)
    case UpstreamFailed => l.(ended := true)
    case _ => l
  }

  function LedgerOf(es: seq<ConnEvent>): Ledger
  {
    if es == [] then Ledger([], [], false) else Account(LedgerOf(es[..|es| - 1]), es[|es| - 1])
  }

  /**
   * What the backend is owed: of the frames in the client's whole byte stream after the preface, those
   * up to and including its first GOAWAY, without SETTINGS and PING.
   */
  function Owed(clientBytes: seq<Byte>): seq<seq<Byte>>
  {
    if GoodPreface(clientBytes) then
      Forwardable(Heeded(FromClient, Active, CutFrames(clientBytes[|CLIENT_PREFACE|..]).frames))
    else []
  }

  predicate GoodPreface(bytes: seq<Byte>)
  {
    |bytes| >= |CLIENT_PREFACE| && bytes[..|CLIENT_PREFACE|] == CLIENT_PREFACE
  }

  /** How the connection's buffers and phase follow from the ledger. */
  ghost predicate Tracks(c: Conn, l: Ledger)
  {
    && c.upstreamRecvBuf == CutFrames(l.backendBytes).rest
    && (HasGoaway(CutFrames(l.backendBytes).frames) ==> l.ended)
    && (l.ended ==> c.core.phase.Closing?)
    && (!l.ended ==> TracksClient(c, l.clientBytes))
  }

  ghost predicate TracksClient(c: Conn, bytes: seq<Byte>)
  {
    if |bytes| < |CLIENT_PREFACE| then c.core.phase.AwaitingPreface? && c.recvBuf == bytes
    else if !GoodPreface(bytes) then c.core.phase.Closing?
    else
      var cut := CutFrames(bytes[|CLIENT_PREFACE|..]);
      && !c.core.phase.AwaitingPreface?
      && c.recvBuf == cut.rest
      && (c.core.phase.Closing? <==> HasGoaway(cut.frames))
  }

  // --- Lemmas on GOAWAY and accepted frames ---

  lemma HasGoawayAppend(a: seq<RawFrame>, b: seq<RawFrame>)
    ensures HasGoaway(a + b) <==> HasGoaway(a) || HasGoaway(b)
  {
    if HasGoaway(a) {
      var i :| 0 <= i < |a| && DecodeFrame(a[i]).frameType.Goaway?;
      assert (a + b)[i] == a[i];
    }
    if HasGoaway(b) {
      var i :| 0 <= i < |b| && DecodeFrame(b[i]).frameType.Goaway?;
      assert (a + b)[|a| + i] == b[i];
    }
  }

  lemma {:induction false} HeededAppend(p: Phase, a: seq<RawFrame>, b: seq<RawFrame>)
    requires !p.Closing?
    ensures Heeded(FromClient, p, a + b)
            == if HasGoaway(a) then Heeded(FromClient, p, a) else Heeded(FromClient, p, a) + Heeded(FromClient, p, b)
    decreases |a|
  {
    if a == [] {
      assert a + b == b;
    } else {
      assert (a + b)[1..] == a[1..] + b;
      HasGoawayAppend(a[..1], a[1..]);
      assert a == a[..1] + a[1..];
      HeededAppend(p, a[1..], b);
      Associate(Heeded(FromClient, p, a[..1]), Heeded(FromClient, p, a[1..]), Heeded(FromClient, p, b));
    }
  }

  lemma {:induction false} ClosingTracksGoaway(side: Side, c: Core, raws: seq<RawFrame>)
    ensures ReceiveAll(side, c, raws).core.phase.Closing? <==> c.phase.Closing? || HasGoaway(raws)
    decreases |raws|
  {
    if raws != [] {
      ReceiveClosing(side, c, raws[0]);
      ClosingTracksGoaway(side, Receive(side, c, raws[0]).core, raws[1..]);
      FoldFirst(Receiver(side), c, raws);
      HasGoawayFirst(raws);
    }
  }

  lemma HasGoawayFirst(raws: seq<RawFrame>)
    requires raws != []
    ensures HasGoaway(raws) <==> DecodeFrame(raws[0]).frameType.Goaway? || HasGoaway(raws[1..])
  {
    HasGoawayAppend(raws[..1], raws[1..]);
    assert raws == raws[..1] + raws[1..];
  }

  lemma ReceiveClosing(side: Side, c: Core, raw: RawFrame)
    ensures Receive(side, c, raw).core.phase.Closing?
            <==> c.phase.Closing? || DecodeFrame(raw).frameType.Goaway?
  {
    if side.FromClient? {
      ClosingOnGoaway(c, raw);
    } else {
      BackendClosing(c, raw);
    }
  }

  function OwedAfterPreface(tail: seq<Byte>): seq<seq<Byte>>
  {
    Forwardable(Heeded(FromClient, Active, CutFrames(tail).frames))
  }

  lemma OwedGrows(phase: Phase, tail: seq<Byte>, d: seq<Byte>)
    requires phase.Closing? <==> HasGoaway(CutFrames(tail).frames)
    ensures OwedAfterPreface(tail + d)
            == OwedAfterPreface(tail) + AcceptedFrom(FromClient, phase, CutFrames(CutFrames(tail).rest + d).frames)
  {
    var past, more := CutFrames(tail).frames, CutFrames(CutFrames(tail).rest + d).frames;
    CutFramesAppend(tail, d);
    HeededAppend(Active, past, more);
    if !phase.Closing? {
      HeededPhase(FromClient, Active, phase, more);
      ForwardableAppend(Heeded(FromClient, Active, past), Heeded(FromClient, Active, more));
    }
  }

  /** `tail` is the client's byte stream after the preface; `d` arrives next. */
  lemma DrainConserves(c: Conn, tail: seq<Byte>, d: seq<Byte>)
    requires !c.core.phase.AwaitingPreface? && c.recvBuf == CutFrames(tail).rest
    requires c.core.phase.Closing? <==> HasGoaway(CutFrames(tail).frames)
    ensures var o := DrainClient(c, c.recvBuf + d);
            var accepted := AcceptedFrom(FromClient, c.core.phase, CutFrames(c.recvBuf + d).frames);
            && !o.conn.core.phase.AwaitingPreface? && o.conn.recvBuf == CutFrames(tail + d).rest
            && (o.conn.core.phase.Closing? <==> HasGoaway(CutFrames(tail + d).frames))
            && Conserves(c.core, o.actions, o.conn.core, accepted)
            && OwedAfterPreface(tail + d) == OwedAfterPreface(tail) + accepted
  {
    var more := CutFrames(c.recvBuf + d).frames;
    CutFramesAppend(tail, d);
    HasGoawayAppend(CutFrames(tail).frames, more);
    ClosingTracksGoaway(FromClient, c.core, more);
    PrefaceOnce(c.core, more);
    ReceiveAllConserves(FromClient, c.core, more);
    OwedGrows(c.core.phase, tail, d);
  }

  lemma GreetConserves(c: Conn, d: seq<Byte>)
    ensures var o := Greet(c, d);
            && !o.conn.core.phase.AwaitingPreface? && o.conn.recvBuf == CutFrames(d).rest
            && (o.conn.core.phase.Closing? <==> HasGoaway(CutFrames(d).frames))
            && Conserves(c.core, o.actions, o.conn.core, OwedAfterPreface(d))
  {
    var hello := [DownstreamSend(OurSettings(), Proxy)];
    var greeted := c.(core := c.core.(phase := Handshaking), recvBuf := []);
    var o := DrainClient(greeted, d);
    FirstBytesConserve(greeted, d);
    ConservesQuiet(c.core, hello, greeted.core);
    ConservesThen(c.core, hello, greeted.core, o.actions, o.conn.core, [], OwedAfterPreface(d));
    assert [] + OwedAfterPreface(d) == OwedAfterPreface(d);
    assert Greet(c, d).conn == o.conn && Greet(c, d).actions == hello + o.actions;
  }

  lemma FirstBytesConserve(c: Conn, d: seq<Byte>)
    requires c.core.phase.Handshaking? && c.recvBuf == []
    ensures var o := DrainClient(c, d);
            && !o.conn.core.phase.AwaitingPreface? && o.conn.recvBuf == CutFrames(d).rest
            && (o.conn.core.phase.Closing? <==> HasGoaway(CutFrames(d).frames))
            && Conserves(c.core, o.actions, o.conn.core, OwedAfterPreface(d))
  {
    var none: seq<Byte> := [];
    var accepted := AcceptedFrom(FromClient, c.core.phase, CutFrames(d).frames);
    NothingOwed(none);
    assert none + d == d && c.recvBuf + d == d;
    assert [] + accepted == accepted;
    DrainConserves(c, none, d);
  }

  lemma NothingOwed(none: seq<Byte>)
    requires none == []
    ensures CutFrames(none) == Cut([], none) && OwedAfterPreface(none) == []
  {
  }

  /** The invariant of every run: what was sent, then what is buffered, is what is owed. */
  ghost predicate Delivered(c: Conn, sent: seq<seq<Byte>>, l: Ledger)
  {
    Tracks(c, l) && Settled(c.core) && sent + c.core.buffered == Owed(l.clientBytes)
  }

  lemma DeliveredStep(c: Conn, sent: seq<seq<Byte>>, l: Ledger, acts: seq<ConnAction>, c': Conn, l': Ledger,
                      accepted: seq<seq<Byte>>)
    requires Delivered(c, sent, l) && Tracks(c', l')
    requires Conserves(c.core, acts, c'.core, accepted)
    requires Owed(l'.clientBytes) == Owed(l.clientBytes) + accepted
    ensures Delivered(c', sent + ClientSends(acts), l')
  {
    Associate(sent, ClientSends(acts), c'.core.buffered);
    Associate(sent, c.core.buffered, accepted);
  }

  /** The first bytes after the preface, or the whole of a preface that is no good. */
  lemma PrefaceDelivers(c: Conn, sent: seq<seq<Byte>>, l: Ledger, d: seq<Byte>)
    requires Delivered(c, sent, l) && !l.ended && |l.clientBytes| < |CLIENT_PREFACE|
    ensures var o := OnClientData(c, d);
            Delivered(o.conn, sent + ClientSends(o.actions), l.(clientBytes := l.clientBytes + d))
  {
    var bytes := l.clientBytes + d;
    var o := OnClientData(c, d);
    var l' := l.(clientBytes := bytes);
    if GoodPreface(bytes) {
      GreetConserves(c, bytes[|CLIENT_PREFACE|..]);
      DeliveredStep(c, sent, l, o.actions, o.conn, l', OwedAfterPreface(bytes[|CLIENT_PREFACE|..]));
    } else {
      ConservesQuiet(c.core, o.actions, o.conn.core);
      DeliveredStep(c, sent, l, o.actions, o.conn, l', []);
    }
  }

  lemma ClientDataDelivers(c: Conn, sent: seq<seq<Byte>>, l: Ledger, d: seq<Byte>)
    requires Delivered(c, sent, l) && !l.ended
    ensures var o := OnClientData(c, d);
            Delivered(o.conn, sent + ClientSends(o.actions), l.(clientBytes := l.clientBytes + d))
  {
    var n := |CLIENT_PREFACE|;
    var bytes := l.clientBytes + d;
    var o := OnClientData(c, d);
    var l' := l.(clientBytes := bytes);
    if |l.clientBytes| < n {
      PrefaceDelivers(c, sent, l, d);
    } else {
      CutWithin(l.clientBytes, d, n);
      if GoodPreface(bytes) {
        DrainConserves(c, l.clientBytes[n..], d);
        DeliveredStep(c, sent, l, o.actions, o.conn, l',
                      AcceptedFrom(FromClient, c.core.phase, CutFrames(c.recvBuf + d).frames));
      } else {
        ClosingDropsClientData(c, d);
        ConservesQuiet(c.core, [], c.core);
        DeliveredStep(c, sent, l, [], o.conn, l', []);
      }
    }
  }

  lemma UpstreamDataDelivers(c: Conn, sent: seq<seq<Byte>>, l: Ledger, d: seq<Byte>)
    requires Delivered(c, sent, l)
    ensures var o := OnUpstreamData(c, d);
            Delivered(o.conn, sent + ClientSends(o.actions), Account(l, UpstreamData(d)))
  {
    var o := OnUpstreamData(c, d);
    UpstreamDataTracks(c, l, d);
    ReceiveAllConserves(FromBackend, c.core, CutFrames(c.upstreamRecvBuf + d).frames);
    assert Owed(l.clientBytes) + [] == Owed(l.clientBytes);
    DeliveredStep(c, sent, l, o.actions, o.conn, Account(l, UpstreamData(d)), []);
  }

  lemma UpstreamDataTracks(c: Conn, l: Ledger, d: seq<Byte>)
    requires Tracks(c, l)
    ensures Tracks(OnUpstreamData(c, d).conn, Account(l, UpstreamData(d)))
  {
    var more := CutFrames(c.upstreamRecvBuf + d).frames;
    CutFramesAppend(l.backendBytes, d);
    HasGoawayAppend(CutFrames(l.backendBytes).frames, more);
    ClosingTracksGoaway(FromBackend, c.core, more);
    BackendKeepsPhase(c.core, more);
    KeepsTracking(c, OnUpstreamData(c, d).conn, l, Account(l, UpstreamData(d)));
  }

  /** A connection that gets more backend bytes and no GOAWAY tracks what it tracked. */
  lemma KeepsTracking(c: Conn, next: Conn, l: Ledger, l': Ledger)
    requires Tracks(c, l) && l'.clientBytes == l.clientBytes
    requires next.recvBuf == c.recvBuf && next.upstreamRecvBuf == CutFrames(l'.backendBytes).rest
    requires l'.ended <==> l.ended || HasGoaway(CutFrames(l'.backendBytes).frames)
    requires l'.ended ==> next.core.phase.Closing?
    requires !l'.ended ==> next.core.phase == c.core.phase
    ensures Tracks(next, l')
  {
  }

  /** Backend frames change the phase only by closing. */
  lemma {:induction false} BackendKeepsPhase(c: Core, raws: seq<RawFrame>)
    ensures HasGoaway(raws) || ReceiveAll(FromBackend, c, raws).core.phase == c.phase
    decreases |raws|
  {
    if raws != [] {
      BackendClosing(c, raws[0]);
      BackendKeepsPhase(Receive(FromBackend, c, raws[0]).core, raws[1..]);
      HasGoawayFirst(raws);
    }
  }

  lemma {:induction false} CloseAllQuiet(n: nat)
    ensures NoClientSends(CloseAll(n))
  {
    if n > 0 {
      CloseAllQuiet(n - 1);
    }
  }

  lemma EventDelivers(c: Conn, sent: seq<seq<Byte>>, l: Ledger, e: ConnEvent)
    requires Delivered(c, sent, l)
    ensures var o := Apply(c, e);
            Delivered(o.conn, sent + ClientSends(o.actions), Account(l, e))
  {
    var o := Apply(c, e);
    if e.ClientData? && !l.ended {
      ClientDataDelivers(c, sent, l, e.data);
    } else if e.UpstreamData? {
      UpstreamDataDelivers(c, sent, l, e.data);
    } else {
      if e.ClientData? {
        ClosingDropsClientData(c, e.data);
      } else {
        CloseAllQuiet(|c.core.streams|);
      }
      ConservesQuiet(c.core, o.actions, o.conn.core);
      DeliveredStep(c, sent, l, o.actions, o.conn, Account(l, e), []);
    }
  }

  /**
   * Conservation. After any interleaving of inputs, the client frames sent upstream followed by the
   * frames still buffered are exactly what the client's byte stream owes the backend, in order and
   * without loss or duplication; and nothing is buffered while the upstream is ready.
   */
  lemma {:induction false} ClientFramesConserved(es: seq<ConnEvent>)
    ensures ClientSends(Run(es).actions) + Run(es).conn.core.buffered == Owed(LedgerOf(es).clientBytes)
    ensures Run(es).conn.core.upstream.Ready? ==> Run(es).conn.core.buffered == []
  {
    RunDelivers(es);
  }

  lemma {:induction false} RunDelivers(es: seq<ConnEvent>)
    ensures Delivered(Run(es).conn, ClientSends(Run(es).actions), LedgerOf(es))
  {
    if es != [] {
      var before := Run(es[..|es| - 1]);
      var e := es[|es| - 1];
      RunDelivers(es[..|es| - 1]);
      EventDelivers(before.conn, ClientSends(before.actions), LedgerOf(es[..|es| - 1]), e);
      ClientSendsAppend(before.actions, Apply(before.conn, e).actions);
    }
  }
}
