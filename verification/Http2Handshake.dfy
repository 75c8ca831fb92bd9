/** Both handshakes of a connection, over its whole life: its phase, its upstream's state and the acknowledgements. */
module Http2Handshake {
  import opened Common
  import opened Http2Frames
  import opened Http2Connection
  import opened Http2StreamTable
  import opened Http2Chunking
  import opened Http2Delivery
  import opened Http2StreamLife
  import opened Http2Replies

  // ---------------------------------------------------------------------
  // The reference
  // ---------------------------------------------------------------------

  predicate IsSettings(raw: RawFrame) { DecodeFrame(raw).frameType.Settings? }

  predicate IsSettingsAck(raw: RawFrame) { IsSettings(raw) && LowFlag(DecodeFrame(raw)) }

  predicate HasSettings(raws: seq<RawFrame>) { exists i :: 0 <= i < |raws| && IsSettings(raws[i]) }

  predicate HasAck(raws: seq<RawFrame>) { exists i :: 0 <= i < |raws| && IsSettingsAck(raws[i]) }

  /** The upstream's state: ready from the first SETTINGS frame that arrives whole after it is connected. */
  function UpstreamAfter(es: seq<ConnEvent>): UpstreamState
  {
    if es == [] then NoUpstream
    else
      var init := es[..|es| - 1];
      var before := UpstreamAfter(init);
      match es[|es| - 1]
      case ConnectStarted => Connecting
      case UpstreamConnected => UpstreamHandshaking
      case UpstreamData(d) =>
        if before.UpstreamHandshaking? && HasSettings(BackendFrames(LedgerOf(init).backendBytes, d)) then Ready
        else before
      case UpstreamClosed => Failed
      case UpstreamFailed => Failed
      case ClientData(_) => before
  }

  /** The phase: closing once the conversation is over, active once the client has acknowledged our settings. */
  function PhaseAfter(l: Ledger): Phase
  {
    if Over(l) then Closing
    else if !GoodPreface(l.clientBytes) then AwaitingPreface
    else if HasAck(HeededFrames(l.clientBytes)) then Active
    else Handshaking
  }

  // ---------------------------------------------------------------------
  // Frames
  // ---------------------------------------------------------------------

  lemma HasAckAppend(a: seq<RawFrame>, b: seq<RawFrame>)
    ensures HasAck(a + b) <==> HasAck(a) || HasAck(b)
    ensures HasSettings(a + b) <==> HasSettings(a) || HasSettings(b)
  {
    var all := a + b;
    forall i | 0 <= i < |a| ensures all[i] == a[i] {
    }
    forall i | 0 <= i < |b| ensures all[|a| + i] == b[i] {
    }
  }

  lemma HasAckOne(raw: RawFrame)
    ensures HasAck([raw]) <==> IsSettingsAck(raw)
    ensures HasSettings([raw]) <==> IsSettings(raw)
  {
    assert [raw][0] == raw;
  }

  lemma BackendFrameShakes(c: Core, raw: RawFrame)
    ensures var c' := Receive(FromBackend, c, raw).core;
            && c'.upstreamAcked == (c.upstreamAcked || IsSettingsAck(raw))
            && c'.clientAcked == c.clientAcked
            && c'.upstream == if c.upstream.UpstreamHandshaking? && IsSettings(raw) then Ready else c.upstream
  {
  }

  lemma {:induction false} BackendFramesShake(c: Core, raws: seq<RawFrame>)
    ensures var c' := ReceiveAll(FromBackend, c, raws).core;
            && c'.upstreamAcked == (c.upstreamAcked || HasAck(raws))
            && c'.clientAcked == c.clientAcked
            && c'.upstream == if c.upstream.UpstreamHandshaking? && HasSettings(raws) then Ready else c.upstream
    decreases |raws|
  {
    if raws != [] {
      BackendFrameShakes(c, raws[0]);
      BackendFramesShake(Receive(FromBackend, c, raws[0]).core, raws[1..]);
      FoldFirst(Receiver(FromBackend), c, raws);
      HasAckAppend([raws[0]], raws[1..]);
      HasAckOne(raws[0]);
      assert raws == [raws[0]] + raws[1..];
    }
  }

  lemma ClientFrameShakes(c: Core, raw: RawFrame)
    requires !c.phase.Closing?
    ensures var c' := Receive(FromClient, c, raw).core;
            && c'.clientAcked == (c.clientAcked || IsSettingsAck(raw))
            && c'.upstreamAcked == c.upstreamAcked && c'.upstream == c.upstream
  {
    var f := DecodeFrame(raw);
    TableKeepsShake(c, f, raw);
    match f.frameType
    case Headers =>
      var started := OpenStream(c, f.streamId).core;
      TableKeepsShake(started, f, raw);
      TableKeepsShake(EndIfFlagged(started, f, true).core, f, raw);
    case Data => TableKeepsShake(EndIfFlagged(c, f, true).core, f, raw);
    case RstStream => TableKeepsShake(ResetStream(c, f.streamId).core, f, raw);
    case Goaway => TableKeepsShake(c.(phase := Closing), f, raw);
    case _ =>
  }

  predicate SameShake(c: Core, c': Core)
  {
    c'.clientAcked == c.clientAcked && c'.upstreamAcked == c.upstreamAcked && c'.upstream == c.upstream
  }

  lemma TableKeepsShake(c: Core, f: Frame, raw: seq<Byte>)
    ensures SameShake(c, OpenStream(c, f.streamId).core) && SameShake(c, EndIfFlagged(c, f, true).core)
    ensures SameShake(c, ResetStream(c, f.streamId).core) && SameShake(c, BufferOrForward(c, raw).core)
  {
  }

  lemma {:induction false} ClientFramesShake(c: Core, raws: seq<RawFrame>)
    ensures var c', heeded := ReceiveAll(FromClient, c, raws).core, Heeded(FromClient, c.phase, raws);
            && c'.clientAcked == (c.clientAcked || HasAck(heeded))
            && c'.upstreamAcked == c.upstreamAcked && c'.upstream == c.upstream
            && (!c'.phase.Closing? ==> c'.phase == if c.phase.Handshaking? && HasAck(heeded) then Active else c.phase)
    decreases |raws|
  {
    if c.phase.Closing? {
      FoldSilent(c, raws);
    } else if raws != [] {
      var c1 := Receive(FromClient, c, raws[0]).core;
      ClientFrameShakes(c, raws[0]);
      ClientFramePhase(c, DecodeFrame(raws[0]), raws[0]);
      ClientFramesShake(c1, raws[1..]);
      FoldFirst(Receiver(FromClient), c, raws);
      HeededFirst(c, raws);
      HasAckAppend([raws[0]], Heeded(FromClient, c1.phase, raws[1..]));
      HasAckOne(raws[0]);
      if c1.phase.Closing? {
        FoldSilent(c1, raws[1..]);
      }
    }
  }

  // ---------------------------------------------------------------------
  // Inputs
  // ---------------------------------------------------------------------

  ghost predicate Shaken(c: Core, l: Ledger, upstream: UpstreamState)
  {
    && c.upstream == upstream
    && c.clientAcked == HasAck(HeededFrames(l.clientBytes))
    && c.upstreamAcked == HasAck(CutFrames(l.backendBytes).frames)
    && c.phase == PhaseAfter(l)
  }

  lemma GoodDataShakes(c: Conn, l: Ledger, d: seq<Byte>, upstream: UpstreamState)
    requires Tracks(c, l) && !l.ended && Shaken(c.core, l, upstream) && GoodPreface(l.clientBytes + d)
    ensures Shaken(OnClientData(c, d).conn.core, l.(clientBytes := l.clientBytes + d), upstream)
  {
    var bytes := l.clientBytes;
    var start := if c.core.phase.AwaitingPreface? then c.core.(phase := Handshaking) else c.core;
    var raws := ClientFrames(bytes, d);
    if |bytes| >= |CLIENT_PREFACE| {
      assert (bytes + d)[..|CLIENT_PREFACE|] == bytes[..|CLIENT_PREFACE|];
    }
    PhaseTellsOver(c, l);
    ClientDataParts(c, bytes, d);
    ClientFramesShake(start, raws);
    HeededGrows(start.phase, bytes, d);
    HasAckAppend(HeededFrames(bytes), Heeded(FromClient, start.phase, raws));
    GoodDataPhase(c, l, d, start, raws);
  }

  /** When the conversation is over after good data. */
  lemma GoodDataPhase(c: Conn, l: Ledger, d: seq<Byte>, start: Core, raws: seq<RawFrame>)
    requires Tracks(c, l) && !l.ended && GoodPreface(l.clientBytes + d) && raws == ClientFrames(l.clientBytes, d)
    requires start == if c.core.phase.AwaitingPreface? then c.core.(phase := Handshaking) else c.core
    requires |l.clientBytes| >= |CLIENT_PREFACE| ==> GoodPreface(l.clientBytes)
    ensures ReceiveAll(FromClient, start, raws).core.phase.Closing? <==> Over(l.(clientBytes := l.clientBytes + d))
  {
    var bytes, n := l.clientBytes, |CLIENT_PREFACE|;
    ClosingTracksGoaway(FromClient, start, raws);
    if |bytes| >= n {
      CutWithin(bytes, d, n);
      CutFramesAppend(bytes[n..], d);
      HasGoawayAppend(CutFrames(bytes[n..]).frames, raws);
    }
  }

  lemma GoodStaysGood(bytes: seq<Byte>, d: seq<Byte>)
    ensures GoodPreface(bytes) ==> GoodPreface(bytes + d)
  {
    if GoodPreface(bytes) {
      CutWithin(bytes, d, |CLIENT_PREFACE|);
    }
  }

  lemma ClientDataShakes(c: Conn, l: Ledger, d: seq<Byte>, upstream: UpstreamState)
    requires Tracks(c, l) && !l.ended && Shaken(c.core, l, upstream)
    ensures Shaken(OnClientData(c, d).conn.core, l.(clientBytes := l.clientBytes + d), upstream)
  {
    var bytes := l.clientBytes;
    if GoodPreface(bytes + d) {
      GoodDataShakes(c, l, d, upstream);
    } else if BadPreface(bytes) {
      assert (bytes + d)[..|CLIENT_PREFACE|] == bytes[..|CLIENT_PREFACE|];
      ClosingDropsClientData(c, d);
    } else {
      GoodStaysGood(bytes, d);
    }
  }

  lemma UpstreamDataShakes(c: Conn, l: Ledger, d: seq<Byte>, upstream: UpstreamState)
    requires Tracks(c, l) && Shaken(c.core, l, upstream)
    ensures Shaken(OnUpstreamData(c, d).conn.core, Account(l, UpstreamData(d)),
                   if upstream.UpstreamHandshaking? && HasSettings(BackendFrames(l.backendBytes, d)) then Ready
                   else upstream)
  {
    var raws := BackendFrames(l.backendBytes, d);
    CutFramesAppend(l.backendBytes, d);
    BackendFramesShake(c.core, raws);
    HasAckAppend(CutFrames(l.backendBytes).frames, raws);
    HasGoawayAppend(CutFrames(l.backendBytes).frames, raws);
    ClosingTracksGoaway(FromBackend, c.core, raws);
    BackendKeepsPhase(c.core, raws);
  }

  lemma {:induction false} RunShaken(es: seq<ConnEvent>)
    ensures Shaken(Run(es).conn.core, LedgerOf(es), UpstreamAfter(es))
  {
    if es != [] {
      var init, e := es[..|es| - 1], es[|es| - 1];
      var c, l := Run(init).conn, LedgerOf(init);
      RunShaken(init);
      RunDelivers(init);
      match e
      case ClientData(d) =>
        if l.ended {
          ClosingDropsClientData(c, d);
        } else {
          ClientDataShakes(c, l, d, UpstreamAfter(init));
        }
      case UpstreamData(d) => UpstreamDataShakes(c, l, d, UpstreamAfter(init));
      case _ =>
    } else {
      assert CutFrames([]) == Cut([], []);
    }
  }

  /**
   * After any interleaving of inputs: the upstream is ready from the first SETTINGS frame after it is connected, and
   * then nothing is held back from it; the phase and the two acknowledgement flags are what the two byte streams say.
   */
  lemma HandshakesOnEveryRun(es: seq<ConnEvent>)
    ensures var c, l := Run(es).conn.core, LedgerOf(es);
            && c.upstream == UpstreamAfter(es)
            && (UpstreamAfter(es).Ready? ==> c.buffered == [] && ClientSends(Run(es).actions) == Owed(l.clientBytes))
            && c.phase == PhaseAfter(l)
            && c.clientAcked == HasAck(HeededFrames(l.clientBytes))
            && c.upstreamAcked == HasAck(CutFrames(l.backendBytes).frames)
  {
    RunShaken(es);
    ClientFramesConserved(es);
    assert ClientSends(Run(es).actions) + [] == ClientSends(Run(es).actions);
  }
}
