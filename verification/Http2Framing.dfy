/** Everything a connection sends is made of whole frames, and its upstream hears the preface first. */
module Http2Framing {
  import opened Common
  import opened Http2Frames
  import opened Http2Connection
  import opened Http2Delivery

  predicate WholeSend(a: ConnAction) { a.DownstreamSend? || a.UpstreamSend? ==> IsWholeFrame(a.data) }

  predicate WholeSends(acts: seq<ConnAction>) { forall i :: 0 <= i < |acts| ==> WholeSend(acts[i]) }

  // ---------------------------------------------------------------------
  // One frame
  // ---------------------------------------------------------------------

  lemma {:induction false} SendsWhole(frames: seq<seq<Byte>>)
    requires AllWhole(frames)
    ensures WholeSends(Sends(frames))
  {
    if frames != [] {
      SendsWhole(frames[1..]);
    }
  }

  lemma CreditWhole(f: Frame)
    ensures WholeSends(ClientCredit(f)) && WholeSends(UpstreamCredit(f))
  {
    var n := |f.payload| % 0x1_0000_0000;
    GeneratedFramesWhole([], 0, n, 0);
    GeneratedFramesWhole([], f.streamId, n, 0);
  }

  lemma BufferOrForwardWhole(c: Core, raw: seq<Byte>)
    requires IsWholeFrame(raw) && AllWhole(c.buffered)
    ensures WholeSends(BufferOrForward(c, raw).actions) && AllWhole(BufferOrForward(c, raw).core.buffered)
  {
  }

  lemma WholeThenForward(prefix: seq<ConnAction>, c: Core, raw: seq<Byte>)
    requires IsWholeFrame(raw) && AllWhole(c.buffered) && WholeSends(prefix)
    ensures var o := BufferOrForward(c, raw); WholeSends(prefix + o.actions) && AllWhole(o.core.buffered)
  {
    BufferOrForwardWhole(c, raw);
  }

  predicate SendsNothing(acts: seq<ConnAction>)
  {
    forall i :: 0 <= i < |acts| ==> !acts[i].DownstreamSend? && !acts[i].UpstreamSend?
  }

  lemma StreamChangesSendNothing(c: Core, f: Frame, byClient: bool)
    ensures SendsNothing(OpenStream(c, f.streamId).actions) && OpenStream(c, f.streamId).core.buffered == c.buffered
    ensures SendsNothing(EndIfFlagged(c, f, byClient).actions)
            && EndIfFlagged(c, f, byClient).core.buffered == c.buffered
    ensures SendsNothing(ResetStream(c, f.streamId).actions) && ResetStream(c, f.streamId).core.buffered == c.buffered
  {
  }

  lemma ClientFrameWhole(c: Core, f: Frame, raw: seq<Byte>)
    requires IsWholeFrame(raw) && AllWhole(c.buffered)
    ensures WholeSends(HandleClientFrame(c, f, raw).actions) && AllWhole(HandleClientFrame(c, f, raw).core.buffered)
  {
    StreamChangesSendNothing(c, f, true);
    match f.frameType
    case Settings => GeneratedFramesWhole([], 0, 0, 0);
    case Ping => GeneratedFramesWhole(f.payload, 0, 0, 0);
    case Headers =>
      var started := OpenStream(c, f.streamId);
      var ended := EndIfFlagged(started.core, f, true);
      StreamChangesSendNothing(started.core, f, true);
      WholeThenForward(started.actions + ended.actions, ended.core, raw);
    case Data =>
      var ended := EndIfFlagged(c, f, true);
      CreditWhole(f);
      WholeThenForward(ClientCredit(f) + ended.actions, ended.core, raw);
    case RstStream =>
      var reset := ResetStream(c, f.streamId);
      WholeThenForward(reset.actions, reset.core, raw);
    case Goaway => BufferOrForwardWhole(c.(phase := Closing), raw);
    case _ => BufferOrForwardWhole(c, raw);
  }

  lemma UpstreamFrameWhole(c: Core, f: Frame, raw: seq<Byte>)
    requires IsWholeFrame(raw) && AllWhole(c.buffered)
    ensures WholeSends(HandleUpstreamFrame(c, f, raw).actions) && AllWhole(HandleUpstreamFrame(c, f, raw).core.buffered)
  {
    match f.frameType
    case Settings => UpstreamSettingsWhole(c, f, raw);
    case Ping => UpstreamPingWhole(c, f, raw);
    case Data => CreditWhole(f);
    case _ =>
  }

  lemma UpstreamSettingsWhole(c: Core, f: Frame, raw: seq<Byte>)
    requires f.frameType.Settings? && AllWhole(c.buffered)
    ensures WholeSends(HandleUpstreamFrame(c, f, raw).actions) && AllWhole(HandleUpstreamFrame(c, f, raw).core.buffered)
  {
    GeneratedFramesWhole([], 0, 0, 0);
    SendsWhole(c.buffered);
  }

  lemma UpstreamPingWhole(c: Core, f: Frame, raw: seq<Byte>)
    requires f.frameType.Ping? && IsWholeFrame(raw) && AllWhole(c.buffered)
    ensures WholeSends(HandleUpstreamFrame(c, f, raw).actions) && AllWhole(HandleUpstreamFrame(c, f, raw).core.buffered)
  {
    GeneratedFramesWhole(f.payload, 0, 0, 0);
  }

  lemma {:induction false} ReceiveAllWhole(side: Side, c: Core, raws: seq<RawFrame>)
    requires AllWhole(raws) && AllWhole(c.buffered)
    ensures WholeSends(ReceiveAll(side, c, raws).actions) && AllWhole(ReceiveAll(side, c, raws).core.buffered)
    decreases |raws|
  {
    if raws != [] {
      ClientFrameWhole(c, DecodeFrame(raws[0]), raws[0]);
      UpstreamFrameWhole(c, DecodeFrame(raws[0]), raws[0]);
      ReceiveAllWhole(side, Receive(side, c, raws[0]).core, raws[1..]);
    }
  }

  // ---------------------------------------------------------------------
  // One input
  // ---------------------------------------------------------------------

  lemma DrainWhole(c: Conn, buf: seq<Byte>)
    requires AllWhole(c.core.buffered)
    ensures WholeSends(DrainClient(c, buf).actions) && AllWhole(DrainClient(c, buf).conn.core.buffered)
  {
    CutFramesWhole(buf);
    ReceiveAllWhole(FromClient, c.core, CutFrames(buf).frames);
  }

  lemma ClientDataWhole(c: Conn, data: seq<Byte>)
    requires AllWhole(c.core.buffered)
    ensures WholeSends(OnClientData(c, data).actions) && AllWhole(OnClientData(c, data).conn.core.buffered)
  {
    var buf := c.recvBuf + data;
    if !c.core.phase.AwaitingPreface? {
      DrainWhole(c, buf);
    } else if |buf| >= |CLIENT_PREFACE| {
      GreetWhole(c, buf[|CLIENT_PREFACE|..]);
    }
  }

  lemma GreetWhole(c: Conn, tail: seq<Byte>)
    requires AllWhole(c.core.buffered)
    ensures WholeSends(Greet(c, tail).actions) && AllWhole(Greet(c, tail).conn.core.buffered)
  {
    GeneratedFramesWhole([], 0, 0, 0);
    DrainWhole(c.(core := c.core.(phase := Handshaking)), tail);
  }

  lemma {:induction false} CloseAllWhole(n: nat)
    ensures WholeSends(CloseAll(n))
  {
    if n > 0 {
      CloseAllWhole(n - 1);
    }
  }

  /** Every input but the upstream connecting sends whole frames only. */
  lemma ApplyWhole(c: Conn, e: ConnEvent)
    requires AllWhole(c.core.buffered)
    ensures !e.UpstreamConnected? ==> WholeSends(Apply(c, e).actions)
    ensures AllWhole(Apply(c, e).conn.core.buffered)
  {
    match e
    case ClientData(d) =>
      ClientDataWhole(c, d);
    case UpstreamData(d) =>
      CutFramesWhole(c.upstreamRecvBuf + d);
      ReceiveAllWhole(FromBackend, c.core, CutFrames(c.upstreamRecvBuf + d).frames);
    case UpstreamClosed => GoneWhole(c);
    case UpstreamFailed => GoneWhole(c);
    case _ =>
  }

  lemma GoneWhole(c: Conn)
    ensures WholeSends(OnUpstreamClosed(c).actions) && WholeSends(OnUpstreamFailed(c).actions)
  {
    GeneratedFramesWhole([], c.core.lastClientStreamId, 0, ERROR_NO_ERROR);
    GeneratedFramesWhole([], 0, 0, ERROR_INTERNAL_ERROR);
    CloseAllWhole(|c.core.streams|);
  }

  // ---------------------------------------------------------------------
  // Byte streams
  // ---------------------------------------------------------------------

  function DownBytes(acts: seq<ConnAction>): seq<Byte>
  {
    if acts == [] then [] else (if acts[0].DownstreamSend? then acts[0].data else []) + DownBytes(acts[1..])
  }

  function UpBytes(acts: seq<ConnAction>): seq<Byte>
  {
    if acts == [] then [] else (if acts[0].UpstreamSend? then acts[0].data else []) + UpBytes(acts[1..])
  }

  lemma {:induction false} BytesAppend(a: seq<ConnAction>, b: seq<ConnAction>)
    ensures DownBytes(a + b) == DownBytes(a) + DownBytes(b)
    ensures UpBytes(a + b) == UpBytes(a) + UpBytes(b)
  {
    if a == [] {
      assert a + b == b;
    } else {
      assert (a + b)[1..] == a[1..] + b;
      BytesAppend(a[1..], b);
      Associate(if a[0].DownstreamSend? then a[0].data else [], DownBytes(a[1..]), DownBytes(b));
      Associate(if a[0].UpstreamSend? then a[0].data else [], UpBytes(a[1..]), UpBytes(b));
    }
  }

  lemma {:induction false} WholeSendsFramed(acts: seq<ConnAction>)
    requires WholeSends(acts)
    ensures IsFramed(DownBytes(acts)) && IsFramed(UpBytes(acts))
  {
    if acts != [] {
      WholeSendsFramed(acts[1..]);
      if acts[0].DownstreamSend? || acts[0].UpstreamSend? {
        WholeIsFramed(acts[0].data);
        FramedAppend(acts[0].data, DownBytes(acts[1..]));
        FramedAppend(acts[0].data, UpBytes(acts[1..]));
      }
      assert [] + DownBytes(acts[1..]) == DownBytes(acts[1..]);
      assert [] + UpBytes(acts[1..]) == UpBytes(acts[1..]);
    }
  }

  lemma {:induction false} RunBufferedWhole(es: seq<ConnEvent>)
    ensures AllWhole(Run(es).conn.core.buffered)
  {
    if es != [] {
      RunBufferedWhole(es[..|es| - 1]);
      ApplyWhole(Run(es[..|es| - 1]).conn, es[|es| - 1]);
    }
  }

  /** Over any life, the bytes to the client are complete frames with nothing left over. */
  lemma {:induction false} DownstreamIsFramed(es: seq<ConnEvent>)
    ensures IsFramed(DownBytes(Run(es).actions))
  {
    if es != [] {
      var before, e := Run(es[..|es| - 1]), es[|es| - 1];
      var acts := Apply(before.conn, e).actions;
      DownstreamIsFramed(es[..|es| - 1]);
      RunBufferedWhole(es[..|es| - 1]);
      ApplyWhole(before.conn, e);
      BytesAppend(before.actions, acts);
      if e.UpstreamConnected? {
        assert DownBytes(acts) == DownBytes(acts[1..]);
      } else {
        WholeSendsFramed(acts);
      }
      FramedAppend(DownBytes(before.actions), DownBytes(acts));
    }
  }

  // ---------------------------------------------------------------------
  // The upstream byte stream
  // ---------------------------------------------------------------------

  predicate HasConnect(es: seq<ConnEvent>) { exists i :: 0 <= i < |es| && es[i].UpstreamConnected? }

  /** The connection is given one upstream at most, and hears nothing from it before it is connected. */
  ghost predicate OneUpstream(es: seq<ConnEvent>)
  {
    forall i :: 0 <= i < |es| ==>
                  && (es[i].UpstreamConnected? ==> !HasConnect(es[..i]))
                  && (es[i].UpstreamData? ==> HasConnect(es[..i]))
  }

  predicate Connected(u: UpstreamState) { u.UpstreamHandshaking? || u.Ready? }

  lemma {:induction false} ClientFramesQuiet(c: Core, raws: seq<RawFrame>)
    ensures ReceiveAll(FromClient, c, raws).core.upstream == c.upstream
    ensures !c.upstream.Ready? ==> NoUpstreamSends(ReceiveAll(FromClient, c, raws).actions)
    decreases |raws|
  {
    if raws != [] {
      ClientFrameQuiet(c, DecodeFrame(raws[0]), raws[0]);
      ClientFramesQuiet(Receive(FromClient, c, raws[0]).core, raws[1..]);
    }
  }

  predicate NoUpstreamSends(acts: seq<ConnAction>) { forall i :: 0 <= i < |acts| ==> !acts[i].UpstreamSend? }

  lemma ClientFrameQuiet(c: Core, f: Frame, raw: seq<Byte>)
    ensures HandleClientFrame(c, f, raw).core.upstream == c.upstream
    ensures !c.upstream.Ready? ==> NoUpstreamSends(HandleClientFrame(c, f, raw).actions)
  {
    match f.frameType
    case Headers =>
      var started := OpenStream(c, f.streamId);
      var ended := EndIfFlagged(started.core, f, true);
      assert NoUpstreamSends(started.actions) && NoUpstreamSends(ended.actions);
    case Data =>
      var ended := EndIfFlagged(c, f, true);
      assert NoUpstreamSends(ClientCredit(f)) && NoUpstreamSends(ended.actions);
    case _ =>
  }

  /** Client data leaves the upstream state alone, and nothing goes upstream before it is ready. */
  lemma ClientDataQuiet(c: Conn, data: seq<Byte>)
    ensures OnClientData(c, data).conn.core.upstream == c.core.upstream
    ensures !c.core.upstream.Ready? ==> NoUpstreamSends(OnClientData(c, data).actions)
  {
    var buf := c.recvBuf + data;
    if !c.core.phase.AwaitingPreface? {
      ClientFramesQuiet(c.core, CutFrames(buf).frames);
    } else if |buf| >= |CLIENT_PREFACE| {
      ClientFramesQuiet(c.core.(phase := Handshaking), CutFrames(buf[|CLIENT_PREFACE|..]).frames);
    }
  }

  lemma {:induction false} CloseAllNoSends(n: nat)
    ensures NoUpstreamSends(CloseAll(n))
  {
    if n > 0 {
      CloseAllNoSends(n - 1);
    }
  }

  lemma GoneQuiet(c: Conn)
    ensures NoUpstreamSends(OnUpstreamClosed(c).actions) && NoUpstreamSends(OnUpstreamFailed(c).actions)
  {
    CloseAllNoSends(|c.core.streams|);
  }

  lemma {:induction false} NoSendsNoBytes(acts: seq<ConnAction>)
    requires NoUpstreamSends(acts)
    ensures UpBytes(acts) == []
  {
    if acts != [] {
      NoSendsNoBytes(acts[1..]);
    }
  }

  lemma ApplyUnconnected(c: Conn, e: ConnEvent)
    requires !Connected(c.core.upstream) && !e.UpstreamConnected? && !e.UpstreamData?
    ensures !Connected(Apply(c, e).conn.core.upstream) && UpBytes(Apply(c, e).actions) == []
  {
    if e.ClientData? {
      ClientDataQuiet(c, e.data);
    }
    GoneQuiet(c);
    NoSendsNoBytes(Apply(c, e).actions);
  }

  lemma OneUpstreamPrefix(es: seq<ConnEvent>)
    requires OneUpstream(es) && es != []
    ensures OneUpstream(es[..|es| - 1])
    ensures es[|es| - 1].UpstreamConnected? ==> !HasConnect(es[..|es| - 1])
    ensures es[|es| - 1].UpstreamData? ==> HasConnect(es[..|es| - 1])
    ensures HasConnect(es) <==> HasConnect(es[..|es| - 1]) || es[|es| - 1].UpstreamConnected?
  {
    var init := es[..|es| - 1];
    assert es == init + [es[|es| - 1]];
    forall i | 0 <= i < |init| ensures init[..i] == es[..i] && init[i] == es[i] {
    }
  }

  predicate PrefaceThenFrames(bytes: seq<Byte>)
  {
    && |bytes| >= |CLIENT_PREFACE|
    && bytes[..|CLIENT_PREFACE|] == CLIENT_PREFACE
    && IsFramed(bytes[|CLIENT_PREFACE|..])
  }

  /** Over any such life, an upstream hears nothing until connected, then the preface and complete frames. */
  lemma {:induction false} UpstreamIsFramed(es: seq<ConnEvent>)
    requires OneUpstream(es)
    ensures if HasConnect(es) then PrefaceThenFrames(UpBytes(Run(es).actions))
            else UpBytes(Run(es).actions) == [] && !Connected(Run(es).conn.core.upstream)
  {
    if es != [] {
      var init, e := es[..|es| - 1], es[|es| - 1];
      var before := Run(init);
      OneUpstreamPrefix(es);
      UpstreamIsFramed(init);
      RunBufferedWhole(init);
      UpstreamBytesGrow(before.conn, e, UpBytes(before.actions), HasConnect(init));
      BytesAppend(before.actions, Apply(before.conn, e).actions);
    }
  }

  lemma UpstreamBytesGrow(c: Conn, e: ConnEvent, bytes: seq<Byte>, connected: bool)
    requires AllWhole(c.core.buffered)
    requires if connected then PrefaceThenFrames(bytes) else bytes == [] && !Connected(c.core.upstream)
    requires (e.UpstreamConnected? ==> !connected) && (e.UpstreamData? ==> connected)
    ensures var o := Apply(c, e);
            if connected || e.UpstreamConnected? then PrefaceThenFrames(bytes + UpBytes(o.actions))
            else bytes + UpBytes(o.actions) == [] && !Connected(o.conn.core.upstream)
  {
    var acts := Apply(c, e).actions;
    if e.UpstreamConnected? {
      GreetingFramed();
      assert UpBytes(acts) == CLIENT_PREFACE + OurSettings() + UpBytes([]);
      assert bytes + UpBytes(acts) == CLIENT_PREFACE + OurSettings();
    } else if connected {
      ApplyWhole(c, e);
      WholeSendsFramed(acts);
      FramedTail(bytes, UpBytes(acts));
    } else {
      ApplyUnconnected(c, e);
    }
  }

  lemma GreetingFramed()
    ensures PrefaceThenFrames(CLIENT_PREFACE + OurSettings())
  {
    GeneratedFramesWhole([], 0, 0, 0);
    WholeIsFramed(OurSettings());
    assert (CLIENT_PREFACE + OurSettings())[..|CLIENT_PREFACE|] == CLIENT_PREFACE;
    assert (CLIENT_PREFACE + OurSettings())[|CLIENT_PREFACE|..] == OurSettings();
  }

  lemma FramedTail(bytes: seq<Byte>, more: seq<Byte>)
    requires PrefaceThenFrames(bytes) && IsFramed(more)
    ensures PrefaceThenFrames(bytes + more)
  {
    CutWithin(bytes, more, |CLIENT_PREFACE|);
    FramedAppend(bytes[|CLIENT_PREFACE|..], more);
  }
}
