/**
 * One proxied HTTP/2 connection, as a function on values: what each input does to the state and
 * which actions it emits. The class in Http2ConnectionImpl.dfy is proved to compute these functions.
 */
module Http2Connection {
  import opened Common
  import opened Http2Frames

  datatype Phase = AwaitingPreface | Handshaking | Active | Closing

  datatype UpstreamState = NoUpstream | Connecting | UpstreamHandshaking | Ready | Failed

  datatype H2Stream = H2Stream(id: nat, clientEnd: bool, backendEnd: bool)

  /** Who produced the bytes of a send: a label for stating conservation, with no effect on behaviour. */
  datatype Origin = Proxy | Client | Backend

  datatype ConnAction =
    | DownstreamSend(data: seq<Byte>, origin: Origin)
    | UpstreamSend(data: seq<Byte>, origin: Origin)
    | DownstreamClose
    | UpstreamClose
    | StreamOpened
    | StreamClosed
    | Log(message: string)

  /** Everything but the two reassembly buffers; frames act on this part only. */
  datatype Core = Core(
    phase: Phase,
    upstream: UpstreamState,
    streams: seq<H2Stream>,
    buffered: seq<seq<Byte>>,
    clientAcked: bool,
    upstreamAcked: bool,
    lastClientStreamId: nat)

  datatype Conn = Conn(core: Core, recvBuf: seq<Byte>, upstreamRecvBuf: seq<Byte>)

  datatype Outcome = Outcome(core: Core, actions: seq<ConnAction>)

  datatype ConnOutcome = ConnOutcome(conn: Conn, actions: seq<ConnAction>)

  const NEW_CONN := Conn(Core(AwaitingPreface, NoUpstream, [], [], false, false, 0), [], [])

  // ---------------------------------------------------------------------
  // The stream table
  // ---------------------------------------------------------------------

  predicate HasStream(ss: seq<H2Stream>, id: nat) { exists i :: 0 <= i < |ss| && ss[i].id == id }

  function RemoveStream(ss: seq<H2Stream>, id: nat): seq<H2Stream>
  {
    if ss == [] then []
    else (if ss[0].id == id then [] else [ss[0]]) + RemoveStream(ss[1..], id)
  }

  /** Marks the first entry for `id` as ended by the given side. */
  function MarkEnd(ss: seq<H2Stream>, id: nat, byClient: bool): seq<H2Stream>
  {
    if ss == [] then []
    else if ss[0].id == id then
      [if byClient then ss[0].(clientEnd := true) else ss[0].(backendEnd := true)] + ss[1..]
    else [ss[0]] + MarkEnd(ss[1..], id, byClient)
  }

  predicate BothEnded(ss: seq<H2Stream>, id: nat)
  {
    exists i :: 0 <= i < |ss| && ss[i].id == id && ss[i].clientEnd && ss[i].backendEnd
  }

  /** END_STREAM from one side: mark it, and drop the stream once both sides have ended it. */
  function EndStream(c: Core, id: nat, byClient: bool): Outcome
  {
    var ss := MarkEnd(c.streams, id, byClient);
    if BothEnded(ss, id) then Outcome(c.(streams := RemoveStream(ss, id)), [StreamClosed])
    else Outcome(c.(streams := ss), [])
  }

  function EndIfFlagged(c: Core, f: Frame, byClient: bool): Outcome
  {
    if LowFlag(f) then EndStream(c, f.streamId, byClient) else Outcome(c, [])
  }

  function OpenStream(c: Core, id: nat): Outcome
  {
    if id > 0 && !HasStream(c.streams, id) then
      Outcome(c.(streams := c.streams + [H2Stream(id, false, false)],
                 lastClientStreamId := if id > c.lastClientStreamId then id else c.lastClientStreamId),
              [StreamOpened])
    else Outcome(c, [])
  }

  function ResetStream(c: Core, id: nat): Outcome
  {
    if HasStream(c.streams, id) then Outcome(c.(streams := RemoveStream(c.streams, id)), [StreamClosed])
    else Outcome(c, [])
  }

  /** One `StreamClosed` per stream still open when the upstream goes away. */
  function CloseAll(n: nat): seq<ConnAction>
  {
    if n == 0 then [] else [StreamClosed] + CloseAll(n - 1)
  }

  // ---------------------------------------------------------------------
  // Frames
  // ---------------------------------------------------------------------

  function BufferOrForward(c: Core, raw: seq<Byte>): Outcome
  {
    if c.upstream.Ready? then Outcome(c, [UpstreamSend(raw, Client)])
    else Outcome(c.(buffered := c.buffered + [raw]), [])
  }

  function Sends(frames: seq<seq<Byte>>): seq<ConnAction>
  {
    if frames == [] then [] else [UpstreamSend(frames[0], Client)] + Sends(frames[1..])
  }

  function HandleClientFrame(c: Core, f: Frame, raw: seq<Byte>): Outcome
  {
    match f.frameType
    case Settings =>
      if LowFlag(f) then
        Outcome(c.(clientAcked := true, phase := if c.phase.Handshaking? then Active else c.phase), [])
      else Outcome(c, [DownstreamSend(SettingsAck(), Proxy)])
    case Ping =>
      Outcome(c, if LowFlag(f) then [] else [DownstreamSend(PingAck(f.payload), Proxy)])
    case Headers =>
      var started := OpenStream(c, f.streamId);
      var ended := EndIfFlagged(started.core, f, true);
      var sent := BufferOrForward(ended.core, raw);
      Outcome(sent.core, started.actions + ended.actions + sent.actions)
    case Data =>
      var ended := EndIfFlagged(c, f, true);
      var sent := BufferOrForward(ended.core, raw);
      Outcome(sent.core, ClientCredit(f) + ended.actions + sent.actions)
    case RstStream =>
      var reset := ResetStream(c, f.streamId);
      var sent := BufferOrForward(reset.core, raw);
      Outcome(sent.core, reset.actions + sent.actions)
    case Goaway =>
      BufferOrForward(c.(phase := Closing), raw)
    case _ =>
      BufferOrForward(c, raw)
  }

  /** WINDOW_UPDATE frames returned for a DATA frame: the connection's, then the stream's. */
  function ClientCredit(f: Frame): seq<ConnAction>
  {
    var n := |f.payload| % 0x1_0000_0000;
    if n == 0 then []
    else [DownstreamSend(WindowUpdateFrame(0, n), Proxy)]
         + if f.streamId > 0 then [DownstreamSend(WindowUpdateFrame(f.streamId, n), Proxy)] else []
  }

  function UpstreamCredit(f: Frame): seq<ConnAction>
  {
    var n := |f.payload| % 0x1_0000_0000;
    if n == 0 then []
    else [UpstreamSend(WindowUpdateFrame(0, n), Proxy)]
         + if f.streamId > 0 then [UpstreamSend(WindowUpdateFrame(f.streamId, n), Proxy)] else []
  }

  /** The backend's first SETTINGS frame of either kind completes its handshake and flushes the buffer. */
  function BecomeReady(c: Core): Outcome
  {
    if c.upstream.UpstreamHandshaking? then Outcome(c.(upstream := Ready, buffered := []), Sends(c.buffered))
    else Outcome(c, [])
  }

  function HandleUpstreamFrame(c: Core, f: Frame, raw: seq<Byte>): Outcome
  {
    match f.frameType
    case Settings =>
      if LowFlag(f) then BecomeReady(c.(upstreamAcked := true))
      else
        var ready := BecomeReady(c);
        Outcome(ready.core, [UpstreamSend(SettingsAck(), Proxy)] + ready.actions)
    case Ping =>
      Outcome(c, if LowFlag(f) then [] else [UpstreamSend(PingAck(f.payload), Proxy)])
    case Data =>
      var ended := EndIfFlagged(c, f, false);
      Outcome(ended.core, UpstreamCredit(f) + ended.actions + [DownstreamSend(raw, Backend)])
    case Headers =>
      var ended := EndIfFlagged(c, f, false);
      Outcome(ended.core, ended.actions + [DownstreamSend(raw, Backend)])
    case RstStream =>
      var reset := ResetStream(c, f.streamId);
      Outcome(reset.core, reset.actions + [DownstreamSend(raw, Backend)])
    case Goaway =>
      Outcome(c.(phase := Closing), [DownstreamSend(raw, Backend)])
    case _ =>
      Outcome(c, [DownstreamSend(raw, Backend)])
  }

  datatype Side = FromClient | FromBackend

  /** One frame off the wire. Client frames are discarded once the connection is closing. */
  function Receive(side: Side, c: Core, raw: RawFrame): Outcome
  {
    if side.FromBackend? then HandleUpstreamFrame(c, DecodeFrame(raw), raw)
    else if c.phase.Closing? then Outcome(c, [])
    else HandleClientFrame(c, DecodeFrame(raw), raw)
  }

  lemma StreamsKeepPhase(c: Core, f: Frame, byClient: bool, raw: seq<Byte>)
    ensures OpenStream(c, f.streamId).core.phase == c.phase && EndIfFlagged(c, f, byClient).core.phase == c.phase
    ensures ResetStream(c, f.streamId).core.phase == c.phase && BufferOrForward(c, raw).core.phase == c.phase
  {
  }

  /** What a client frame does to the phase. */
  lemma ClientFramePhase(c: Core, f: Frame, raw: seq<Byte>)
    ensures HandleClientFrame(c, f, raw).core.phase
            == if f.frameType.Goaway? then Closing
               else if f.frameType.Settings? && LowFlag(f) && c.phase.Handshaking? then Active
               else c.phase
  {
    match f.frameType
    case Headers =>
      var started := OpenStream(c, f.streamId).core;
      var ended := EndIfFlagged(started, f, true).core;
      StreamsKeepPhase(c, f, true, raw);
      StreamsKeepPhase(started, f, true, raw);
      StreamsKeepPhase(ended, f, true, raw);
    case Data =>
      StreamsKeepPhase(c, f, true, raw);
      StreamsKeepPhase(EndIfFlagged(c, f, true).core, f, true, raw);
    case RstStream =>
      StreamsKeepPhase(c, f, true, raw);
      StreamsKeepPhase(ResetStream(c, f.streamId).core, f, true, raw);
    case _ =>
  }

  type FrameStep = (Core, RawFrame) -> Outcome

  /** Feeds frames to a handler in order, collecting the actions. */
  function Fold(step: FrameStep, c: Core, raws: seq<RawFrame>): Outcome
    decreases |raws|
  {
    if raws == [] then Outcome(c, [])
    else
      var first := step(c, raws[0]);
      var others := Fold(step, first.core, raws[1..]);
      Outcome(others.core, first.actions + others.actions)
  }

  lemma {:induction false} FoldAppend(step: FrameStep, c: Core, a: seq<RawFrame>, b: seq<RawFrame>)
    ensures Fold(step, c, a + b).core == Fold(step, Fold(step, c, a).core, b).core
    ensures Fold(step, c, a + b).actions == Fold(step, c, a).actions + Fold(step, Fold(step, c, a).core, b).actions
    decreases |a|
  {
    if a == [] {
      assert a + b == b;
    } else {
      assert (a + b)[1..] == a[1..] + b;
      FoldAppend(step, step(c, a[0]).core, a[1..], b);
    }
  }

  function Receiver(side: Side): FrameStep { (c: Core, raw: RawFrame) => Receive(side, c, raw) }

  function ReceiveAll(side: Side, c: Core, raws: seq<RawFrame>): Outcome { Fold(Receiver(side), c, raws) }

  // ---------------------------------------------------------------------
  // Inputs
  // ---------------------------------------------------------------------

  datatype Drained = Drained(core: Core, actions: seq<ConnAction>, rest: seq<Byte>)

  /** Handles every complete frame of `buf` and keeps the remainder. */
  function Drain(side: Side, c: Core, buf: seq<Byte>): Drained
  {
    var cut := CutFrames(buf);
    var o := ReceiveAll(side, c, cut.frames);
    Drained(o.core, o.actions, cut.rest)
  }

  /** Draining one frame at a time. */
  lemma DrainStep(side: Side, c: Core, buf: seq<Byte>)
    ensures Complete(buf) == None ==> Drain(side, c, buf) == Drained(c, [], buf)
    ensures Complete(buf).Some? ==>
              var n := Complete(buf).value;
              var first := Receive(side, c, buf[..n]);
              var others := Drain(side, first.core, buf[n..]);
              Drain(side, c, buf) == Drained(others.core, first.actions + others.actions, others.rest)
  {
    if Complete(buf).Some? {
      var n := Complete(buf).value;
      assert CutFrames(buf).frames[1..] == CutFrames(buf[n..]).frames;
      FoldFirst(Receiver(side), c, CutFrames(buf).frames);
    }
  }

  lemma FoldFirst(step: FrameStep, c: Core, raws: seq<RawFrame>)
    requires raws != []
    ensures var first := step(c, raws[0]);
            Fold(step, c, raws) == Outcome(Fold(step, first.core, raws[1..]).core,
                                           first.actions + Fold(step, first.core, raws[1..]).actions)
  {
  }

  function DrainClient(c: Conn, buf: seq<Byte>): ConnOutcome
  {
    var o := Drain(FromClient, c.core, buf);
    ConnOutcome(c.(core := o.core, recvBuf := o.rest), o.actions)
  }

  function OnClientData(c: Conn, data: seq<Byte>): ConnOutcome
  {
    var buf := c.recvBuf + data;
    if !c.core.phase.AwaitingPreface? then DrainClient(c, buf)
    else if |buf| < |CLIENT_PREFACE| then ConnOutcome(c.(recvBuf := buf), [])
    else if buf[..|CLIENT_PREFACE|] != CLIENT_PREFACE then
      ConnOutcome(c.(core := c.core.(phase := Closing), recvBuf := buf),
                  [Log("invalid H2 preface"), DownstreamClose])
    else
      Greet(c, buf[|CLIENT_PREFACE|..])
  }

  /** The preface has arrived, followed by `buf`. */
  function Greet(c: Conn, buf: seq<Byte>): ConnOutcome
  {
    var o := DrainClient(c.(core := c.core.(phase := Handshaking)), buf);
    ConnOutcome(o.conn, [DownstreamSend(OurSettings(), Proxy)] + o.actions)
  }

  function OnUpstreamConnected(c: Conn): ConnOutcome
  {
    ConnOutcome(c.(core := c.core.(upstream := UpstreamHandshaking)),
                [UpstreamSend(CLIENT_PREFACE + OurSettings(), Proxy)])
  }

  function OnUpstreamData(c: Conn, data: seq<Byte>): ConnOutcome
  {
    var o := Drain(FromBackend, c.core, c.upstreamRecvBuf + data);
    ConnOutcome(c.(core := o.core, upstreamRecvBuf := o.rest), o.actions)
  }

  function OnUpstreamClosed(c: Conn): ConnOutcome
  {
    ConnOutcome(c.(core := c.core.(upstream := Failed, phase := Closing, streams := [])),
                (if c.core.phase.Closing? then []
                 else [DownstreamSend(GoawayFrame(c.core.lastClientStreamId, ERROR_NO_ERROR), Proxy), DownstreamClose])
                + CloseAll(|c.core.streams|))
  }

  function OnUpstreamFailed(c: Conn): ConnOutcome
  {
    ConnOutcome(c.(core := c.core.(upstream := Failed, phase := Closing, streams := [])),
                [DownstreamSend(GoawayFrame(0, ERROR_INTERNAL_ERROR), Proxy), DownstreamClose]
                + CloseAll(|c.core.streams|))
  }

  function SetUpstream(c: Conn, state: UpstreamState): Conn
  {
    c.(core := c.core.(upstream := state))
  }
}
