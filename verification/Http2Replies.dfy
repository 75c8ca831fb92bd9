/**
 * What each side of a connection hears: the client gets the backend's frames and the proxy's own answers and
 * notices, the backend gets the proxy's greeting and answers. The reference is the two byte streams alone.
 */
module Http2Replies {
  import opened Common
  import opened Http2Frames
  import opened Http2Connection
  import opened Http2StreamTable
  import opened Http2Chunking
  import opened Http2Delivery
  import opened Http2StreamLife
  import W = Http2Framing

  // ---------------------------------------------------------------------
  // Picking actions
  // ---------------------------------------------------------------------

  function Picked<T>(pick: ConnAction -> seq<T>, acts: seq<ConnAction>): seq<T>
  {
    if acts == [] then [] else pick(acts[0]) + Picked(pick, acts[1..])
  }

  lemma {:induction false} PickedAppend<T>(pick: ConnAction -> seq<T>, a: seq<ConnAction>, b: seq<ConnAction>)
    ensures Picked(pick, a + b) == Picked(pick, a) + Picked(pick, b)
  {
    if a == [] {
      assert a + b == b;
    } else {
      assert (a + b)[1..] == a[1..] + b;
      PickedAppend(pick, a[1..], b);
      Associate(pick(a[0]), Picked(pick, a[1..]), Picked(pick, b));
    }
  }

  lemma PickedOne<T>(pick: ConnAction -> seq<T>, a: ConnAction)
    ensures Picked(pick, [a]) == pick(a)
  {
    assert [a][1..] == [];
    assert pick(a) + [] == pick(a);
  }

  lemma {:induction false} PickedNone<T>(pick: ConnAction -> seq<T>, acts: seq<ConnAction>)
    requires forall i :: 0 <= i < |acts| ==> pick(acts[i]) == []
    ensures Picked(pick, acts) == []
  {
    if acts != [] {
      PickedNone(pick, acts[1..]);
    }
  }

  /** Backend bytes that go to the client. */
  function BackendSend(a: ConnAction): seq<seq<Byte>>
  {
    if a.DownstreamSend? && a.origin.Backend? then [a.data] else []
  }

  /** Everything else that is done to the client. */
  function ToClient(a: ConnAction): seq<ConnAction>
  {
    if (a.DownstreamSend? && !a.origin.Backend?) || a.DownstreamClose? then [a] else []
  }

  /** Everything but client frames that goes to the backend. */
  function ToBackend(a: ConnAction): seq<seq<Byte>>
  {
    if a.UpstreamSend? && !a.origin.Client? then [a.data] else []
  }

  function BackendSends(acts: seq<ConnAction>): seq<seq<Byte>> { Picked(BackendSend, acts) }

  function ProxyToClient(acts: seq<ConnAction>): seq<ConnAction> { Picked(ToClient, acts) }

  function ProxyToBackend(acts: seq<ConnAction>): seq<seq<Byte>> { Picked(ToBackend, acts) }

  lemma HeardAppend(a: seq<ConnAction>, b: seq<ConnAction>)
    ensures BackendSends(a + b) == BackendSends(a) + BackendSends(b)
    ensures ProxyToClient(a + b) == ProxyToClient(a) + ProxyToClient(b)
    ensures ProxyToBackend(a + b) == ProxyToBackend(a) + ProxyToBackend(b)
  {
    PickedAppend(BackendSend, a, b);
    PickedAppend(ToClient, a, b);
    PickedAppend(ToBackend, a, b);
  }

  /** What a list of actions amounts to for the two sides. */
  ghost predicate Hears(acts: seq<ConnAction>, relayed: seq<seq<Byte>>, down: seq<ConnAction>, up: seq<seq<Byte>>)
  {
    BackendSends(acts) == relayed && ProxyToClient(acts) == down && ProxyToBackend(acts) == up
  }

  lemma HearsThen(a: seq<ConnAction>, b: seq<ConnAction>,
                  relayed: seq<seq<Byte>>, down: seq<ConnAction>, up: seq<seq<Byte>>,
                  relayed': seq<seq<Byte>>, down': seq<ConnAction>, up': seq<seq<Byte>>)
    requires Hears(a, relayed, down, up) && Hears(b, relayed', down', up')
    ensures Hears(a + b, relayed + relayed', down + down', up + up')
  {
    HeardAppend(a, b);
  }

  /** Actions that neither side hears of: counting, logging and client frames. */
  predicate Unheard(a: ConnAction)
  {
    BackendSend(a) == [] && ToClient(a) == [] && ToBackend(a) == []
  }

  predicate AllUnheard(acts: seq<ConnAction>) { forall i :: 0 <= i < |acts| ==> Unheard(acts[i]) }

  lemma UnheardIsSilent(acts: seq<ConnAction>)
    requires AllUnheard(acts)
    ensures Hears(acts, [], [], [])
  {
    PickedNone(BackendSend, acts);
    PickedNone(ToClient, acts);
    PickedNone(ToBackend, acts);
  }

  lemma OneHeard(a: ConnAction)
    ensures Hears([a], BackendSend(a), ToClient(a), ToBackend(a))
  {
    PickedOne(BackendSend, a);
    PickedOne(ToClient, a);
    PickedOne(ToBackend, a);
  }

  /** Silence before and after one action. */
  lemma OnlyHeard(a: seq<ConnAction>, x: ConnAction)
    requires AllUnheard(a)
    ensures Hears(a + [x], BackendSend(x), ToClient(x), ToBackend(x))
  {
    UnheardIsSilent(a);
    OneHeard(x);
    HearsThen(a, [x], [], [], [], BackendSend(x), ToClient(x), ToBackend(x));
    assert [] + BackendSend(x) == BackendSend(x) && [] + ToClient(x) == ToClient(x);
    assert [] + ToBackend(x) == ToBackend(x);
  }

  lemma HeardThenSilence(a: seq<ConnAction>, b: seq<ConnAction>,
                         relayed: seq<seq<Byte>>, down: seq<ConnAction>, up: seq<seq<Byte>>)
    requires Hears(a, relayed, down, up) && AllUnheard(b)
    ensures Hears(a + b, relayed, down, up)
  {
    UnheardIsSilent(b);
    HearsThen(a, b, relayed, down, up, [], [], []);
    assert relayed + [] == relayed && down + [] == down && up + [] == up;
  }

  // ---------------------------------------------------------------------
  // The reference: what a frame is answered with
  // ---------------------------------------------------------------------

  /** SETTINGS and PING are acknowledged, and DATA is credited in full to the connection and its stream. */
  function Answer(raw: RawFrame): seq<seq<Byte>>
  {
    var f := DecodeFrame(raw);
    match f.frameType
    case Settings => if LowFlag(f) then [] else [SettingsAck()]
    case Ping => if LowFlag(f) then [] else [PingAck(f.payload)]
    case Data => Credit(f.streamId, |f.payload|)
    case _ => []
  }

  function Credit(id: nat, n: nat): seq<seq<Byte>>
  {
    if n == 0 then []
    else if id > 0 then [WindowUpdateFrame(0, n), WindowUpdateFrame(id, n)]
    else [WindowUpdateFrame(0, n)]
  }

  function Answers(raws: seq<RawFrame>): seq<seq<Byte>>
  {
    if raws == [] then [] else Answer(raws[0]) + Answers(raws[1..])
  }

  lemma {:induction false} AnswersAppend(a: seq<RawFrame>, b: seq<RawFrame>)
    ensures Answers(a + b) == Answers(a) + Answers(b)
  {
    if a == [] {
      assert a + b == b;
    } else {
      assert (a + b)[1..] == a[1..] + b;
      AnswersAppend(a[1..], b);
      Associate(Answer(a[0]), Answers(a[1..]), Answers(b));
    }
  }

  /** The proxy's own frames, sent to the client. */
  function Down(frames: seq<seq<Byte>>): seq<ConnAction>
  {
    seq(|frames|, i requires 0 <= i < |frames| => DownstreamSend(frames[i], Proxy))
  }

  lemma DownAppend(a: seq<seq<Byte>>, b: seq<seq<Byte>>)
    ensures Down(a + b) == Down(a) + Down(b)
  {
  }

  // ---------------------------------------------------------------------
  // One frame
  // ---------------------------------------------------------------------

  /** A frame whose payload a 32-bit length can count. */
  predicate Countable(raw: RawFrame) { |raw| < 0x1_0000_0000 }

  predicate AllCountable(raws: seq<RawFrame>) { forall i :: 0 <= i < |raws| ==> Countable(raws[i]) }

  lemma WholeIsCountable(raws: seq<RawFrame>)
    requires AllWhole(raws)
    ensures AllCountable(raws)
  {
    forall i | 0 <= i < |raws| ensures Countable(raws[i]) {
      assert IsWholeFrame(raws[i]);
    }
  }

  lemma TableActionsUnheard(c: Core, f: Frame, byClient: bool)
    ensures AllUnheard(EndIfFlagged(c, f, byClient).actions)
    ensures AllUnheard(OpenStream(c, f.streamId).actions) && AllUnheard(ResetStream(c, f.streamId).actions)
  {
  }

  lemma ForwardUnheard(c: Core, raw: seq<Byte>)
    ensures AllUnheard(BufferOrForward(c, raw).actions)
  {
  }

  lemma {:induction false} SendsUnheard(frames: seq<seq<Byte>>)
    ensures AllUnheard(Sends(frames))
  {
    if frames != [] {
      SendsUnheard(frames[1..]);
    }
  }

  lemma SentDown(wide: seq<Byte>, narrow: seq<Byte>, both: bool)
    ensures Hears([DownstreamSend(wide, Proxy)] + (if both then [DownstreamSend(narrow, Proxy)] else []),
                  [], Down(if both then [wide, narrow] else [wide]), [])
  {
    var one, two := DownstreamSend(wide, Proxy), DownstreamSend(narrow, Proxy);
    OneHeard(one);
    OneHeard(two);
    HearsThen([one], [two], [], [one], [], [], [two], []);
    assert [one] + [] == [one];
    assert Down([wide]) == [one] && Down([wide, narrow]) == [one] + [two];
  }

  lemma ClientCreditHeard(raw: RawFrame)
    requires Countable(raw) && DecodeFrame(raw).frameType.Data?
    ensures Hears(ClientCredit(DecodeFrame(raw)), [], Down(Answer(raw)), [])
  {
    CreditHeard(DecodeFrame(raw), |DecodeFrame(raw).payload|);
  }

  lemma CreditHeard(f: Frame, n: nat)
    requires n == |f.payload| == |f.payload| % 0x1_0000_0000
    ensures Hears(ClientCredit(f), [], Down(Credit(f.streamId, n)), [])
    ensures Hears(UpstreamCredit(f), [], [], Credit(f.streamId, n))
  {
    SentDown(WindowUpdateFrame(0, n), WindowUpdateFrame(f.streamId, n), f.streamId > 0);
    SentUp(WindowUpdateFrame(0, n), WindowUpdateFrame(f.streamId, n), f.streamId > 0);
    UnheardIsSilent([]);
    assert Down([]) == [];
  }

  lemma ClientFrameHeard(c: Core, raw: RawFrame)
    requires Countable(raw)
    ensures Hears(HandleClientFrame(c, DecodeFrame(raw), raw).actions, [], Down(Answer(raw)), [])
  {
    var f := DecodeFrame(raw);
    var acts := HandleClientFrame(c, f, raw).actions;
    match f.frameType
    case Settings =>
      OneHeard(DownstreamSend(SettingsAck(), Proxy));
      UnheardIsSilent([]);
      assert Down([SettingsAck()]) == [DownstreamSend(SettingsAck(), Proxy)];
    case Ping =>
      OneHeard(DownstreamSend(PingAck(f.payload), Proxy));
      UnheardIsSilent([]);
      assert Down([PingAck(f.payload)]) == [DownstreamSend(PingAck(f.payload), Proxy)];
    case Headers =>
      var started := OpenStream(c, f.streamId);
      var ended := EndIfFlagged(started.core, f, true);
      TableActionsUnheard(c, f, true);
      TableActionsUnheard(started.core, f, true);
      ForwardUnheard(ended.core, raw);
      UnheardIsSilent(acts);
    case Data =>
      var ended := EndIfFlagged(c, f, true);
      var sent := BufferOrForward(ended.core, raw);
      ClientCreditHeard(raw);
      TableActionsUnheard(c, f, true);
      ForwardUnheard(ended.core, raw);
      Associate(ClientCredit(f), ended.actions, sent.actions);
      HeardThenSilence(ClientCredit(f), ended.actions + sent.actions, [], Down(Answer(raw)), []);
    case RstStream =>
      TableActionsUnheard(c, f, true);
      ForwardUnheard(ResetStream(c, f.streamId).core, raw);
      UnheardIsSilent(acts);
    case Goaway =>
      ForwardUnheard(c.(phase := Closing), raw);
      UnheardIsSilent(acts);
    case _ =>
      ForwardUnheard(c, raw);
      UnheardIsSilent(acts);
  }

  lemma SentUp(wide: seq<Byte>, narrow: seq<Byte>, both: bool)
    ensures Hears([UpstreamSend(wide, Proxy)] + (if both then [UpstreamSend(narrow, Proxy)] else []),
                  [], [], if both then [wide, narrow] else [wide])
  {
    var one, two := UpstreamSend(wide, Proxy), UpstreamSend(narrow, Proxy);
    OneHeard(one);
    OneHeard(two);
    HearsThen([one], [two], [], [], [wide], [], [], [narrow]);
    assert [one] + [] == [one] && [wide] + [narrow] == [wide, narrow];
  }

  lemma UpstreamCreditHeard(raw: RawFrame)
    requires Countable(raw) && DecodeFrame(raw).frameType.Data?
    ensures Hears(UpstreamCredit(DecodeFrame(raw)), [], [], Answer(raw))
  {
    CreditHeard(DecodeFrame(raw), |DecodeFrame(raw).payload|);
  }

  lemma BackendSettingsHeard(c: Core, raw: RawFrame)
    requires DecodeFrame(raw).frameType.Settings?
    ensures Hears(HandleUpstreamFrame(c, DecodeFrame(raw), raw).actions, [], [], Answer(raw))
  {
    var f := DecodeFrame(raw);
    SendsUnheard(c.buffered);
    if LowFlag(f) {
      UnheardIsSilent(HandleUpstreamFrame(c, f, raw).actions);
    } else {
      OneHeard(UpstreamSend(SettingsAck(), Proxy));
      HeardThenSilence([UpstreamSend(SettingsAck(), Proxy)], BecomeReady(c).actions, [], [], [SettingsAck()]);
    }
  }

  lemma BackendFrameHeard(c: Core, raw: RawFrame)
    requires Countable(raw)
    ensures Hears(HandleUpstreamFrame(c, DecodeFrame(raw), raw).actions, Forwardable([raw]), [], Answer(raw))
  {
    var f := DecodeFrame(raw);
    var down := DownstreamSend(raw, Backend);
    assert [raw][1..] == [];
    match f.frameType
    case Settings =>
      BackendSettingsHeard(c, raw);
    case Ping =>
      OneHeard(UpstreamSend(PingAck(f.payload), Proxy));
      UnheardIsSilent([]);
    case Data =>
      var ended := EndIfFlagged(c, f, false);
      UpstreamCreditHeard(raw);
      TableActionsUnheard(c, f, false);
      OnlyHeard(ended.actions, down);
      HearsThen(UpstreamCredit(f), ended.actions + [down], [], [], Answer(raw), [raw], [], []);
      Associate(UpstreamCredit(f), ended.actions, [down]);
      assert Answer(raw) + [] == Answer(raw);
    case Headers =>
      TableActionsUnheard(c, f, false);
      OnlyHeard(EndIfFlagged(c, f, false).actions, down);
    case RstStream =>
      TableActionsUnheard(c, f, false);
      OnlyHeard(ResetStream(c, f.streamId).actions, down);
    case _ =>
      OneHeard(down);
  }

  // ---------------------------------------------------------------------
  // Runs of frames
  // ---------------------------------------------------------------------

  lemma {:induction false} BackendFramesHeard(c: Core, raws: seq<RawFrame>)
    requires AllCountable(raws)
    ensures Hears(ReceiveAll(FromBackend, c, raws).actions, Forwardable(raws), [], Answers(raws))
    decreases |raws|
  {
    if raws == [] {
      UnheardIsSilent([]);
    } else {
      var first := Receive(FromBackend, c, raws[0]);
      BackendFrameHeard(c, raws[0]);
      BackendFramesHeard(first.core, raws[1..]);
      FoldFirst(Receiver(FromBackend), c, raws);
      HearsThen(first.actions, ReceiveAll(FromBackend, first.core, raws[1..]).actions,
                Forwardable([raws[0]]), [], Answer(raws[0]), Forwardable(raws[1..]), [], Answers(raws[1..]));
      ForwardableAppend([raws[0]], raws[1..]);
      assert raws == [raws[0]] + raws[1..];
    }
  }

  lemma HeededFirst(c: Core, raws: seq<RawFrame>)
    requires raws != []
    ensures var after := Receive(FromClient, c, raws[0]).core.phase;
            Heeded(FromClient, c.phase, raws)
            == (if c.phase.Closing? then [] else [raws[0]]) + Heeded(FromClient, after, raws[1..])
  {
    var after := Receive(FromClient, c, raws[0]).core.phase;
    ClosingOnGoaway(c, raws[0]);
    if !c.phase.Closing? && !DecodeFrame(raws[0]).frameType.Goaway? {
      HeededPhase(FromClient, c.phase, after, raws[1..]);
    }
  }

  lemma {:induction false} ClientFramesHeard(c: Core, raws: seq<RawFrame>)
    requires AllCountable(raws)
    ensures Hears(ReceiveAll(FromClient, c, raws).actions, [], Down(Answers(Heeded(FromClient, c.phase, raws))), [])
    decreases |raws|
  {
    if raws == [] {
      UnheardIsSilent([]);
      assert Down([]) == [];
    } else {
      var first := Receive(FromClient, c, raws[0]);
      var head := if c.phase.Closing? then [] else [raws[0]];
      var tail := Heeded(FromClient, first.core.phase, raws[1..]);
      ClientFrameHeard(c, raws[0]);
      UnheardIsSilent([]);
      OneAnswer(raws[0]);
      ClientFramesHeard(first.core, raws[1..]);
      FoldFirst(Receiver(FromClient), c, raws);
      HearsThen(first.actions, ReceiveAll(FromClient, first.core, raws[1..]).actions,
                [], Down(Answers(head)), [], [], Down(Answers(tail)), []);
      HeededFirst(c, raws);
      AnswersAppend(head, tail);
      DownAppend(Answers(head), Answers(tail));
    }
  }

  lemma OneAnswer(raw: RawFrame)
    ensures Answers([raw]) == Answer(raw) && Down(Answers([])) == []
  {
    assert [raw][1..] == [];
    assert Answer(raw) + [] == Answer(raw);
  }

  // ---------------------------------------------------------------------
  // The last stream a client opened
  // ---------------------------------------------------------------------

  /** The highest stream id among the HEADERS frames. */
  function LastOpened(raws: seq<RawFrame>): nat
  {
    if raws == [] then 0
    else
      var f, before := DecodeFrame(raws[|raws| - 1]), LastOpened(raws[..|raws| - 1]);
      if f.frameType.Headers? && f.streamId > before then f.streamId else before
  }

  predicate Below(ss: seq<H2Stream>, n: nat) { forall i :: 0 <= i < |ss| ==> ss[i].id <= n }

  lemma {:induction false} RemoveStreamBelow(ss: seq<H2Stream>, id: nat, n: nat)
    requires Below(ss, n)
    ensures Below(RemoveStream(ss, id), n)
  {
    if ss != [] {
      RemoveStreamBelow(ss[1..], id, n);
    }
  }

  lemma {:induction false} MarkEndBelow(ss: seq<H2Stream>, id: nat, byClient: bool, n: nat)
    requires Below(ss, n)
    ensures Below(MarkEnd(ss, id, byClient), n)
  {
    if ss != [] {
      MarkEndBelow(ss[1..], id, byClient, n);
    }
  }

  /** No stream in the table is above the last one the client opened. */
  predicate LastKnown(c: Core, n: nat) { c.lastClientStreamId == n && Below(c.streams, n) }

  lemma TableKeepsLast(c: Core, f: Frame, byClient: bool, n: nat)
    requires LastKnown(c, n)
    ensures LastKnown(EndIfFlagged(c, f, byClient).core, n) && LastKnown(ResetStream(c, f.streamId).core, n)
  {
    MarkEndBelow(c.streams, f.streamId, byClient, n);
    RemoveStreamBelow(c.streams, f.streamId, n);
    RemoveStreamBelow(MarkEnd(c.streams, f.streamId, byClient), f.streamId, n);
  }

  lemma BackendFrameKeepsLast(c: Core, raw: RawFrame, n: nat)
    requires LastKnown(c, n)
    ensures LastKnown(Receive(FromBackend, c, raw).core, n)
  {
    TableKeepsLast(c, DecodeFrame(raw), false, n);
  }

  lemma {:induction false} BackendFramesKeepLast(c: Core, raws: seq<RawFrame>, n: nat)
    requires LastKnown(c, n)
    ensures LastKnown(ReceiveAll(FromBackend, c, raws).core, n)
    decreases |raws|
  {
    if raws != [] {
      BackendFrameKeepsLast(c, raws[0], n);
      BackendFramesKeepLast(Receive(FromBackend, c, raws[0]).core, raws[1..], n);
    }
  }

  lemma ClientFrameLast(c: Core, raw: RawFrame, n: nat)
    requires LastKnown(c, n) && !c.phase.Closing?
    ensures var f := DecodeFrame(raw);
            LastKnown(Receive(FromClient, c, raw).core,
                      if f.frameType.Headers? && f.streamId > n then f.streamId else n)
  {
    var f := DecodeFrame(raw);
    OpenedLast(c, f.streamId, n);
    match f.frameType
    case Headers =>
      TableKeepsLast(OpenStream(c, f.streamId).core, f, true, if f.streamId > n then f.streamId else n);
    case Data => TableKeepsLast(c, f, true, n);
    case RstStream => TableKeepsLast(c, f, true, n);
    case _ =>
  }

  lemma OpenedLast(c: Core, id: nat, n: nat)
    requires LastKnown(c, n)
    ensures LastKnown(OpenStream(c, id).core, if id > n then id else n)
  {
  }

  lemma {:induction false} ClientFramesLast(c: Core, past: seq<RawFrame>, raws: seq<RawFrame>)
    requires LastKnown(c, LastOpened(past))
    ensures LastKnown(ReceiveAll(FromClient, c, raws).core, LastOpened(past + Heeded(FromClient, c.phase, raws)))
    decreases |raws|
  {
    var heeded := Heeded(FromClient, c.phase, raws);
    if raws == [] || c.phase.Closing? {
      assert past + [] == past;
      if c.phase.Closing? {
        FoldSilent(c, raws);
      }
    } else {
      var first := Receive(FromClient, c, raws[0]).core;
      ClientFrameLast(c, raws[0], LastOpened(past));
      assert (past + [raws[0]])[..|past|] == past;
      ClientFramesLast(first, past + [raws[0]], raws[1..]);
      HeededFirst(c, raws);
      Associate(past, [raws[0]], Heeded(FromClient, first.phase, raws[1..]));
    }
  }

  // ---------------------------------------------------------------------
  // The reference: what the two byte streams call for
  // ---------------------------------------------------------------------

  /** The client frames that count: those after a good preface, up to the client's first GOAWAY. */
  function HeededFrames(bytes: seq<Byte>): seq<RawFrame>
  {
    if GoodPreface(bytes) then Heeded(FromClient, Active, CutFrames(bytes[|CLIENT_PREFACE|..]).frames) else []
  }

  predicate BadPreface(bytes: seq<Byte>) { |bytes| >= |CLIENT_PREFACE| && !GoodPreface(bytes) }

  /** A bad preface is hung up on; a good one is greeted, and the frames after it are answered. */
  function ClientHears(bytes: seq<Byte>): seq<ConnAction>
  {
    if BadPreface(bytes) then [DownstreamClose]
    else if GoodPreface(bytes) then [DownstreamSend(OurSettings(), Proxy)] + Down(Answers(HeededFrames(bytes)))
    else []
  }

  /** One side has ended the conversation. */
  predicate Over(l: Ledger)
  {
    || l.ended
    || BadPreface(l.clientBytes)
    || (GoodPreface(l.clientBytes) && HasGoaway(CutFrames(l.clientBytes[|CLIENT_PREFACE|..]).frames))
  }

  /** A backend that goes away is announced unless the conversation is over; one that fails always is. */
  function Notice(l: Ledger, e: ConnEvent): seq<ConnAction>
  {
    match e
    case UpstreamClosed =>
      if Over(l) then []
      else [DownstreamSend(GoawayFrame(LastOpened(HeededFrames(l.clientBytes)), 0), Proxy), DownstreamClose]
    case UpstreamFailed => [DownstreamSend(GoawayFrame(0, 2), Proxy), DownstreamClose]
    case _ => []
  }

  function Notices(es: seq<ConnEvent>): seq<ConnAction>
  {
    if es == [] then [] else Notices(es[..|es| - 1]) + Notice(LedgerOf(es[..|es| - 1]), es[|es| - 1])
  }

  const HELLO: seq<Byte> := CLIENT_PREFACE + OurSettings()

  /** Each new upstream is greeted, and each backend frame answered as it becomes complete. */
  function BackendHearsOf(l: Ledger, e: ConnEvent): seq<seq<Byte>>
  {
    match e
    case UpstreamConnected => [HELLO]
    case UpstreamData(d) => Answers(BackendFrames(l.backendBytes, d))
    case _ => []
  }

  function BackendHears(es: seq<ConnEvent>): seq<seq<Byte>>
  {
    if es == [] then []
    else BackendHears(es[..|es| - 1]) + BackendHearsOf(LedgerOf(es[..|es| - 1]), es[|es| - 1])
  }

  // ---------------------------------------------------------------------
  // One input
  // ---------------------------------------------------------------------

  lemma PhaseTellsOver(c: Conn, l: Ledger)
    requires Tracks(c, l)
    ensures c.core.phase.Closing? <==> Over(l)
  {
  }

  /** `d` arrives after `bytes`, on a connection that is in `phase`. */
  lemma HeededGrows(phase: Phase, bytes: seq<Byte>, d: seq<Byte>)
    requires GoodPreface(bytes + d)
    requires phase.Closing? <==> GoodPreface(bytes) && HasGoaway(CutFrames(bytes[|CLIENT_PREFACE|..]).frames)
    ensures HeededFrames(bytes + d) == HeededFrames(bytes) + Heeded(FromClient, phase, ClientFrames(bytes, d))
  {
    var n := |CLIENT_PREFACE|;
    if |bytes| < n {
      HeededPhase(FromClient, Active, phase, ClientFrames(bytes, d));
    } else {
      CutWithin(bytes, d, n);
      var past, more := CutFrames(bytes[n..]).frames, ClientFrames(bytes, d);
      CutFramesAppend(bytes[n..], d);
      HeededAppend(Active, past, more);
      if !phase.Closing? {
        HeededPhase(FromClient, Active, phase, more);
      } else {
        assert Heeded(FromClient, phase, more) == [];
      }
    }
  }

  lemma ClientFramesCountable(bytes: seq<Byte>, d: seq<Byte>)
    ensures AllCountable(ClientFrames(bytes, d)) && AllCountable(BackendFrames(bytes, d))
  {
    CutFramesWhole((bytes + d)[if |bytes + d| < |CLIENT_PREFACE| then 0 else |CLIENT_PREFACE|..]);
    CutFramesWhole(CutFrames(bytes[if |bytes| < |CLIENT_PREFACE| then 0 else |CLIENT_PREFACE|..]).rest + d);
    CutFramesWhole(CutFrames(bytes).rest + d);
    WholeIsCountable(ClientFrames(bytes, d));
    WholeIsCountable(BackendFrames(bytes, d));
  }

  /** What client data does, frame by frame. */
  lemma ClientDataParts(c: Conn, bytes: seq<Byte>, d: seq<Byte>)
    requires TracksClient(c, bytes) && GoodPreface(bytes + d)
    ensures var start := if c.core.phase.AwaitingPreface? then c.core.(phase := Handshaking) else c.core;
            var hello := if c.core.phase.AwaitingPreface? then [DownstreamSend(OurSettings(), Proxy)] else [];
            var o := ReceiveAll(FromClient, start, ClientFrames(bytes, d));
            && OnClientData(c, d).conn.core == o.core && OnClientData(c, d).actions == hello + o.actions
            && (c.core.phase.AwaitingPreface? <==> |bytes| < |CLIENT_PREFACE|)
  {
    ClientDataCore(c, bytes, d);
    if |bytes| >= |CLIENT_PREFACE| {
      assert (bytes + d)[..|CLIENT_PREFACE|] == bytes[..|CLIENT_PREFACE|];
      var acts := OnClientData(c, d).actions;
      assert [] + acts == acts;
    }
  }

  lemma GoodDataHeard(c: Conn, bytes: seq<Byte>, d: seq<Byte>) returns (down: seq<ConnAction>)
    requires TracksClient(c, bytes) && GoodPreface(bytes + d) && LastKnown(c.core, LastOpened(HeededFrames(bytes)))
    ensures Hears(OnClientData(c, d).actions, [], down, []) && ClientHears(bytes + d) == ClientHears(bytes) + down
    ensures LastKnown(OnClientData(c, d).conn.core, LastOpened(HeededFrames(bytes + d)))
  {
    var start := if c.core.phase.AwaitingPreface? then c.core.(phase := Handshaking) else c.core;
    var hello := if c.core.phase.AwaitingPreface? then [DownstreamSend(OurSettings(), Proxy)] else [];
    var raws := ClientFrames(bytes, d);
    var answers := Down(Answers(Heeded(FromClient, start.phase, raws)));
    if |bytes| >= |CLIENT_PREFACE| {
      assert (bytes + d)[..|CLIENT_PREFACE|] == bytes[..|CLIENT_PREFACE|];
    }
    ClientDataParts(c, bytes, d);
    ClientFramesCountable(bytes, d);
    ClientFramesHeard(start, raws);
    HelloHeard();
    UnheardIsSilent([]);
    HearsThen(hello, ReceiveAll(FromClient, start, raws).actions, [], hello, [], [], answers, []);
    HeededGrows(start.phase, bytes, d);
    HearsMore(HeededFrames(bytes), Heeded(FromClient, start.phase, raws));
    ClientFramesLast(start, HeededFrames(bytes), raws);
    down := hello + answers;
  }

  lemma HelloHeard()
    ensures var hello := DownstreamSend(OurSettings(), Proxy); Hears([hello], [], [hello], [])
  {
    OneHeard(DownstreamSend(OurSettings(), Proxy));
  }

  lemma HearsMore(past: seq<RawFrame>, more: seq<RawFrame>)
    ensures var hello := [DownstreamSend(OurSettings(), Proxy)];
            && hello + Down(Answers(past + more)) == hello + Down(Answers(past)) + Down(Answers(more))
            && (past == [] ==> hello + Down(Answers(past + more)) == [] + (hello + Down(Answers(more))))
  {
    var hello := [DownstreamSend(OurSettings(), Proxy)];
    AnswersAppend(past, more);
    DownAppend(Answers(past), Answers(more));
    Associate(hello, Down(Answers(past)), Down(Answers(more)));
    if past == [] {
      assert past + more == more;
      NothingBefore(hello + Down(Answers(more)));
    }
  }

  lemma NothingBefore<T>(a: seq<T>)
    ensures [] + a == a
  {
  }

  lemma ClientDataHeard(c: Conn, l: Ledger, d: seq<Byte>) returns (down: seq<ConnAction>)
    requires Tracks(c, l) && !l.ended && LastKnown(c.core, LastOpened(HeededFrames(l.clientBytes)))
    ensures var bytes := l.clientBytes;
            && Hears(OnClientData(c, d).actions, [], down, []) && ClientHears(bytes + d) == ClientHears(bytes) + down
            && LastKnown(OnClientData(c, d).conn.core, LastOpened(HeededFrames(bytes + d)))
  {
    var bytes := l.clientBytes;
    UnheardIsSilent([]);
    if GoodPreface(bytes + d) {
      down := GoodDataHeard(c, bytes, d);
    } else if BadPreface(bytes) {
      assert (bytes + d)[..|CLIENT_PREFACE|] == bytes[..|CLIENT_PREFACE|];
      ClosingDropsClientData(c, d);
      down := [];
    } else if BadPreface(bytes + d) {
      assert bytes + d == c.recvBuf + d;
      OnlyHeard([Log("invalid H2 preface")], DownstreamClose);
      down := [DownstreamClose];
    } else {
      down := [];
    }
  }

  lemma UpstreamDataHeard(c: Conn, l: Ledger, d: seq<Byte>)
    requires Tracks(c, l)
    ensures var raws := BackendFrames(l.backendBytes, d);
            && Hears(OnUpstreamData(c, d).actions, Forwardable(raws), [], Answers(raws))
            && Forwardable(CutFrames(l.backendBytes + d).frames)
               == Forwardable(CutFrames(l.backendBytes).frames) + Forwardable(raws)
  {
    var raws := BackendFrames(l.backendBytes, d);
    ClientFramesCountable(l.backendBytes, d);
    BackendFramesHeard(c.core, raws);
    CutFramesAppend(l.backendBytes, d);
    ForwardableAppend(CutFrames(l.backendBytes).frames, raws);
  }

  lemma {:induction false} CloseAllUnheard(n: nat)
    ensures AllUnheard(CloseAll(n))
  {
    if n > 0 {
      CloseAllUnheard(n - 1);
    }
  }

  lemma GoneHeard(c: Conn, l: Ledger)
    requires Tracks(c, l) && LastKnown(c.core, LastOpened(HeededFrames(l.clientBytes)))
    ensures Hears(OnUpstreamClosed(c).actions, [], Notice(l, UpstreamClosed), [])
    ensures Hears(OnUpstreamFailed(c).actions, [], Notice(l, UpstreamFailed), [])
  {
    PhaseTellsOver(c, l);
    CloseAllUnheard(|c.core.streams|);
    UnheardIsSilent([]);
    NoticeHeard(GoawayFrame(c.core.lastClientStreamId, ERROR_NO_ERROR));
    NoticeHeard(GoawayFrame(0, ERROR_INTERNAL_ERROR));
    HeardThenSilence(Notice(l, UpstreamClosed), CloseAll(|c.core.streams|), [], Notice(l, UpstreamClosed), []);
    HeardThenSilence(Notice(l, UpstreamFailed), CloseAll(|c.core.streams|), [], Notice(l, UpstreamFailed), []);
  }

  lemma NoticeHeard(frame: seq<Byte>)
    ensures var notice := [DownstreamSend(frame, Proxy), DownstreamClose]; Hears(notice, [], notice, [])
  {
    var goaway := DownstreamSend(frame, Proxy);
    OneHeard(goaway);
    OneHeard(DownstreamClose);
    HearsThen([goaway], [DownstreamClose], [], [goaway], [], [], [DownstreamClose], []);
    assert [goaway] + [DownstreamClose] == [goaway, DownstreamClose];
  }

  /** The backend frames that an input completes. */
  function RelayedBy(l: Ledger, e: ConnEvent): seq<seq<Byte>>
  {
    if e.UpstreamData? then Forwardable(BackendFrames(l.backendBytes, e.data)) else []
  }

  lemma BackendEventHeard(c: Conn, l: Ledger, d: seq<Byte>)
    requires Tracks(c, l) && LastKnown(c.core, LastOpened(HeededFrames(l.clientBytes)))
    ensures AddsTo(c, l, UpstreamData(d), [])
  {
    UpstreamDataHeard(c, l, d);
    BackendFramesKeepLast(c.core, BackendFrames(l.backendBytes, d), LastOpened(HeededFrames(l.clientBytes)));
  }

  lemma ClientEventHeard(c: Conn, l: Ledger, d: seq<Byte>) returns (down: seq<ConnAction>)
    requires Tracks(c, l) && LastKnown(c.core, LastOpened(HeededFrames(l.clientBytes)))
    ensures AddsTo(c, l, ClientData(d), down)
  {
    if l.ended {
      down := [];
      UnheardIsSilent([]);
      ClosingDropsClientData(c, d);
    } else {
      down := ClientDataHeard(c, l, d);
      assert down + [] == down;
    }
  }

  lemma OtherEventHeard(c: Conn, l: Ledger, e: ConnEvent)
    requires Tracks(c, l) && LastKnown(c.core, LastOpened(HeededFrames(l.clientBytes)))
    requires !e.ClientData? && !e.UpstreamData?
    ensures AddsTo(c, l, e, [])
  {
    assert [] + Notice(l, e) == Notice(l, e);
    match e
    case UpstreamConnected => OneHeard(UpstreamSend(HELLO, Proxy));
    case UpstreamClosed => GoneHeard(c, l);
    case UpstreamFailed => GoneHeard(c, l);
    case ConnectStarted => UnheardIsSilent([]);
  }

  lemma EventHeard(c: Conn, l: Ledger, e: ConnEvent) returns (down: seq<ConnAction>)
    requires Tracks(c, l) && LastKnown(c.core, LastOpened(HeededFrames(l.clientBytes)))
    ensures AddsTo(c, l, e, down)
  {
    down := [];
    match e
    case ClientData(d) => down := ClientEventHeard(c, l, d);
    case UpstreamData(d) => BackendEventHeard(c, l, d);
    case _ => OtherEventHeard(c, l, e);
  }

  // ---------------------------------------------------------------------
  // Whole lives
  // ---------------------------------------------------------------------

  ghost predicate AllHeard(es: seq<ConnEvent>)
  {
    var l := LedgerOf(es);
    && Hears(Run(es).actions, Forwardable(CutFrames(l.backendBytes).frames), ClientHears(l.clientBytes) + Notices(es),
             BackendHears(es))
    && LastKnown(Run(es).conn.core, LastOpened(HeededFrames(l.clientBytes)))
    && (!l.ended ==> Notices(es) == [])
  }

  lemma {:induction false} RunHeard(es: seq<ConnEvent>)
    ensures AllHeard(es)
    decreases |es|
  {
    if es == [] {
      NothingHeard(es);
    } else {
      var init, e := Unsnoc(es);
      RunHeard(init);
      OneMoreHeard(es, init, e);
    }
  }

  lemma NothingHeard(es: seq<ConnEvent>)
    requires es == []
    ensures AllHeard(es)
  {
    UnheardIsSilent([]);
    assert CutFrames([]) == Cut([], []);
  }

  lemma StillTracks(es: seq<ConnEvent>)
    ensures Tracks(Run(es).conn, LedgerOf(es))
  {
    RunDelivers(es);
  }

  lemma OneMoreHeard(es: seq<ConnEvent>, init: seq<ConnEvent>, e: ConnEvent)
    requires es == init + [e] && AllHeard(init)
    ensures AllHeard(es)
  {
    StillTracks(init);
    var down := EventHeard(Run(init).conn, LedgerOf(init), e);
    HeardNext(es, init, e, down);
  }

  /** What an input adds to what the two sides have heard. */
  ghost predicate AddsTo(c: Conn, l: Ledger, e: ConnEvent, down: seq<ConnAction>)
  {
    && Hears(Apply(c, e).actions, RelayedBy(l, e), down + Notice(l, e), BackendHearsOf(l, e))
    && ClientHears(Account(l, e).clientBytes) == ClientHears(l.clientBytes) + down && (l.ended ==> down == [])
    && LastKnown(Apply(c, e).conn.core, LastOpened(HeededFrames(Account(l, e).clientBytes)))
  }

  lemma HeardNext(es: seq<ConnEvent>, init: seq<ConnEvent>, e: ConnEvent, down: seq<ConnAction>)
    requires es == init + [e]
    requires AllHeard(init) && Tracks(Run(init).conn, LedgerOf(init)) && AddsTo(Run(init).conn, LedgerOf(init), e, down)
    ensures AllHeard(es)
  {
    var before, l := Run(init), LedgerOf(init);
    var relayed := Forwardable(CutFrames(l.backendBytes).frames);
    assert es[..|init|] == init;
    HearsThen(before.actions, Apply(before.conn, e).actions,
              relayed, ClientHears(l.clientBytes) + Notices(init), BackendHears(init),
              RelayedBy(l, e), down + Notice(l, e), BackendHearsOf(l, e));
    InOrder(ClientHears(l.clientBytes), Notices(init), down, Notice(l, e));
    RelayedGrows(l, e);
    HeardSoFar(es, init, e, relayed + RelayedBy(l, e), ClientHears(l.clientBytes) + down,
               Notices(init) + Notice(l, e), BackendHears(init) + BackendHearsOf(l, e));
  }

  lemma RelayedGrows(l: Ledger, e: ConnEvent)
    ensures Forwardable(CutFrames(Account(l, e).backendBytes).frames)
            == Forwardable(CutFrames(l.backendBytes).frames) + RelayedBy(l, e)
  {
    if e.UpstreamData? {
      CutFramesAppend(l.backendBytes, e.data);
      ForwardableAppend(CutFrames(l.backendBytes).frames, BackendFrames(l.backendBytes, e.data));
    } else {
      var relayed := Forwardable(CutFrames(l.backendBytes).frames);
      assert relayed + [] == relayed;
    }
  }

  lemma HeardSoFar(es: seq<ConnEvent>, init: seq<ConnEvent>, e: ConnEvent, relayed: seq<seq<Byte>>,
                   down: seq<ConnAction>, notices: seq<ConnAction>, up: seq<seq<Byte>>)
    requires es == init + [e]
    requires Hears(Run(init).actions + Apply(Run(init).conn, e).actions, relayed, down + notices, up)
    requires relayed == Forwardable(CutFrames(Account(LedgerOf(init), e).backendBytes).frames)
    requires down == ClientHears(Account(LedgerOf(init), e).clientBytes)
    requires notices == Notices(init) + Notice(LedgerOf(init), e)
    requires up == BackendHears(init) + BackendHearsOf(LedgerOf(init), e)
    requires !LedgerOf(init).ended ==> Notices(init) == []
    requires LastKnown(Apply(Run(init).conn, e).conn.core,
                       LastOpened(HeededFrames(Account(LedgerOf(init), e).clientBytes)))
    ensures AllHeard(es)
  {
    assert es[..|init|] == init;
  }

  /** New answers come before new notices, and old notices leave no room for new answers. */
  lemma InOrder<T>(a: seq<T>, b: seq<T>, more: seq<T>, last: seq<T>)
    requires b == [] || more == []
    ensures a + b + (more + last) == a + more + (b + last)
  {
    Associate(a + b, more, last);
    Associate(a + more, b, last);
    if b == [] {
      assert a + b == a && a + more + b == a + more;
    } else {
      assert a + b + more == a + b && a + more == a;
    }
  }

  /**
   * After any interleaving of inputs, the backend frames sent to the client are exactly the frames of the backend's
   * byte stream that do not end at the proxy, in order.
   */
  lemma BackendFramesRelayed(es: seq<ConnEvent>)
    ensures BackendSends(Run(es).actions) == Forwardable(CutFrames(LedgerOf(es).backendBytes).frames)
  {
    RunHeard(es);
  }

  /**
   * After any interleaving of inputs, what the proxy itself has done to the client is to greet a good preface, or
   * hang up on a bad one, to answer the client's frames up to its GOAWAY one by one, and to announce a backend that
   * went away, in this order.
   */
  lemma ClientIsAnswered(es: seq<ConnEvent>)
    ensures ProxyToClient(Run(es).actions) == ClientHears(LedgerOf(es).clientBytes) + Notices(es)
    ensures !LedgerOf(es).ended ==> Notices(es) == []
  {
    RunHeard(es);
  }

  /** After any interleaving of inputs, the proxy has greeted each upstream and answered the backend's frames. */
  lemma BackendIsAnswered(es: seq<ConnEvent>)
    ensures ProxyToBackend(Run(es).actions) == BackendHears(es)
    ensures W.OneUpstream(es) ==>
              ProxyToBackend(Run(es).actions)
              == if W.HasConnect(es) then [HELLO] + Answers(CutFrames(LedgerOf(es).backendBytes).frames) else []
  {
    RunHeard(es);
    if W.OneUpstream(es) {
      OneGreeting(es);
    }
  }

  lemma {:induction false} OneGreeting(es: seq<ConnEvent>)
    requires W.OneUpstream(es)
    ensures BackendHears(es)
            == if W.HasConnect(es) then [HELLO] + Answers(CutFrames(LedgerOf(es).backendBytes).frames) else []
    ensures !W.HasConnect(es) ==> LedgerOf(es).backendBytes == []
  {
    if es != [] {
      var init, e := es[..|es| - 1], es[|es| - 1];
      W.OneUpstreamPrefix(es);
      OneGreeting(init);
      GreetedStep(HELLO, W.HasConnect(init), LedgerOf(init), e, BackendHears(init));
    }
  }

  /** `hello` is what a new upstream is greeted with; `heard` is what the backend has heard so far. */
  lemma GreetedStep(hello: seq<Byte>, connected: bool, l: Ledger, e: ConnEvent, heard: seq<seq<Byte>>)
    requires hello == HELLO && (e.UpstreamConnected? ==> !connected) && (e.UpstreamData? ==> connected)
    requires heard == if connected then [hello] + Answers(CutFrames(l.backendBytes).frames) else []
    requires !connected ==> l.backendBytes == []
    ensures heard + BackendHearsOf(l, e)
            == if connected || e.UpstreamConnected? then [hello] + Answers(CutFrames(Account(l, e).backendBytes).frames)
               else []
  {
    if e.UpstreamData? {
      AnswersGrow(hello, l.backendBytes, e.data);
    } else if e.UpstreamConnected? {
      assert CutFrames([]) == Cut([], []);
      assert [hello] + [] == [] + [hello];
    } else {
      assert heard + [] == heard;
    }
  }

  lemma AnswersGrow(hello: seq<Byte>, bytes: seq<Byte>, d: seq<Byte>)
    ensures [hello] + Answers(CutFrames(bytes + d).frames)
            == [hello] + Answers(CutFrames(bytes).frames) + Answers(BackendFrames(bytes, d))
  {
    CutFramesAppend(bytes, d);
    AnswersAppend(CutFrames(bytes).frames, BackendFrames(bytes, d));
    Associate([hello], Answers(CutFrames(bytes).frames), Answers(BackendFrames(bytes, d)));
  }
}
