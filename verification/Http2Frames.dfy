/** HTTP/2 framing: the nine-byte frame header of section 4.1 of RFC 7540. */
module Http2Frames {
  import opened Common

  datatype FrameType =
    | Data | Headers | Priority | RstStream | Settings | PushPromise
    | Ping | Goaway | WindowUpdate | Continuation
    | Unknown(code: Byte)

  function FromByte(v: Byte): FrameType
  {
    match v
    case 0 => Data
    case 1 => Headers
    case 2 => Priority
    case 3 => RstStream
    case 4 => Settings
    case 5 => PushPromise
    case 6 => Ping
    case 7 => Goaway
    case 8 => WindowUpdate
    case 9 => Continuation
    case _ => Unknown(v)
  }

  function ToByte(t: FrameType): Byte
  {
    match t
    case Data => 0
    case Headers => 1
    case Priority => 2
    case RstStream => 3
    case Settings => 4
    case PushPromise => 5
    case Ping => 6
    case Goaway => 7
    case WindowUpdate => 8
    case Continuation => 9
    case Unknown(v) => v
  }

  const FRAME_HEADER_LEN := 9
  const FLAG_ACK: Byte := 1
  const ERROR_NO_ERROR := 0
  const ERROR_INTERNAL_ERROR := 2
  const MAX_FRAME_PAYLOAD := 0x100_0000

  /** The client connection preface, "PRI * HTTP/2.0\r\n\r\nSM\r\n\r\n". */
  const CLIENT_PREFACE: seq<Byte> := [
    0x50, 0x52, 0x49, 0x20, 0x2a, 0x20, 0x48, 0x54, 0x54, 0x50, 0x2f, 0x32,
    0x2e, 0x30, 0x0d, 0x0a, 0x0d, 0x0a, 0x53, 0x4d, 0x0d, 0x0a, 0x0d, 0x0a]

  datatype Frame = Frame(frameType: FrameType, flags: Byte, streamId: nat, payload: seq<Byte>)

  /** Bit 0x01 of the flags: END_STREAM on DATA and HEADERS, ACK on SETTINGS and PING. */
  predicate LowFlag(f: Frame) { f.flags % 2 == 1 }

  // ---------------------------------------------------------------------
  // Parsing
  // ---------------------------------------------------------------------

  /** The size of the frame at the front of the buffer, header included, once its header is complete. */
  function FrameSize(buf: seq<Byte>): nat
    requires |buf| >= FRAME_HEADER_LEN
  {
    FRAME_HEADER_LEN + Uint32(0, buf[0], buf[1], buf[2])
  }

  /** Bytes long enough to hold a frame header. */
  type RawFrame = raw: seq<Byte> | |raw| >= 9 witness [0, 0, 0, 0, 0, 0, 0, 0, 0]

  function DecodeFrame(raw: RawFrame): Frame
  {
    Frame(FromByte(raw[3]), raw[4], Uint32(raw[5] % 0x80, raw[6], raw[7], raw[8]), raw[FRAME_HEADER_LEN..])
  }

  /** The size of the first frame when the buffer holds all of it. */
  function Complete(buf: seq<Byte>): Option<nat>
  {
    if |buf| < FRAME_HEADER_LEN || |buf| < FrameSize(buf) then None else Some(FrameSize(buf))
  }

  function ParseFrame(buf: seq<Byte>): Option<(Frame, nat)>
  {
    match Complete(buf)
    case None => None
    case Some(n) => Some((DecodeFrame(buf[..n]), n))
  }

  /** The decomposition of a buffer: its leading complete frames and the incomplete remainder. */
  datatype Cut = Cut(frames: seq<RawFrame>, rest: seq<Byte>)

  function CutFrames(buf: seq<Byte>): Cut
    decreases |buf|
  {
    var size := Complete(buf);
    if size == None then Cut([], buf)
    else
      var tail := CutFrames(buf[size.value..]);
      Cut([buf[..size.value]] + tail.frames, tail.rest)
  }

  /** A buffer that is exactly one complete frame. */
  predicate IsWholeFrame(raw: seq<Byte>) { Complete(raw) == Some(|raw|) }

  predicate AllWhole(frames: seq<seq<Byte>>) { forall i :: 0 <= i < |frames| ==> IsWholeFrame(frames[i]) }

  /** A buffer that is a run of complete frames with nothing left over. */
  predicate IsFramed(bytes: seq<Byte>) { CutFrames(bytes).rest == [] }

  /** The reserved bit of the stream identifier is ignored: section 4.1 of RFC 7540. */
  lemma ReservedBitIgnored(raw: RawFrame)
    ensures DecodeFrame(raw).streamId == Uint32(raw[5], raw[6], raw[7], raw[8]) % 0x8000_0000
  {
    var high := raw[5] as int;
    var low := Uint32(0, raw[6], raw[7], raw[8]);
    assert Uint32(raw[5], raw[6], raw[7], raw[8]) == high * 0x100_0000 + low;
    Remainder31(high, low);
  }

  lemma Remainder31(high: nat, low: nat)
    requires low < 0x100_0000
    ensures (high * 0x100_0000 + low) % 0x8000_0000 == high % 0x80 * 0x100_0000 + low
  {
    var q, r := high / 0x80, high % 0x80;
    assert high * 0x100_0000 + low == q * 0x8000_0000 + (r * 0x100_0000 + low);
  }

  /** The preface of section 3.5 of RFC 7540, as text. */
  lemma PrefaceAsText()
    ensures var text := "PRI * HTTP/2.0\r\n\r\nSM\r\n\r\n";
            |CLIENT_PREFACE| == |text| && forall i :: 0 <= i < |text| ==> CLIENT_PREFACE[i] == text[i] as int
  {
  }

  /** The flag is the lowest bit, whatever other flags are set. */
  lemma LowFlagIsLowestBit(f: Frame, others: nat, on: bool)
    requires f.flags == 2 * others + if on then 1 else 0
    ensures LowFlag(f) <==> on
  {
  }

  /** More input never changes a frame that was already complete. */
  lemma ParseFrameStable(a: seq<Byte>, b: seq<Byte>)
    requires Complete(a).Some?
    ensures Complete(a + b) == Complete(a)
    ensures ParseFrame(a + b) == ParseFrame(a)
  {
    assert (a + b)[..FrameSize(a)] == a[..FrameSize(a)];
  }

  /** Cutting `a + b` is cutting `a` and then cutting what `a` left over together with `b`. */
  lemma {:induction false} CutFramesAppend(a: seq<Byte>, b: seq<Byte>)
    ensures CutFrames(a + b).frames == CutFrames(a).frames + CutFrames(CutFrames(a).rest + b).frames
    ensures CutFrames(a + b).rest == CutFrames(CutFrames(a).rest + b).rest
    decreases |a|
  {
    if Complete(a).Some? {
      var n := Complete(a).value;
      ParseFrameStable(a, b);
      assert (a + b)[..n] == a[..n];
      assert (a + b)[n..] == a[n..] + b;
      CutFramesAppend(a[n..], b);
      Associate([a[..n]], CutFrames(a[n..]).frames, CutFrames(CutFrames(a).rest + b).frames);
    }
  }

  lemma FirstFrameIsWhole(buf: seq<Byte>)
    requires Complete(buf).Some?
    ensures IsWholeFrame(buf[..Complete(buf).value])
  {
  }

  /** Every frame that cutting yields is complete on its own, and the remainder starts no complete frame. */
  lemma {:induction false} CutFramesWhole(buf: seq<Byte>)
    ensures AllWhole(CutFrames(buf).frames)
    ensures Complete(CutFrames(buf).rest) == None
    decreases |buf|
  {
    var size := Complete(buf);
    if size.Some? {
      CutFramesWhole(buf[size.value..]);
      FirstFrameIsWhole(buf);
    }
  }

  /** Cutting loses and reorders nothing. */
  lemma {:induction false} CutFramesConserves(buf: seq<Byte>)
    ensures Concat(CutFrames(buf).frames) + CutFrames(buf).rest == buf
    decreases |buf|
  {
    var size := Complete(buf);
    if size.Some? {
      CutFramesConserves(buf[size.value..]);
      ConcatCons(buf[..size.value], CutFrames(buf[size.value..]).frames);
    }
  }

  /** The parse loop recovers a concatenation of complete frames exactly, with no remainder. */
  lemma {:induction false} CutFramesRecovers(parts: seq<RawFrame>)
    requires AllWhole(parts)
    ensures CutFrames(Concat(parts)) == Cut(parts, [])
  {
    if parts != [] {
      var head: seq<Byte> := parts[0];
      var tail: seq<Byte> := Concat(parts[1..]);
      ParseFrameStable(head, tail);
      assert (head + tail)[..|head|] == head;
      assert (head + tail)[|head|..] == tail;
      CutFramesRecovers(parts[1..]);
    }
  }

  lemma FramedAppend(a: seq<Byte>, b: seq<Byte>)
    requires IsFramed(a)
    ensures IsFramed(a + b) <==> IsFramed(b)
  {
    CutFramesAppend(a, b);
    assert [] + b == b;
  }

  lemma WholeIsFramed(raw: seq<Byte>)
    requires IsWholeFrame(raw)
    ensures IsFramed(raw)
  {
    assert raw[|raw|..] == [];
  }

  // ---------------------------------------------------------------------
  // Serialising
  // ---------------------------------------------------------------------

  /** Big-endian bytes of a `u16`. */
  function Be16(n: nat): seq<Byte> { [n / 0x100 % 0x100, n % 0x100] }

  /** Big-endian bytes of a `u32`. */
  function Be32(n: nat): seq<Byte>
  {
    [n / 0x100_0000 % 0x100, n / 0x1_0000 % 0x100, n / 0x100 % 0x100, n % 0x100]
  }

  /** The nine-byte header for a payload of `n` bytes. */
  function HeaderBytes(t: FrameType, flags: Byte, streamId: nat, n: nat): seq<Byte>
  {
    var id := streamId % 0x8000_0000;
    [n / 0x1_0000 % 0x100, n / 0x100 % 0x100, n % 0x100, ToByte(t), flags,
     id / 0x100_0000, id / 0x1_0000 % 0x100, id / 0x100 % 0x100, id % 0x100]
  }

  /** The wire form of a frame; the length keeps only its low 24 bits and the stream id its low 31. */
  function FrameBytes(t: FrameType, flags: Byte, streamId: nat, payload: seq<Byte>): seq<Byte>
  {
    HeaderBytes(t, flags, streamId, |payload|) + payload
  }

  lemma HeaderLayout(a: Byte, b: Byte, c: Byte, t: Byte, flags: Byte, w: Byte, x: Byte, y: Byte, z: Byte)
    requires w < 0x80
    ensures var h := [a, b, c, t, flags, w, x, y, z];
            && FrameSize(h) == FRAME_HEADER_LEN + Uint32(0, a, b, c)
            && DecodeFrame(h) == Frame(FromByte(t), flags, Uint32(w, x, y, z), [])
  {
    var h := [a, b, c, t, flags, w, x, y, z];
    assert h[0] == a && h[1] == b && h[2] == c && h[3] == t && h[4] == flags;
    assert h[5] == w && h[6] == x && h[7] == y && h[8] == z && h[9..] == [];
    assert w % 0x80 == w;
  }

  lemma HeaderBytesDecode(t: FrameType, flags: Byte, streamId: nat, n: nat)
    ensures var h := HeaderBytes(t, flags, streamId, n);
            && FrameSize(h) == FRAME_HEADER_LEN + n % MAX_FRAME_PAYLOAD
            && DecodeFrame(h) == Frame(FromByte(ToByte(t)), flags, streamId % 0x8000_0000, [])
  {
    var id := streamId % 0x8000_0000;
    Base256Of24(n);
    Base256Of31(id);
    HeaderLayout(n / 0x1_0000 % 0x100, n / 0x100 % 0x100, n % 0x100, ToByte(t), flags,
                 id / 0x100_0000, id / 0x1_0000 % 0x100, id / 0x100 % 0x100, id % 0x100);
  }

  /** Only the first nine bytes of a frame decide its size, type, flags and stream. */
  lemma HeaderDecides(h: seq<Byte>, payload: seq<Byte>)
    requires |h| == FRAME_HEADER_LEN
    ensures FrameSize(h + payload) == FrameSize(h)
    ensures DecodeFrame(h + payload) == DecodeFrame(h).(payload := payload)
  {
    assert (h + payload)[FRAME_HEADER_LEN..] == payload;
  }

  /**
   * Parsing what was serialised gives the frame back, whatever follows it, exactly when the payload
   * is below 2^24 bytes. (The type byte is canonicalised: `Unknown(0)` comes back as `Data`.)
   */
  lemma ParseInvertsFrameBytes(t: FrameType, flags: Byte, streamId: nat, payload: seq<Byte>, rest: seq<Byte>)
    ensures ParseFrame(FrameBytes(t, flags, streamId, payload) + rest)
            == Some((Frame(FromByte(ToByte(t)), flags, streamId % 0x8000_0000, payload), 9 + |payload|))
            <==> |payload| < MAX_FRAME_PAYLOAD
  {
    var h := HeaderBytes(t, flags, streamId, |payload|);
    HeaderBytesDecode(t, flags, streamId, |payload|);
    ParseInvertsHeader(h, Frame(FromByte(ToByte(t)), flags, streamId % 0x8000_0000, []), payload, rest);
  }

  lemma ParseInvertsHeader(h: seq<Byte>, f: Frame, payload: seq<Byte>, rest: seq<Byte>)
    requires |h| == FRAME_HEADER_LEN && FrameSize(h) == FRAME_HEADER_LEN + |payload| % MAX_FRAME_PAYLOAD
    requires DecodeFrame(h) == f
    ensures ParseFrame(h + payload + rest) == Some((f.(payload := payload), 9 + |payload|))
            <==> |payload| < MAX_FRAME_PAYLOAD
  {
    var n := |payload| % MAX_FRAME_PAYLOAD;
    ParseAfterHeader(h, payload, rest, n);
    if |payload| < MAX_FRAME_PAYLOAD {
      assert n == |payload|;
      assert payload[..n] == payload;
    } else {
      assert n < |payload|;
    }
  }

  lemma ParseAfterHeader(h: seq<Byte>, payload: seq<Byte>, rest: seq<Byte>, n: nat)
    requires |h| == FRAME_HEADER_LEN && FrameSize(h) == FRAME_HEADER_LEN + n && n <= |payload|
    ensures ParseFrame(h + payload + rest) == Some((DecodeFrame(h).(payload := payload[..n]), 9 + n))
  {
    var tail := payload + rest;
    Associate(h, payload, rest);
    CompleteAfterHeader(h, tail, n);
    TakeAfterHeader(h, payload, rest, n);
    HeaderDecides(h, payload[..n]);
    ParseComplete(h + tail, 9 + n);
  }

  lemma CompleteAfterHeader(h: seq<Byte>, tail: seq<Byte>, n: nat)
    requires |h| == FRAME_HEADER_LEN && FrameSize(h) == FRAME_HEADER_LEN + n && n <= |tail|
    ensures Complete(h + tail) == Some(9 + n)
  {
    HeaderDecides(h, tail);
  }

  lemma TakeAfterHeader(h: seq<Byte>, payload: seq<Byte>, rest: seq<Byte>, n: nat)
    requires |h| == FRAME_HEADER_LEN && n <= |payload|
    ensures (h + (payload + rest))[..9 + n] == h + payload[..n]
  {
  }

  lemma ParseComplete(buf: seq<Byte>, n: nat)
    requires Complete(buf) == Some(n)
    ensures ParseFrame(buf) == Some((DecodeFrame(buf[..n]), n))
  {
  }

  /** The type codes of section 11.2 of RFC 7540, in order. */
  const FRAME_TYPES := [Data, Headers, Priority, RstStream, Settings, PushPromise, Ping, Goaway, WindowUpdate,
                        Continuation]

  lemma FrameTypeBytes(v: Byte, t: FrameType)
    ensures FromByte(v) == if v < 10 then FRAME_TYPES[v] else Unknown(v)
    ensures ToByte(FromByte(v)) == v
    ensures FromByte(ToByte(t)) == t <==> !(t.Unknown? && t.code <= 9)
  {
  }

  lemma Base256Of24(n: nat)
    ensures Uint32(0, n / 0x1_0000 % 0x100, n / 0x100 % 0x100, n % 0x100) == n % MAX_FRAME_PAYLOAD
  {
    DivideTwice(n);
    var low := n / 0x1_0000 % 0x100 * 0x1_0000 + n / 0x100 % 0x100 * 0x100 + n % 0x100;
    Remainder24(n, n / 0x1_0000 / 0x100, low);
  }

  lemma DivideTwice(n: nat)
    ensures n / 0x1_0000 == n / 0x100 / 0x100
  {
  }

  lemma Remainder24(n: nat, q: nat, r: nat)
    requires n == q * MAX_FRAME_PAYLOAD + r && r < MAX_FRAME_PAYLOAD
    ensures n % MAX_FRAME_PAYLOAD == r
  {
  }

  lemma Base256Of31(n: nat)
    requires n < 0x8000_0000
    ensures n / 0x100_0000 < 0x80
    ensures Uint32(n / 0x100_0000, n / 0x1_0000 % 0x100, n / 0x100 % 0x100, n % 0x100) == n
  {
    Base256Of24(n);
  }

  method SerializeFrame(t: FrameType, flags: Byte, streamId: nat, payload: seq<Byte>) returns (buf: seq<Byte>)
    ensures buf == FrameBytes(t, flags, streamId, payload)
  {
    var length := |payload|;
    buf := [];
    buf := buf + [length / 0x1_0000 % 0x100];
    buf := buf + [length / 0x100 % 0x100];
    buf := buf + [length % 0x100];
    buf := buf + [ToByte(t)];
    buf := buf + [flags];
    var id := streamId % 0x8000_0000;
    buf := buf + [id / 0x100_0000, id / 0x1_0000 % 0x100, id / 0x100 % 0x100, id % 0x100];
    buf := buf + payload;
  }

  // ---------------------------------------------------------------------
  // The frames the proxy generates itself
  // ---------------------------------------------------------------------

  function SettingsPayload(params: seq<(nat, nat)>): seq<Byte>
  {
    if params == [] then []
    else Be16(params[0].0) + Be32(params[0].1) + SettingsPayload(params[1..])
  }

  lemma {:induction false} SettingsPayloadAppend(a: seq<(nat, nat)>, b: seq<(nat, nat)>)
    ensures SettingsPayload(a + b) == SettingsPayload(a) + SettingsPayload(b)
    ensures |SettingsPayload(a)| == 6 * |a|
  {
    if a == [] {
      assert a + b == b;
    } else {
      assert (a + b)[1..] == a[1..] + b;
      SettingsPayloadAppend(a[1..], b);
    }
  }

  method BuildSettings(params: seq<(nat, nat)>) returns (buf: seq<Byte>)
    ensures buf == FrameBytes(Settings, 0, 0, SettingsPayload(params))
  {
    var payload: seq<Byte> := [];
    for i := 0 to |params|
      invariant payload == SettingsPayload(params[..i])
    {
      assert params[..i + 1] == params[..i] + [params[i]];
      SettingsPayloadAppend(params[..i], [params[i]]);
      payload := payload + Be16(params[i].0);
      payload := payload + Be32(params[i].1);
    }
    assert params[..|params|] == params;
    buf := SerializeFrame(Settings, 0, 0, payload);
  }

  const OUR_SETTINGS_PARAMS: seq<(nat, nat)> := [(1, 0), (2, 0), (3, 100), (4, 65535), (5, 16384)]

  function OurSettings(): seq<Byte> { FrameBytes(Settings, 0, 0, SettingsPayload(OUR_SETTINGS_PARAMS)) }

  function SettingsAck(): seq<Byte> { FrameBytes(Settings, FLAG_ACK, 0, []) }

  /** A PING acknowledgement echoing the first eight payload bytes, or zeros when there are fewer. */
  function PingAck(payload: seq<Byte>): seq<Byte>
  {
    FrameBytes(Ping, FLAG_ACK, 0, if |payload| >= 8 then payload[..8] else [0, 0, 0, 0, 0, 0, 0, 0])
  }

  function WindowUpdateFrame(streamId: nat, increment: nat): seq<Byte>
  {
    FrameBytes(WindowUpdate, 0, streamId, Be32(increment % 0x8000_0000))
  }

  function GoawayFrame(lastStreamId: nat, error: nat): seq<Byte>
  {
    FrameBytes(Goaway, 0, 0, Be32(lastStreamId % 0x8000_0000) + Be32(error))
  }

  lemma Be32Inverts(n: nat)
    requires n < 0x1_0000_0000
    ensures var b := Be32(n); Uint32(b[0], b[1], b[2], b[3]) == n
  {
    Base256Of24(n);
    assert n == n / 0x100_0000 * 0x100_0000 + n % 0x100_0000;
  }

  lemma ShortHeader(t: FrameType, flags: Byte, id: nat, n: nat)
    requires id < 0x8000_0000 && n < 0x100
    ensures HeaderBytes(t, flags, id, n) == [0, 0, n, ToByte(t), flags] + Be32(id)
  {
    OneByte(n);
    TopByte(id);
    assert HeaderBytes(t, flags, id, n)
           == [0, 0, n, ToByte(t), flags]
              + [id / 0x100_0000, id / 0x1_0000 % 0x100, id / 0x100 % 0x100, id % 0x100];
  }

  lemma OneByte(n: nat)
    requires n < 0x100
    ensures n / 0x1_0000 % 0x100 == 0 && n / 0x100 % 0x100 == 0 && n % 0x100 == n
  {
  }

  lemma TopByte(id: nat)
    requires id < 0x8000_0000
    ensures id % 0x8000_0000 == id && id / 0x100_0000 % 0x100 == id / 0x100_0000 < 0x100
  {
  }

  /** Acknowledgements, byte by byte: sections 6.5 and 6.7 of RFC 7540. A PING is echoed. */
  lemma AcksOnTheWire(payload: seq<Byte>)
    ensures SettingsAck() == [0, 0, 0, 4, 1] + Be32(0)
    ensures PingAck(payload)
            == [0, 0, 8, 6, 1] + Be32(0) + if |payload| < 8 then [0, 0, 0, 0, 0, 0, 0, 0] else payload[..8]
  {
    ShortFrame(Settings, FLAG_ACK, 0, []);
    ShortFrame(Ping, FLAG_ACK, 0, if |payload| < 8 then [0, 0, 0, 0, 0, 0, 0, 0] else payload[..8]);
  }

  /** WINDOW_UPDATE, byte by byte: section 6.9 of RFC 7540. */
  lemma WindowUpdateOnTheWire(streamId: nat, n: nat)
    requires streamId < 0x8000_0000 && n < 0x8000_0000
    ensures WindowUpdateFrame(streamId, n) == [0, 0, 4, 8, 0] + Be32(streamId) + Be32(n)
  {
    TopByte(n);
    ShortFrame(WindowUpdate, 0, streamId, Be32(n));
  }

  /** GOAWAY, byte by byte: section 6.8 of RFC 7540. */
  lemma GoawayOnTheWire(lastStreamId: nat, error: nat)
    requires lastStreamId < 0x8000_0000
    ensures GoawayFrame(lastStreamId, error) == [0, 0, 8, 7, 0] + Be32(0) + (Be32(lastStreamId) + Be32(error))
  {
    ShortFrame(Goaway, 0, 0, Be32(lastStreamId) + Be32(error));
  }

  lemma ShortFrame(t: FrameType, flags: Byte, id: nat, payload: seq<Byte>)
    requires id < 0x8000_0000 && |payload| < 0x100
    ensures FrameBytes(t, flags, id, payload) == [0, 0, |payload|, ToByte(t), flags] + Be32(id) + payload
  {
    ShortHeader(t, flags, id, |payload|);
  }

  lemma OneSetting(params: seq<(nat, nat)>, id: Byte, high: Byte, low: Byte)
    requires params != [] && params[0] == (id as nat, high * 0x100 + low)
    ensures SettingsPayload(params) == [0, id, 0, 0, high, low] + SettingsPayload(params[1..])
  {
    assert Be16(id) == [0, id] && Be32(high * 0x100 + low) == [0, 0, high, low];
    Associate([0, id], [0, 0, high, low], SettingsPayload(params[1..]));
  }

  /** The proxy's SETTINGS: no header compression table, no push, 100 streams, 65535 bytes of window, 16384 a frame. */
  lemma OurSettingsOnTheWire()
    ensures OurSettings() == [0, 0, 30, 4, 0] + Be32(0)
                             + ([0, 1, 0, 0, 0, 0]
                                + ([0, 2, 0, 0, 0, 0]
                                   + ([0, 3, 0, 0, 0, 100] + ([0, 4, 0, 0, 255, 255] + ([0, 5, 0, 0, 64, 0] + [])))))
  {
    var params := OUR_SETTINGS_PARAMS;
    SettingsPayloadAppend(params, []);
    ShortFrame(Settings, 0, 0, SettingsPayload(params));
    OneSetting(params, 1, 0, 0);
    OneSetting(params[1..], 2, 0, 0);
    OneSetting(params[1..][1..], 3, 0, 100);
    OneSetting(params[1..][1..][1..], 4, 255, 255);
    OneSetting(params[1..][1..][1..][1..], 5, 64, 0);
  }

  lemma WholeAfterHeader(h: seq<Byte>, payload: seq<Byte>)
    requires |h| == FRAME_HEADER_LEN && FrameSize(h) == FRAME_HEADER_LEN + |payload| % MAX_FRAME_PAYLOAD
    requires |payload| < MAX_FRAME_PAYLOAD
    ensures IsWholeFrame(h + payload)
  {
    HeaderDecides(h, payload);
  }

  lemma GeneratedIsWhole(t: FrameType, flags: Byte, streamId: nat, payload: seq<Byte>)
    requires |payload| < MAX_FRAME_PAYLOAD
    ensures IsWholeFrame(FrameBytes(t, flags, streamId, payload))
  {
    HeaderBytesDecode(t, flags, streamId, |payload|);
    WholeAfterHeader(HeaderBytes(t, flags, streamId, |payload|), payload);
  }

  /** Every frame the proxy makes itself is one complete frame. */
  lemma GeneratedFramesWhole(payload: seq<Byte>, streamId: nat, n: nat, error: nat)
    ensures IsWholeFrame(OurSettings())
    ensures IsWholeFrame(SettingsAck())
    ensures IsWholeFrame(PingAck(payload))
    ensures IsWholeFrame(WindowUpdateFrame(streamId, n))
    ensures IsWholeFrame(GoawayFrame(streamId, error))
  {
    SettingsPayloadAppend(OUR_SETTINGS_PARAMS, []);
    GeneratedIsWhole(Settings, 0, 0, SettingsPayload(OUR_SETTINGS_PARAMS));
    GeneratedIsWhole(Settings, FLAG_ACK, 0, []);
    GeneratedIsWhole(Ping, FLAG_ACK, 0, if |payload| >= 8 then payload[..8] else [0, 0, 0, 0, 0, 0, 0, 0]);
    GeneratedIsWhole(WindowUpdate, 0, streamId, Be32(n % 0x8000_0000));
    GeneratedIsWhole(Goaway, 0, 0, Be32(streamId % 0x8000_0000) + Be32(error));
  }
}
