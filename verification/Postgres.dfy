/**
 * The Postgres activator's connection: startup negotiation on the client side, the scan of backend bytes for
 * ReadyForQuery, and the interception of health checks while idle. Lengths are unbounded, as `usize` is on
 * 64-bit targets.
 */
module Postgres {
  import opened Common

  datatype Phase = AwaitingStartup | SslNegotiation | Startup | Proxying | Closing

  datatype TxnStatus = Idle | InTransaction | FailedTransaction

  datatype ConnAction = DownstreamSend(data: seq<Byte>) | UpstreamSend(data: seq<Byte>)

  datatype Conn = Conn(
    phase: Phase,
    recvBuf: seq<Byte>,
    upstreamRecvBuf: seq<Byte>,
    buffered: seq<Byte>,
    status: Option<TxnStatus>,
    authComplete: bool)

  datatype Outcome = Outcome(conn: Conn, actions: seq<ConnAction>)

  const NEW_CONN := Conn(AwaitingStartup, [], [], [], None, false)

  const SSL_REQUEST_CODE := 80877103
  const SSL_REFUSED: seq<Byte> := [78]
  const TAG_READY_FOR_QUERY: Byte := 90
  const TAG_QUERY: Byte := 81

  // ---------------------------------------------------------------------
  // Messages at the front of a buffer
  // ---------------------------------------------------------------------

  /** The size of a startup message that has arrived whole; a length below 8 never parses. */
  function StartupSize(buf: seq<Byte>): (n: Option<nat>)
    ensures n.Some? ==> 8 <= n.value <= |buf|
  {
    if |buf| < 4 then None
    else
      var length := Uint32(buf[0], buf[1], buf[2], buf[3]);
      if length < 8 || |buf| < length then None else Some(length)
  }

  predicate IsSslRequest(buf: seq<Byte>)
    requires |buf| >= 8
  {
    Uint32(buf[4], buf[5], buf[6], buf[7]) == SSL_REQUEST_CODE
  }

  function SslRequestSize(buf: seq<Byte>): Option<nat>
  {
    if StartupSize(buf).Some? && IsSslRequest(buf) then StartupSize(buf) else None
  }

  /** The size of a tagged message that has arrived whole. The length field is not checked against its own size. */
  function TaggedSize(buf: seq<Byte>): (n: Option<nat>)
    ensures n.Some? ==> 1 <= n.value <= |buf|
  {
    if |buf| < 5 then None
    else
      var total := 1 + Uint32(buf[1], buf[2], buf[3], buf[4]);
      if |buf| < total then None else Some(total)
  }

  /** The size of a simple query that has arrived whole and is a health check. */
  function HealthCheckSize(buf: seq<Byte>, healthCheck: seq<Byte> -> bool): Option<nat>
  {
    var size := TaggedSize(buf);
    if size.Some? && buf[0] == TAG_QUERY && healthCheck(buf[..size.value]) then size else None
  }

  function StatusOfByte(b: Byte): Option<TxnStatus>
  {
    if b == 73 then Some(Idle)
    else if b == 84 then Some(InTransaction)
    else if b == 69 then Some(FailedTransaction)
    else None
  }

  function ReadyStatus(msg: seq<Byte>): Option<TxnStatus>
  {
    if |msg| < 6 || msg[0] != TAG_READY_FOR_QUERY then None else StatusOfByte(msg[5])
  }

  // ---------------------------------------------------------------------
  // Cutting messages off the front
  // ---------------------------------------------------------------------

  datatype Cut = Cut(messages: seq<seq<Byte>>, rest: seq<Byte>)

  /** The messages that `size` recognises, one after the other, and what follows the last of them. */
  function CutAll(size: seq<Byte> -> Option<nat>, b: seq<Byte>): Cut
    decreases |b|
  {
    if size(b).Some? && 1 <= size(b).value <= |b| then
      var tail := CutAll(size, b[size(b).value..]);
      Cut([b[..size(b).value]] + tail.messages, tail.rest)
    else Cut([], b)
  }

  /** Once `size` recognises a message, later bytes do not change its mind. */
  ghost predicate Stable(size: seq<Byte> -> Option<nat>)
  {
    forall a: seq<Byte>, b: seq<Byte> :: size(a).Some? ==> size(a + b) == size(a)
  }

  lemma {:induction false} CutConserves(size: seq<Byte> -> Option<nat>, b: seq<Byte>)
    ensures Concat(CutAll(size, b).messages) + CutAll(size, b).rest == b
    decreases |b|
  {
    if size(b).Some? && 1 <= size(b).value <= |b| {
      var head, tail := b[..size(b).value], b[size(b).value..];
      CutConserves(size, tail);
      ConcatCons(head, CutAll(size, tail).messages);
      Associate(head, Concat(CutAll(size, tail).messages), CutAll(size, tail).rest);
      assert head + tail == b;
    }
  }

  lemma {:induction false} CutAppend(size: seq<Byte> -> Option<nat>, a: seq<Byte>, b: seq<Byte>)
    requires Stable(size)
    ensures CutAll(size, a + b).messages == CutAll(size, a).messages + CutAll(size, CutAll(size, a).rest + b).messages
    ensures CutAll(size, a + b).rest == CutAll(size, CutAll(size, a).rest + b).rest
    decreases |a|
  {
    if size(a).Some? && 1 <= size(a).value <= |a| {
      var n := size(a).value;
      assert size(a + b) == size(a);
      assert (a + b)[..n] == a[..n];
      assert (a + b)[n..] == a[n..] + b;
      CutAppend(size, a[n..], b);
    }
  }

  lemma StartupStable(a: seq<Byte>, b: seq<Byte>)
    requires StartupSize(a).Some?
    ensures StartupSize(a + b) == StartupSize(a) && SslRequestSize(a + b) == SslRequestSize(a)
  {
  }

  lemma SizesStable()
    ensures Stable(SslRequestSize) && Stable(TaggedSize)
  {
    forall a: seq<Byte>, b: seq<Byte> | SslRequestSize(a).Some? ensures SslRequestSize(a + b) == SslRequestSize(a) {
      StartupStable(a, b);
    }
    forall a: seq<Byte>, b: seq<Byte> | TaggedSize(a).Some? ensures TaggedSize(a + b) == TaggedSize(a) {
    }
  }

  // ---------------------------------------------------------------------
  // Operations
  // ---------------------------------------------------------------------

  function Repeat(n: nat, data: seq<Byte>): seq<ConnAction>
  {
    if n == 0 then [] else Repeat(n - 1, data) + [DownstreamSend(data)]
  }

  lemma {:induction false} RepeatSum(m: nat, n: nat, data: seq<Byte>)
    ensures Repeat(m + n, data) == Repeat(m, data) + Repeat(n, data)
  {
    if n > 0 {
      RepeatSum(m, n - 1, data);
      Associate(Repeat(m, data), Repeat(n - 1, data), [DownstreamSend(data)]);
    }
  }

  /** Refuses SSL as often as it is asked for; a startup message takes all that follows with it. */
  function ParseStartup(c: Conn): Outcome
  {
    Negotiate(c, CutAll(SslRequestSize, c.recvBuf))
  }

  function Negotiate(c: Conn, cut: Cut): Outcome
  {
    Outcome(if StartupSize(cut.rest).Some? then c.(phase := Startup, recvBuf := [], buffered := c.buffered + cut.rest)
            else c.(phase := if cut.messages == [] then c.phase else SslNegotiation, recvBuf := cut.rest),
            Repeat(|cut.messages|, SSL_REFUSED))
  }

  predicate IsIdle(c: Conn) { c.authComplete && c.status == Some(Idle) }

  /** While idle: answers leading health checks; at the first other complete message forwards everything. */
  function DrainProxying(c: Conn, healthCheck: seq<Byte> -> bool, answer: seq<Byte>): Outcome
  {
    Drained(c, CutAll(b => HealthCheckSize(b, healthCheck), c.recvBuf), answer)
  }

  function Drained(c: Conn, cut: Cut, answer: seq<Byte>): Outcome
  {
    var answers := Repeat(|cut.messages|, answer);
    if TaggedSize(cut.rest).Some? then Outcome(c.(recvBuf := []), answers + [UpstreamSend(cut.rest)])
    else Outcome(c.(recvBuf := cut.rest), answers)
  }

  function OnClientData(c: Conn, data: seq<Byte>, healthCheck: seq<Byte> -> bool, answer: seq<Byte>): Outcome
  {
    match c.phase
    case AwaitingStartup => ParseStartup(c.(recvBuf := c.recvBuf + data))
    case SslNegotiation => ParseStartup(c.(recvBuf := c.recvBuf + data))
    case Startup => Outcome(c.(buffered := c.buffered + data), [])
    case Proxying =>
      if IsIdle(c) then DrainProxying(c.(recvBuf := c.recvBuf + data), healthCheck, answer)
      else Outcome(c, [UpstreamSend(data)])
    case Closing => Outcome(c, [])
  }

  function OnUpstreamConnected(c: Conn): Outcome
  {
    if !c.phase.Startup? then Outcome(c, [])
    else
      Outcome(c.(phase := Proxying, buffered := []), if c.buffered == [] then [] else [UpstreamSend(c.buffered)])
  }

  /** The status of the last valid ReadyForQuery, or `s` when there is none. */
  function LastStatus(s: Option<TxnStatus>, messages: seq<seq<Byte>>): Option<TxnStatus>
  {
    if messages == [] then s
    else
      var last := ReadyStatus(messages[|messages| - 1]);
      if last.Some? then last else LastStatus(s, messages[..|messages| - 1])
  }

  predicate HasReady(messages: seq<seq<Byte>>) { exists m :: m in messages && ReadyStatus(m).Some? }

  function ScanReady(c: Conn): Conn
  {
    var cut := CutAll(TaggedSize, c.upstreamRecvBuf);
    c.(upstreamRecvBuf := cut.rest,
       status := LastStatus(c.status, cut.messages),
       authComplete := c.authComplete || HasReady(cut.messages))
  }

  function OnUpstreamData(c: Conn, data: seq<Byte>): Outcome
  {
    if c.phase.Closing? then Outcome(c, [])
    else Outcome(ScanReady(c.(upstreamRecvBuf := c.upstreamRecvBuf + data)), [DownstreamSend(data)])
  }

  // ---------------------------------------------------------------------
  // Startup does not depend on chunking
  // ---------------------------------------------------------------------

  predicate Negotiating(p: Phase) { p.AwaitingStartup? || p.SslNegotiation? }

  lemma NegotiateMore(c: Conn, first: Cut, second: Cut)
    requires Negotiating(c.phase) && StartupSize(first.rest).None?
    ensures var o := Negotiate(c, first);
            var o2 := Negotiate(o.conn.(recvBuf := first.rest), second);
            Negotiate(c, Cut(first.messages + second.messages, second.rest))
            == Outcome(o2.conn, o.actions + o2.actions)
  {
    RepeatSum(|first.messages|, |second.messages|, SSL_REFUSED);
  }

  lemma BufferMore(c: Conn, cut: Cut, more: seq<Byte>)
    requires StartupSize(cut.rest).Some?
    ensures var o := Negotiate(c, cut);
            && o.conn.phase.Startup?
            && Negotiate(c, Cut(cut.messages + [], cut.rest + more))
               == Outcome(o.conn.(buffered := o.conn.buffered + more), o.actions + [])
  {
    StartupStable(cut.rest, more);
    Associate(c.buffered, cut.rest, more);
  }

  /** More bytes while negotiating. */
  lemma ParseStartupTwice(c: Conn, more: seq<Byte>, check: seq<Byte> -> bool, answer: seq<Byte>)
    requires Negotiating(c.phase)
    ensures var first := ParseStartup(c);
            var second := OnClientData(first.conn, more, check, answer);
            ParseStartup(c.(recvBuf := c.recvBuf + more)) == Outcome(second.conn, first.actions + second.actions)
  {
    SizesStable();
    CutAppend(SslRequestSize, c.recvBuf, more);
    var cut := CutAll(SslRequestSize, c.recvBuf);
    var next := CutAll(SslRequestSize, cut.rest + more);
    if StartupSize(cut.rest).Some? {
      RestIsNotSsl(c.recvBuf);
      StartupStable(cut.rest, more);
      assert next == Cut([], cut.rest + more);
      BufferMore(c, cut, more);
    } else {
      NegotiateMore(c, cut, next);
    }
  }

  lemma {:induction false} RestIsNotSsl(b: seq<Byte>)
    ensures SslRequestSize(CutAll(SslRequestSize, b).rest) == None
    decreases |b|
  {
    if SslRequestSize(b).Some? {
      RestIsNotSsl(b[SslRequestSize(b).value..]);
    }
  }

  /** Before the upstream connects, two chunks leave the same state and actions as their concatenation. */
  lemma ClientChunking(c: Conn, d1: seq<Byte>, d2: seq<Byte>, check: seq<Byte> -> bool, answer: seq<Byte>)
    requires !c.phase.Proxying?
    ensures var first := OnClientData(c, d1, check, answer);
            var second := OnClientData(first.conn, d2, check, answer);
            OnClientData(c, d1 + d2, check, answer) == Outcome(second.conn, first.actions + second.actions)
  {
    if Negotiating(c.phase) {
      Associate(c.recvBuf, d1, d2);
      ParseStartupTwice(c.(recvBuf := c.recvBuf + d1), d2, check, answer);
    } else {
      Associate(c.buffered, d1, d2);
    }
  }

  /** What arrives in chunks, one call each. */
  function Feed(step: (Conn, seq<Byte>) -> Outcome, c: Conn, ds: seq<seq<Byte>>): Outcome
  {
    if ds == [] then Outcome(c, [])
    else
      var before := Feed(step, c, ds[..|ds| - 1]);
      var last := step(before.conn, ds[|ds| - 1]);
      Outcome(last.conn, before.actions + last.actions)
  }

  function ClientStep(check: seq<Byte> -> bool, answer: seq<Byte>): (Conn, seq<Byte>) -> Outcome
  {
    (c, d) => OnClientData(c, d, check, answer)
  }

  /** Any number of chunks, from the start of the connection. */
  lemma {:induction false} FeedIsOneCall(ds: seq<seq<Byte>>, check: seq<Byte> -> bool, answer: seq<Byte>)
    ensures Feed(ClientStep(check, answer), NEW_CONN, ds) == OnClientData(NEW_CONN, Concat(ds), check, answer)
    decreases |ds|
  {
    if ds == [] {
      assert CutAll(SslRequestSize, []) == Cut([], []);
    } else {
      FeedIsOneCall(ds[..|ds| - 1], check, answer);
      ConcatLast(ds);
      ClientChunking(NEW_CONN, Concat(ds[..|ds| - 1]), ds[|ds| - 1], check, answer);
    }
  }

  /**
   * For every way of cutting the client's bytes into chunks before the upstream connects: the leading SSL
   * requests are refused once each, and connecting flushes exactly the rest of the byte stream, provided that
   * it starts with a whole startup message. Otherwise nothing is flushed and nothing is lost.
   */
  lemma StartupIgnoresChunking(ds: seq<seq<Byte>>, check: seq<Byte> -> bool, answer: seq<Byte>)
    ensures var cut := CutAll(SslRequestSize, Concat(ds));
            var fed := Feed(ClientStep(check, answer), NEW_CONN, ds);
            var connected := OnUpstreamConnected(fed.conn);
            && Concat(cut.messages) + cut.rest == Concat(ds)
            && SslRequestSize(cut.rest) == None
            && fed.actions == Repeat(|cut.messages|, SSL_REFUSED)
            && (StartupSize(cut.rest).Some? ==>
                  connected == Outcome(NEW_CONN.(phase := Proxying), [UpstreamSend(cut.rest)]))
            && (StartupSize(cut.rest).None? ==>
                  && connected == Outcome(fed.conn, []) && fed.conn.recvBuf == cut.rest
                  && fed.conn.phase == if cut.messages == [] then AwaitingStartup else SslNegotiation)
  {
    FeedIsOneCall(ds, check, answer);
    CutConserves(SslRequestSize, Concat(ds));
    RestIsNotSsl(Concat(ds));
    assert [] + Concat(ds) == Concat(ds);
    NegotiatedFlush(CutAll(SslRequestSize, Concat(ds)));
  }

  lemma NegotiatedFlush(cut: Cut)
    ensures var fed := Negotiate(NEW_CONN, cut);
            var connected := OnUpstreamConnected(fed.conn);
            && (StartupSize(cut.rest).Some? ==>
                  connected == Outcome(NEW_CONN.(phase := Proxying), [UpstreamSend(cut.rest)]))
            && (StartupSize(cut.rest).None? ==>
                  && connected == Outcome(fed.conn, []) && fed.conn.recvBuf == cut.rest
                  && fed.conn.phase == if cut.messages == [] then AwaitingStartup else SslNegotiation)
  {
    assert [] + cut.rest == cut.rest;
  }

  /** The eight bytes of an SSL request; anything else of its length is none. */
  lemma SslRequestOnTheWire(buf: seq<Byte>)
    requires |buf| >= 8
    ensures SslRequestSize(buf) == Some(8) <==> buf[..8] == [0, 0, 0, 8, 4, 210, 22, 47]
  {
    assert buf[..8] == [buf[0], buf[1], buf[2], buf[3], buf[4], buf[5], buf[6], buf[7]];
    Uint32Is(buf[0], buf[1], buf[2], buf[3], 0, 0, 0, 8);
    Uint32Is(buf[4], buf[5], buf[6], buf[7], 4, 210, 22, 47);
  }

  lemma Uint32Is(a: Byte, b: Byte, c: Byte, d: Byte, w: Byte, x: Byte, y: Byte, z: Byte)
    ensures Uint32(a, b, c, d) == Uint32(w, x, y, z) <==> a == w && b == x && c == y && d == z
  {
    var ab, wx := a as int * 0x100 + b, w as int * 0x100 + x;
    var abc, wxy := ab * 0x100 + c, wx * 0x100 + y;
    assert Uint32(a, b, c, d) == abc * 0x100 + d && Uint32(w, x, y, z) == wxy * 0x100 + z;
    LastByte(abc, d, wxy, z);
    LastByte(ab, c, wx, y);
    LastByte(a, b, w, x);
  }

  lemma LastByte(m: int, a: Byte, n: int, b: Byte)
    ensures m * 0x100 + a == n * 0x100 + b <==> m == n && a == b
  {
  }

  /** An SSL request on a new connection is refused with the byte 'N', and the connection goes on negotiating. */
  lemma SslIsRefused(check: seq<Byte> -> bool, answer: seq<Byte>)
    ensures OnClientData(NEW_CONN, [0, 0, 0, 8, 4, 210, 22, 47], check, answer)
            == Outcome(NEW_CONN.(phase := SslNegotiation), [DownstreamSend([78])])
  {
    var msg: seq<Byte> := [0, 0, 0, 8, 4, 210, 22, 47];
    assert msg[..8] == msg && msg[8..] == [] && NEW_CONN.recvBuf + msg == msg;
    SslRequestOnTheWire(msg);
    assert CutAll(SslRequestSize, []) == Cut([], []);
    assert CutAll(SslRequestSize, msg) == Cut([msg], []);
    assert Repeat(1, SSL_REFUSED) == Repeat(0, SSL_REFUSED) + [DownstreamSend(SSL_REFUSED)];
  }

  // ---------------------------------------------------------------------
  // The backend scan does not depend on chunking
  // ---------------------------------------------------------------------

  lemma {:induction false} LastStatusAppend(s: Option<TxnStatus>, a: seq<seq<Byte>>, b: seq<seq<Byte>>)
    ensures LastStatus(s, a + b) == LastStatus(LastStatus(s, a), b)
    decreases |b|
  {
    if b == [] {
      assert a + b == a;
    } else {
      assert (a + b)[..|a + b| - 1] == a + b[..|b| - 1];
      LastStatusAppend(s, a, b[..|b| - 1]);
    }
  }

  lemma HasReadyAppend(a: seq<seq<Byte>>, b: seq<seq<Byte>>)
    ensures HasReady(a + b) <==> HasReady(a) || HasReady(b)
  {
    if HasReady(a + b) {
      var m :| m in a + b && ReadyStatus(m).Some?;
      assert m in a || m in b;
    }
    if HasReady(a) {
      var m :| m in a && ReadyStatus(m).Some?;
      assert m in a + b;
    }
    if HasReady(b) {
      var m :| m in b && ReadyStatus(m).Some?;
      assert m in a + b;
    }
  }

  lemma ScanTwice(c: Conn, more: seq<Byte>)
    ensures var first := ScanReady(c);
            ScanReady(first.(upstreamRecvBuf := first.upstreamRecvBuf + more))
            == ScanReady(c.(upstreamRecvBuf := c.upstreamRecvBuf + more))
  {
    SizesStable();
    CutAppend(TaggedSize, c.upstreamRecvBuf, more);
    var cut := CutAll(TaggedSize, c.upstreamRecvBuf);
    LastStatusAppend(c.status, cut.messages, CutAll(TaggedSize, cut.rest + more).messages);
    HasReadyAppend(cut.messages, CutAll(TaggedSize, cut.rest + more).messages);
  }

  function Forwarded(acts: seq<ConnAction>): seq<Byte>
  {
    if acts == [] then []
    else
      var last := acts[|acts| - 1];
      Forwarded(acts[..|acts| - 1]) + if last.DownstreamSend? then last.data else []
  }

  lemma {:induction false} BackendBytesPass(c: Conn, ds: seq<seq<Byte>>)
    requires !c.phase.Closing?
    ensures Feed(OnUpstreamData, c, ds).conn.phase == c.phase
    ensures Forwarded(Feed(OnUpstreamData, c, ds).actions) == Concat(ds)
    decreases |ds|
  {
    if ds != [] {
      var init := ds[..|ds| - 1];
      BackendBytesPass(c, init);
      ConcatLast(ds);
      var acts := Feed(OnUpstreamData, c, ds).actions;
      assert acts[..|acts| - 1] == Feed(OnUpstreamData, c, init).actions;
    }
  }

  lemma {:induction false} ScanIgnoresChunking(c: Conn, ds: seq<seq<Byte>>)
    requires !c.phase.Closing? && (ds == [] ==> TaggedSize(c.upstreamRecvBuf) == None)
    ensures Feed(OnUpstreamData, c, ds).conn == ScanReady(c.(upstreamRecvBuf := c.upstreamRecvBuf + Concat(ds)))
    decreases |ds|
  {
    if ds == [] {
      assert c.upstreamRecvBuf + Concat(ds) == c.upstreamRecvBuf;
    } else {
      var init, d := ds[..|ds| - 1], ds[|ds| - 1];
      ConcatLast(ds);
      Associate(c.upstreamRecvBuf, Concat(init), d);
      if init == [] {
        assert c.upstreamRecvBuf + Concat(init) == c.upstreamRecvBuf;
      } else {
        ScanIgnoresChunking(c, init);
        ScanTwice(c.(upstreamRecvBuf := c.upstreamRecvBuf + Concat(init)), d);
      }
    }
  }

  /**
   * For every way of cutting the backend's bytes into chunks: all bytes reach the client unchanged, and the
   * tracked status is that of the last valid ReadyForQuery in the message decomposition of the whole stream.
   */
  lemma BackendIgnoresChunking(ds: seq<seq<Byte>>, phase: Phase)
    requires !phase.Closing?
    ensures var cut := CutAll(TaggedSize, Concat(ds));
            var fed := Feed(OnUpstreamData, NEW_CONN.(phase := phase), ds);
            && Concat(cut.messages) + cut.rest == Concat(ds)
            && fed.conn == NEW_CONN.(phase := phase,
                                     upstreamRecvBuf := cut.rest,
                                     status := LastStatus(None, cut.messages),
                                     authComplete := HasReady(cut.messages))
            && Forwarded(fed.actions) == Concat(ds)
  {
    CutConserves(TaggedSize, Concat(ds));
    ScanIgnoresChunking(NEW_CONN.(phase := phase), ds);
    BackendBytesPass(NEW_CONN.(phase := phase), ds);
    assert [] + Concat(ds) == Concat(ds);
  }

  /** Once closing, a connection neither changes nor does anything, whatever either side still sends. */
  lemma {:induction false} ClosingIsSilent(c: Conn, ds: seq<seq<Byte>>, check: seq<Byte> -> bool, answer: seq<Byte>)
    requires c.phase.Closing?
    ensures Feed(OnUpstreamData, c, ds) == Outcome(c, [])
    ensures Feed(ClientStep(check, answer), c, ds) == Outcome(c, [])
    decreases |ds|
  {
    if ds != [] {
      ClosingIsSilent(c, ds[..|ds| - 1], check, answer);
    }
  }

  // ---------------------------------------------------------------------
  // Proxying while idle
  // ---------------------------------------------------------------------

  /**
   * An idle connection keeps back nothing but the leading health checks, which it answers once each: those,
   * what it forwards and what it still holds make up the bytes it was given, in order, and it holds an
   * incomplete message or forwards everything.
   */
  lemma IdleDrainConserves(c: Conn, data: seq<Byte>, check: seq<Byte> -> bool, answer: seq<Byte>)
    requires c.phase.Proxying? && IsIdle(c)
    ensures var cut := CutAll(b => HealthCheckSize(b, check), c.recvBuf + data);
            var o := OnClientData(c, data, check, answer);
            && Concat(cut.messages) + cut.rest == c.recvBuf + data
            && Forwarded(o.actions) == Forwarded(Repeat(|cut.messages|, answer))
            && Sent(o.actions) + o.conn.recvBuf == cut.rest
            && TaggedSize(o.conn.recvBuf) == None
  {
    CutConserves(b => HealthCheckSize(b, check), c.recvBuf + data);
    DrainedBytes(c, CutAll(b => HealthCheckSize(b, check), c.recvBuf + data), answer);
  }

  lemma DrainedBytes(c: Conn, cut: Cut, answer: seq<Byte>)
    ensures var o := Drained(c, cut, answer);
            && Forwarded(o.actions) == Forwarded(Repeat(|cut.messages|, answer))
            && Sent(o.actions) + o.conn.recvBuf == cut.rest
            && TaggedSize(o.conn.recvBuf) == None
  {
    var answers := Repeat(|cut.messages|, answer);
    NothingSent(|cut.messages|, answer);
    ThenSent(answers, cut.rest);
    assert [] + cut.rest == cut.rest && cut.rest + [] == cut.rest;
  }

  lemma ThenSent(acts: seq<ConnAction>, data: seq<Byte>)
    ensures Forwarded(acts + [UpstreamSend(data)]) == Forwarded(acts)
    ensures Sent(acts + [UpstreamSend(data)]) == Sent(acts) + data
  {
    var all := acts + [UpstreamSend(data)];
    assert all[..|all| - 1] == acts;
    assert Forwarded(acts) + [] == Forwarded(acts);
  }

  function Sent(acts: seq<ConnAction>): seq<Byte>
  {
    if acts == [] then []
    else
      var last := acts[|acts| - 1];
      Sent(acts[..|acts| - 1]) + if last.UpstreamSend? then last.data else []
  }

  lemma {:induction false} NothingSent(n: nat, data: seq<Byte>)
    ensures Sent(Repeat(n, data)) == []
  {
    if n > 0 {
      NothingSent(n - 1, data);
      assert (Repeat(n - 1, data) + [DownstreamSend(data)])[..|Repeat(n, data)| - 1] == Repeat(n - 1, data);
    }
  }

  /** The status byte of the last ReadyForQuery with a valid one: 'I', 'T' or 'E'. */
  function LastReadyByte(messages: seq<seq<Byte>>): Option<Byte>
  {
    if messages == [] then None
    else
      var m := messages[|messages| - 1];
      if |m| >= 6 && m[0] == 90 && m[5] in {73, 84, 69} then Some(m[5]) else LastReadyByte(messages[..|messages| - 1])
  }

  lemma {:induction false} StatusIsLastByte(messages: seq<seq<Byte>>)
    ensures LastStatus(None, messages) == (match LastReadyByte(messages)
                                           case None => None
                                           case Some(b) => StatusOfByte(b))
    ensures HasReady(messages) <==> LastReadyByte(messages).Some?
    ensures LastReadyByte(messages).Some? ==> LastReadyByte(messages).value in {73, 84, 69}
  {
    if messages != [] {
      var init, m := messages[..|messages| - 1], messages[|messages| - 1];
      StatusIsLastByte(init);
      assert messages == init + [m];
      HasReadyAppend(init, [m]);
      assert HasReady([m]) <==> ReadyStatus(m).Some? by {
        assert m in [m];
      }
    }
  }

  /**
   * Whatever the backend has sent, in whatever chunks: a client message that arrives whole on a proxying connection is
   * answered by the proxy if and only if it is a query that is a health check and the last ReadyForQuery of the
   * backend said idle. Every other message goes to the backend; in a transaction, failed or not, all do.
   */
  lemma AnsweredLocallyIff(ds: seq<seq<Byte>>, msg: seq<Byte>, check: seq<Byte> -> bool, answer: seq<Byte>)
    requires TaggedSize(msg) == Some(|msg|)
    ensures var c := Feed(OnUpstreamData, NEW_CONN.(phase := Proxying), ds).conn;
            var idle := LastReadyByte(CutAll(TaggedSize, Concat(ds)).messages) == Some(73);
            OnClientData(c, msg, check, answer).actions
            == if idle && msg[0] == 81 && check(msg) then [DownstreamSend(answer)] else [UpstreamSend(msg)]
  {
    IdleIsLastByte(ds);
    AnsweredWhenIdle(Feed(OnUpstreamData, NEW_CONN.(phase := Proxying), ds).conn, msg, check, answer);
  }

  lemma IdleIsLastByte(ds: seq<seq<Byte>>)
    ensures var c := Feed(OnUpstreamData, NEW_CONN.(phase := Proxying), ds).conn;
            && c.phase.Proxying? && c.recvBuf == []
            && (IsIdle(c) <==> LastReadyByte(CutAll(TaggedSize, Concat(ds)).messages) == Some(73))
  {
    BackendIgnoresChunking(ds, Proxying);
    StatusIsLastByte(CutAll(TaggedSize, Concat(ds)).messages);
  }

  lemma AnsweredWhenIdle(c: Conn, msg: seq<Byte>, check: seq<Byte> -> bool, answer: seq<Byte>)
    requires c.phase.Proxying? && c.recvBuf == [] && TaggedSize(msg) == Some(|msg|)
    ensures OnClientData(c, msg, check, answer).actions
            == if IsIdle(c) && msg[0] == 81 && check(msg) then [DownstreamSend(answer)] else [UpstreamSend(msg)]
  {
    var size := b => HealthCheckSize(b, check);
    assert c.recvBuf + msg == msg && msg[..|msg|] == msg;
    if msg[0] == 81 && check(msg) {
      CutOne(size, msg);
      assert Repeat(1, answer) == Repeat(0, answer) + [DownstreamSend(answer)];
    } else {
      assert CutAll(size, msg) == Cut([], msg);
      assert Repeat(0, answer) + [UpstreamSend(msg)] == [UpstreamSend(msg)];
    }
  }

  lemma CutOne(size: seq<Byte> -> Option<nat>, msg: seq<Byte>)
    requires msg != [] && size(msg) == Some(|msg|) && size([]).None?
    ensures CutAll(size, msg) == Cut([msg], [])
  {
    assert msg[..|msg|] == msg && msg[|msg|..] == [];
  }

  /**
   * Outside idle, data is forwarded past whatever is held: every later chunk leaves in order if and only if
   * nothing is held.
   */
  lemma DirectForwardingInOrderIff(c: Conn, check: seq<Byte> -> bool, answer: seq<Byte>)
    requires c.phase.Proxying? && !IsIdle(c)
    ensures c.recvBuf == []
            <==> forall data: seq<Byte> :: InOrder(c, data, OnClientData(c, data, check, answer))
  {
    forall data: seq<Byte>
      ensures InOrder(c, data, OnClientData(c, data, check, answer)) <==> data + c.recvBuf == c.recvBuf + data
    {
      SentOne(data);
    }
    if c.recvBuf != [] {
      var other: Byte := if c.recvBuf[0] == 0 then 1 else 0;
      assert ([other] + c.recvBuf)[0] != (c.recvBuf + [other])[0];
      assert !InOrder(c, [other], OnClientData(c, [other], check, answer));
    }
  }

  predicate InOrder(c: Conn, data: seq<Byte>, o: Outcome) { Sent(o.actions) + o.conn.recvBuf == c.recvBuf + data }

  lemma SentOne(data: seq<Byte>)
    ensures Sent([UpstreamSend(data)]) == data
  {
    assert [UpstreamSend(data)][..0] == [];
    assert [] + data == data;
  }

  /** A startup message for version 3.0 with no parameters. */
  const STARTUP_MESSAGE: seq<Byte> := [0, 0, 0, 8, 0, 3, 0, 0]

  function ReadyForQuery(status: Byte): seq<Byte> { [TAG_READY_FOR_QUERY, 0, 0, 0, 5, status] }

  /** A connection that is new, is started, gets its upstream, and is told by the backend that it is idle. */
  function IdleConn(check: seq<Byte> -> bool, answer: seq<Byte>): Conn
  {
    var started := OnClientData(NEW_CONN, STARTUP_MESSAGE, check, answer).conn;
    OnUpstreamData(OnUpstreamConnected(started).conn, ReadyForQuery(73)).conn
  }

  /**
   * Such a state is reached from a new connection whenever the backend leaves idle while part of a message is held:
   * what the client sends next overtakes that part.
   */
  lemma HeldBytesOvertaken(part: seq<Byte>, later: seq<Byte>, check: seq<Byte> -> bool, answer: seq<Byte>)
    requires part != [] && TaggedSize(part) == None
    ensures var held := OnClientData(IdleConn(check, answer), part, check, answer).conn;
            var busy := OnUpstreamData(held, ReadyForQuery(84)).conn;
            var o := OnClientData(busy, later, check, answer);
            o.actions == [UpstreamSend(later)] && o.conn.recvBuf == part
  {
    IdleConnReached(check, answer);
    HoldsPart(IdleConn(check, answer), part, check, answer);
    StatusTracked(OnClientData(IdleConn(check, answer), part, check, answer).conn, 84);
  }

  lemma IdleConnReached(check: seq<Byte> -> bool, answer: seq<Byte>)
    ensures IdleConn(check, answer) == Conn(Proxying, [], [], [], Some(Idle), true)
  {
    var ds := [STARTUP_MESSAGE];
    assert ds[..0] == [] && ds[1..] == [] && Concat(ds) == STARTUP_MESSAGE + [] == STARTUP_MESSAGE;
    FeedIsOneCall(ds, check, answer);
    StartsAlone(STARTUP_MESSAGE);
    StartupIgnoresChunking(ds, check, answer);
    StatusTracked(NEW_CONN.(phase := Proxying), 73);
  }

  lemma StartsAlone(msg: seq<Byte>)
    requires |msg| == 8 && msg[..4] == [0, 0, 0, 8] && msg[4..] == [0, 3, 0, 0]
    ensures CutAll(SslRequestSize, msg) == Cut([], msg) && StartupSize(msg).Some?
  {
    assert msg[0] == msg[..4][0] && msg[1] == msg[..4][1] && msg[2] == msg[..4][2] && msg[3] == msg[..4][3];
    assert msg[4] == msg[4..][0] && msg[5] == msg[4..][1] && msg[6] == msg[4..][2] && msg[7] == msg[4..][3];
    assert Uint32(msg[0], msg[1], msg[2], msg[3]) == 8 && Uint32(msg[4], msg[5], msg[6], msg[7]) != SSL_REQUEST_CODE;
  }

  lemma HoldsPart(c: Conn, part: seq<Byte>, check: seq<Byte> -> bool, answer: seq<Byte>)
    requires c.phase.Proxying? && IsIdle(c) && c.recvBuf == [] && TaggedSize(part) == None
    ensures OnClientData(c, part, check, answer).conn == c.(recvBuf := part)
  {
    assert c.recvBuf + part == part;
    assert CutAll(b => HealthCheckSize(b, check), part) == Cut([], part);
  }

  /** A ReadyForQuery with a valid status, on its own. */
  lemma StatusTracked(c: Conn, status: Byte)
    requires c.phase.Proxying? && c.upstreamRecvBuf == [] && StatusOfByte(status).Some?
    ensures OnUpstreamData(c, ReadyForQuery(status)).conn == c.(status := StatusOfByte(status), authComplete := true)
  {
    ReadyAlone(ReadyForQuery(status), status);
    OneMessageScanned(c, ReadyForQuery(status));
  }

  lemma OneMessageScanned(c: Conn, msg: seq<Byte>)
    requires !c.phase.Closing? && c.upstreamRecvBuf == []
    requires CutAll(TaggedSize, msg) == Cut([msg], []) && ReadyStatus(msg).Some?
    ensures OnUpstreamData(c, msg).conn == c.(status := ReadyStatus(msg), authComplete := true)
  {
    assert c.upstreamRecvBuf + msg == msg;
    var messages := [msg];
    assert messages[..0] == [] && msg in messages;
  }

  lemma ReadyAlone(ready: seq<Byte>, status: Byte)
    requires ready == ReadyForQuery(status)
    ensures CutAll(TaggedSize, ready) == Cut([ready], []) && ReadyStatus(ready) == StatusOfByte(status)
  {
    assert TaggedSize(ready) == Some(6) && ready[..6] == ready && ready[6..] == [];
    assert CutAll(TaggedSize, []) == Cut([], []);
  }
}
