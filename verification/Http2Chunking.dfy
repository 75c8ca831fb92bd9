/** How TCP cut the byte stream into chunks does not matter to a connection. */
module Http2Chunking {
  import opened Common
  import opened Http2Frames
  import opened Http2Connection

  /** Two chunks one after the other. */
  function ClientDataTwice(c: Conn, d1: seq<Byte>, d2: seq<Byte>): ConnOutcome
  {
    var first := OnClientData(c, d1);
    var second := OnClientData(first.conn, d2);
    ConnOutcome(second.conn, first.actions + second.actions)
  }

  /** The first chunk completes 24 bytes that are not the preface. */
  predicate RejectsPreface(c: Conn, data: seq<Byte>)
  {
    var buf := c.recvBuf + data;
    c.core.phase.AwaitingPreface? && |buf| >= |CLIENT_PREFACE| && buf[..|CLIENT_PREFACE|] != CLIENT_PREFACE
  }

  /** Draining in two parts, on either side. */
  lemma DrainAppend(side: Side, c: Core, a: seq<Byte>, b: seq<Byte>)
    ensures var first := Drain(side, c, a);
            var second := Drain(side, first.core, first.rest + b);
            Drain(side, c, a + b) == Drained(second.core, first.actions + second.actions, second.rest)
  {
    CutFramesAppend(a, b);
    FoldAppend(Receiver(side), c, CutFrames(a).frames, CutFrames(CutFrames(a).rest + b).frames);
  }

  lemma DrainTwice(c: Conn, a: seq<Byte>, b: seq<Byte>)
    ensures var first := DrainClient(c, a);
            var second := DrainClient(first.conn, first.conn.recvBuf + b);
            DrainClient(c, a + b) == ConnOutcome(second.conn, first.actions + second.actions)
  {
    DrainAppend(FromClient, c.core, a, b);
  }

  lemma {:induction false} FoldSilent(c: Core, raws: seq<RawFrame>)
    requires c.phase.Closing?
    ensures ReceiveAll(FromClient, c, raws) == Outcome(c, [])
    decreases |raws|
  {
    if raws != [] {
      FoldSilent(c, raws[1..]);
    }
  }

  /** No client frame returns the connection to waiting for the preface. */
  lemma {:induction false} PrefaceOnce(c: Core, raws: seq<RawFrame>)
    requires !c.phase.AwaitingPreface?
    ensures !ReceiveAll(FromClient, c, raws).core.phase.AwaitingPreface?
    decreases |raws|
  {
    if raws != [] {
      PrefaceStays(c, raws[0]);
      PrefaceOnce(Receive(FromClient, c, raws[0]).core, raws[1..]);
    }
  }

  lemma PrefaceStays(c: Core, raw: RawFrame)
    requires !c.phase.AwaitingPreface?
    ensures !Receive(FromClient, c, raw).core.phase.AwaitingPreface?
  {
    ClientFramePhase(c, DecodeFrame(raw), raw);
  }

  lemma {:induction false} CutShrinks(buf: seq<Byte>)
    ensures |CutFrames(buf).rest| <= |buf|
    ensures CutFrames(buf).rest == buf <==> Complete(buf) == None
    decreases |buf|
  {
    if Complete(buf).Some? {
      CutShrinks(buf[Complete(buf).value..]);
    }
  }

  /** Once closing, client bytes are cut and dropped. */
  lemma ClosingDropsClientData(c: Conn, data: seq<Byte>)
    requires c.core.phase.Closing?
    ensures OnClientData(c, data) == ConnOutcome(c.(recvBuf := CutFrames(c.recvBuf + data).rest), [])
  {
    FoldSilent(c.core, CutFrames(c.recvBuf + data).frames);
  }

  /** Two chunks of client data and their concatenation. */
  lemma ClientTwoChunks(c: Conn, d1: seq<Byte>, d2: seq<Byte>)
    ensures ClientDataTwice(c, d1, d2).actions == OnClientData(c, d1 + d2).actions
    ensures ClientDataTwice(c, d1, d2).conn.core == OnClientData(c, d1 + d2).conn.core
    ensures ClientDataTwice(c, d1, d2).conn == OnClientData(c, d1 + d2).conn
            <==> !(RejectsPreface(c, d1) && Complete(c.recvBuf + d1 + d2).Some?)
  {
    var buf := c.recvBuf + d1;
    assert c.recvBuf + (d1 + d2) == buf + d2;
    if !c.core.phase.AwaitingPreface? {
      PrefaceOnce(c.core, CutFrames(buf).frames);
      DrainTwice(c, buf, d2);
    } else if |buf| >= |CLIENT_PREFACE| {
      assert (buf + d2)[..|CLIENT_PREFACE|] == buf[..|CLIENT_PREFACE|];
      if RejectsPreface(c, d1) {
        ClosingDropsClientData(OnClientData(c, d1).conn, d2);
        CutShrinks(buf + d2);
      } else {
        assert (buf + d2)[|CLIENT_PREFACE|..] == buf[|CLIENT_PREFACE|..] + d2;
        GreetTwice(c, buf[|CLIENT_PREFACE|..], d2);
      }
    }
  }

  lemma GreetTwice(c: Conn, a: seq<Byte>, b: seq<Byte>)
    ensures var first := Greet(c, a);
            var second := OnClientData(first.conn, b);
            Greet(c, a + b) == ConnOutcome(second.conn, first.actions + second.actions)
  {
    var greeted := c.(core := c.core.(phase := Handshaking));
    var first := DrainClient(greeted, a);
    assert OnClientData(first.conn, b) == DrainClient(first.conn, first.conn.recvBuf + b) by {
      PrefaceOnce(greeted.core, CutFrames(a).frames);
    }
    DrainTwice(greeted, a, b);
    Associate([DownstreamSend(OurSettings(), Proxy)], first.actions, OnClientData(first.conn, b).actions);
  }

  /** Client data in chunks, one call each. */
  function FeedClient(c: Conn, ds: seq<seq<Byte>>): ConnOutcome
  {
    if ds == [] then ConnOutcome(c, [])
    else
      var before := FeedClient(c, ds[..|ds| - 1]);
      var last := OnClientData(before.conn, ds[|ds| - 1]);
      ConnOutcome(last.conn, before.actions + last.actions)
  }

  lemma FeedOne(c: Conn, ds: seq<seq<Byte>>)
    requires |ds| == 1
    ensures FeedClient(c, ds) == OnClientData(c, Concat(ds))
  {
    var acts := OnClientData(c, ds[0]).actions;
    assert ds[..0] == [] && ds[1..] == [] && ds[0] + [] == ds[0] && [] + acts == acts;
  }

  /** One more chunk after a rejected preface: what was discarded before makes no difference. */
  lemma ClosingForgets(c: Conn, a: Conn, buf: seq<Byte>, d: seq<Byte>)
    requires c.core.phase.Closing? && c.recvBuf == buf && a == c.(recvBuf := CutFrames(buf).rest)
    ensures OnClientData(a, d) == OnClientData(c, d)
  {
    ClosingDropsClientData(a, d);
    ClosingDropsClientData(c, d);
    CutFramesAppend(buf, d);
  }

  lemma TwiceThenMore(c: Conn, d1: seq<Byte>, d2: seq<Byte>, d3: seq<Byte>)
    ensures var twice := ClientDataTwice(c, d1, d2);
            var more := OnClientData(twice.conn, d3);
            ConnOutcome(more.conn, twice.actions + more.actions) == ClientDataTwice(c, d1 + d2, d3)
  {
    ClientTwoChunks(c, d1, d2);
    if RejectsPreface(c, d1) {
      var buf := c.recvBuf + d1 + d2;
      assert c.recvBuf + (d1 + d2) == buf;
      assert buf[..|CLIENT_PREFACE|] == (c.recvBuf + d1)[..|CLIENT_PREFACE|];
      ClosingDropsClientData(OnClientData(c, d1).conn, d2);
      ClosingForgets(OnClientData(c, d1 + d2).conn, ClientDataTwice(c, d1, d2).conn, buf, d3);
    }
  }

  /** All chunks but the last might as well have come as one. */
  lemma {:induction false} FeedMany(c: Conn, ds: seq<seq<Byte>>)
    requires |ds| >= 2
    ensures FeedClient(c, ds) == ClientDataTwice(c, Concat(ds[..|ds| - 1]), ds[|ds| - 1])
    decreases |ds|
  {
    var init := ds[..|ds| - 1];
    if |ds| == 2 {
      FeedOne(c, init);
    } else {
      FeedMany(c, init);
      ConcatLast(init);
      TwiceThenMore(c, Concat(init[..|init| - 1]), init[|init| - 1], ds[|ds| - 1]);
    }
  }

  /**
   * Client side. For every connection state and every way of cutting the data into chunks, the actions are the
   * same as for one chunk; the state is the same too, except when all chunks but the last are rejected as a preface
   * and the bytes held begin with what reads as a complete frame, which only the last call discards.
   */
  lemma ClientChunking(c: Conn, ds: seq<seq<Byte>>)
    ensures ds == [] ==> FeedClient(c, ds) == ConnOutcome(c, [])
    ensures ds != [] ==>
              var one := OnClientData(c, Concat(ds));
              && FeedClient(c, ds).actions == one.actions && FeedClient(c, ds).conn.core == one.conn.core
              && (FeedClient(c, ds).conn == one.conn
                  <==> !(|ds| >= 2 && RejectsPreface(c, Concat(ds[..|ds| - 1]))
                         && Complete(c.recvBuf + Concat(ds)).Some?))
  {
    if |ds| == 1 {
      FeedOne(c, ds);
    } else if |ds| >= 2 {
      FeedMany(c, ds);
      ConcatLast(ds);
      Associate(c.recvBuf, Concat(ds[..|ds| - 1]), ds[|ds| - 1]);
      ClientTwoChunks(c, Concat(ds[..|ds| - 1]), ds[|ds| - 1]);
    }
  }

  lemma UpstreamTwoChunks(c: Conn, d1: seq<Byte>, d2: seq<Byte>)
    ensures var first := OnUpstreamData(c, d1);
            var second := OnUpstreamData(first.conn, d2);
            OnUpstreamData(c, d1 + d2) == ConnOutcome(second.conn, first.actions + second.actions)
  {
    Associate(c.upstreamRecvBuf, d1, d2);
    DrainAppend(FromBackend, c.core, c.upstreamRecvBuf + d1, d2);
  }

  function FeedUpstream(c: Conn, ds: seq<seq<Byte>>): ConnOutcome
  {
    if ds == [] then ConnOutcome(c, [])
    else
      var before := FeedUpstream(c, ds[..|ds| - 1]);
      var last := OnUpstreamData(before.conn, ds[|ds| - 1]);
      ConnOutcome(last.conn, before.actions + last.actions)
  }

  /** Backend side: for every connection state and every way of cutting the data, actions and state agree. */
  lemma {:induction false} UpstreamChunking(c: Conn, ds: seq<seq<Byte>>)
    ensures FeedUpstream(c, ds) == if ds == [] then ConnOutcome(c, []) else OnUpstreamData(c, Concat(ds))
  {
    if ds != [] {
      UpstreamChunking(c, ds[..|ds| - 1]);
      ConcatLast(ds);
      if |ds| == 1 {
        var acts := OnUpstreamData(c, ds[0]).actions;
        assert [] + ds[0] == ds[0] && [] + acts == acts;
      } else {
        UpstreamTwoChunks(c, Concat(ds[..|ds| - 1]), ds[|ds| - 1]);
      }
    }
  }
}
