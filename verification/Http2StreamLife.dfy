/** The stream table over a connection's whole life, from the byte streams of both sides. */
module Http2StreamLife {
  import opened Common
  import opened Http2Frames
  import opened Http2Connection
  import opened Http2Chunking
  import opened Http2StreamTable
  import opened Http2Delivery

  // ---------------------------------------------------------------------
  // The reference: frames in the order in which they become complete
  // ---------------------------------------------------------------------

  /** The client frames that `d` completes, after the client has sent `bytes`. */
  function ClientFrames(bytes: seq<Byte>, d: seq<Byte>): seq<RawFrame>
  {
    if !GoodPreface(bytes + d) then []
    else if |bytes| < |CLIENT_PREFACE| then CutFrames((bytes + d)[|CLIENT_PREFACE|..]).frames
    else CutFrames(CutFrames(bytes[|CLIENT_PREFACE|..]).rest + d).frames
  }

  function BackendFrames(bytes: seq<Byte>, d: seq<Byte>): seq<RawFrame>
  {
    CutFrames(CutFrames(bytes).rest + d).frames
  }

  function ArrivalsOf(l: Ledger, e: ConnEvent): seq<Arrival>
  {
    match e
    case ClientData(d) => if l.ended then [] else Batch(FromClient, ClientFrames(l.clientBytes, d))
    case UpstreamData(d) => Batch(FromBackend, BackendFrames(l.backendBytes, d))
    case UpstreamClosed => [Gone]
    case UpstreamFailed => [Gone]
    case _ => []
  }

  function Arrivals(es: seq<ConnEvent>): seq<Arrival>
  {
    if es == [] then []
    else Arrivals(es[..|es| - 1]) + ArrivalsOf(LedgerOf(es[..|es| - 1]), es[|es| - 1])
  }

  // ---------------------------------------------------------------------
  // One input
  // ---------------------------------------------------------------------

  /** What the connection and the state machine of `id` have in common. */
  ghost predicate Follows(c: Conn, l: Ledger, id: nat, t: Track)
  {
    && UniqueIds(c.core.streams)
    && Find(c.core.streams, id) == t.stream
    && (l.ended ==> t.closing)
    && (t.closing ==> c.core.phase.Closing?)
    && (c.core.phase.Closing? && !t.closing ==> |l.clientBytes| >= |CLIENT_PREFACE| && !GoodPreface(l.clientBytes))
  }

  lemma BatchTracks(side: Side, c: Core, raws: seq<RawFrame>, id: nat, t: Track)
    requires UniqueIds(c.streams) && Tracked(c, id) == t
    ensures var c' := ReceiveAll(side, c, raws).core;
            UniqueIds(c'.streams) && Tracked(c', id) == TrackRun(t, id, Batch(side, raws))
  {
    BatchReceived(side, c, raws);
    StreamTableRefines(c, Batch(side, raws), id);
  }

  /** The client's bytes after a good preface reach the table frame by frame. */
  lemma ClientDataCore(c: Conn, bytes: seq<Byte>, d: seq<Byte>)
    requires TracksClient(c, bytes) && GoodPreface(bytes + d)
    ensures var start := if c.core.phase.AwaitingPreface? then c.core.(phase := Handshaking) else c.core;
            && OnClientData(c, d).conn.core == ReceiveAll(FromClient, start, ClientFrames(bytes, d)).core
            && (start.phase.Closing? <==> c.core.phase.Closing?)
            && (c.core.phase.AwaitingPreface? <==> |bytes| < |CLIENT_PREFACE|)
  {
    var n := |CLIENT_PREFACE|;
    if |bytes| >= n {
      assert (bytes + d)[..n] == bytes[..n];
    }
  }

  lemma ClientDataFollows(c: Conn, l: Ledger, d: seq<Byte>, id: nat, t: Track)
    requires Tracks(c, l) && !l.ended && Follows(c, l, id, t)
    ensures Follows(OnClientData(c, d).conn, Account(l, ClientData(d)), id,
                    TrackRun(t, id, ArrivalsOf(l, ClientData(d))))
  {
    var bytes, n := l.clientBytes, |CLIENT_PREFACE|;
    if |bytes| >= n {
      assert (bytes + d)[..n] == bytes[..n];
    }
    if GoodPreface(bytes + d) {
      ClientDataCore(c, bytes, d);
      var start := if c.core.phase.AwaitingPreface? then c.core.(phase := Handshaking) else c.core;
      BatchTracks(FromClient, start, ClientFrames(bytes, d), id, t);
    } else if |bytes| >= n {
      ClosingDropsClientData(c, d);
    }
  }

  /** For the backend's frames it does not matter whether client frames still count. */
  lemma {:induction false} BackendBatchSame(id: nat, raws: seq<RawFrame>, t: Track, u: Track)
    requires t.stream == u.stream
    ensures TrackRun(t, id, Batch(FromBackend, raws)).stream == TrackRun(u, id, Batch(FromBackend, raws)).stream
    ensures TrackRun(t, id, Batch(FromBackend, raws)).closing <==> t.closing || HasGoaway(raws)
    decreases |raws|
  {
    if raws != [] {
      var a := Arrived(FromBackend, raws[0]);
      assert Batch(FromBackend, raws)[1..] == Batch(FromBackend, raws[1..]);
      BackendBatchSame(id, raws[1..], TrackStep(t, id, a), TrackStep(u, id, a));
      HasGoawayFirst(raws);
    }
  }

  lemma UpstreamDataFollows(c: Conn, l: Ledger, d: seq<Byte>, id: nat, t: Track)
    requires Tracks(c, l) && Follows(c, l, id, t)
    ensures Follows(OnUpstreamData(c, d).conn, Account(l, UpstreamData(d)), id,
                    TrackRun(t, id, ArrivalsOf(l, UpstreamData(d))))
  {
    var raws := BackendFrames(l.backendBytes, d);
    CutFramesAppend(l.backendBytes, d);
    HasGoawayAppend(CutFrames(l.backendBytes).frames, raws);
    BatchTracks(FromBackend, c.core, raws, id, Tracked(c.core, id));
    BackendBatchSame(id, raws, t, Tracked(c.core, id));
    ClosingTracksGoaway(FromBackend, c.core, raws);
  }

  lemma EventFollows(c: Conn, l: Ledger, e: ConnEvent, id: nat, t: Track)
    requires Tracks(c, l) && Follows(c, l, id, t)
    ensures Follows(Apply(c, e).conn, Account(l, e), id, TrackRun(t, id, ArrivalsOf(l, e)))
  {
    match e
    case ClientData(d) =>
      if l.ended {
        ClosingDropsClientData(c, d);
      } else {
        ClientDataFollows(c, l, d, id, t);
      }
    case UpstreamData(d) => UpstreamDataFollows(c, l, d, id, t);
    case _ =>
      assert [Gone][1..] == [];
      assert TrackRun(t, id, [Gone]) == Track(None, true);
  }

  // ---------------------------------------------------------------------
  // Whole lives
  // ---------------------------------------------------------------------

  /**
   * After any interleaving of inputs, each stream's entry is what its own state machine makes of the frames of
   * both byte streams, merged in the order in which they became complete, and of the backend ending.
   */
  lemma StreamTableOnEveryRun(es: seq<ConnEvent>, id: nat)
    ensures UniqueIds(Run(es).conn.core.streams)
    ensures Find(Run(es).conn.core.streams, id) == TrackRun(Track(None, false), id, Arrivals(es)).stream
  {
    RunFollows(es, id);
  }

  lemma {:induction false} RunFollows(es: seq<ConnEvent>, id: nat)
    ensures Follows(Run(es).conn, LedgerOf(es), id, TrackRun(Track(None, false), id, Arrivals(es)))
  {
    if es != [] {
      var init, e := es[..|es| - 1], es[|es| - 1];
      RunDelivers(init);
      RunFollows(init, id);
      TrackRunAppend(Track(None, false), id, Arrivals(init), ArrivalsOf(LedgerOf(init), e));
      EventFollows(Run(init).conn, LedgerOf(init), e, id, TrackRun(Track(None, false), id, Arrivals(init)));
    }
  }
}
