/**
 * Inputs on which a law one would expect does not hold of the code. The exact conditions are stated where the
 * laws are; here is, for each of them, an input or a run from the start that meets the failing one.
 */
module Findings {
  import opened Common
  import F = Http2Frames
  import C = Http2Connection
  import K = Http2Chunking
  import A = Http2Activator
  import N = Http2ActivatorCount
  import S = Selector
  import M = NamespaceModel

  // ---------------------------------------------------------------------
  // A payload of 2^24 bytes
  // ---------------------------------------------------------------------

  function Zeros(n: nat): seq<Byte> { seq(n, _ => 0) }

  /** Sixteen megabytes of payload are read back as an empty frame, with the payload left to be read as frames. */
  lemma LongPayloadIsMisread()
    ensures var payload := Zeros(0x100_0000);
            F.ParseFrame(F.FrameBytes(F.Data, 0, 1, payload)) == Some((F.Frame(F.Data, 0, 1, []), 9))
  {
    var payload := Zeros(0x100_0000);
    var h := F.HeaderBytes(F.Data, 0, 1, |payload|);
    F.HeaderBytesDecode(F.Data, 0, 1, |payload|);
    F.ParseAfterHeader(h, payload, [], 0);
    assert h + payload + [] == F.FrameBytes(F.Data, 0, 1, payload);
  }

  // ---------------------------------------------------------------------
  // A rejected preface
  // ---------------------------------------------------------------------

  /** Twenty-four zero bytes, and then an empty chunk. */
  lemma RejectedPrefaceDiffers()
    ensures K.FeedClient(C.NEW_CONN, [Zeros(24), []]).conn != C.OnClientData(C.NEW_CONN, Zeros(24)).conn
  {
    var zeros := Zeros(24);
    assert C.NEW_CONN.recvBuf + zeros == zeros;
    assert zeros[..|F.CLIENT_PREFACE|][0] != F.CLIENT_PREFACE[0];
    RejectedDiffers(C.NEW_CONN, zeros);
  }

  lemma TwoFed(c: C.Conn, d1: seq<Byte>, d2: seq<Byte>)
    ensures K.FeedClient(c, [d1, d2]) == K.ClientDataTwice(c, d1, d2)
  {
    var ds := [d1, d2];
    K.FeedMany(c, ds);
    assert ds[..1] == [d1] && [d1][1..] == [] && d1 + [] == d1;
  }

  lemma RejectedDiffers(c: C.Conn, d: seq<Byte>)
    requires K.RejectsPreface(c, d) && c.recvBuf == [] && d == Zeros(24)
    ensures K.FeedClient(c, [d, []]).conn != C.OnClientData(c, d).conn
  {
    TwoFed(c, d, []);
    assert d + [] == d && c.recvBuf + d == d;
    assert F.FrameSize(d) == 9;
    K.ClientTwoChunks(c, d, []);
  }

  // ---------------------------------------------------------------------
  // A handle opened twice
  // ---------------------------------------------------------------------

  /** A HEADERS frame without flags or payload, on stream 1. */
  const OPEN_ONE_STREAM: seq<Byte> := [0, 0, 0, 1, 0, 0, 0, 0, 1]

  lemma OpenFrameDecodes(raw: seq<Byte>)
    requires |raw| == 9 && raw[0] == 0 && raw[1] == 0 && raw[2] == 0
    requires raw[3] == 1 && raw[4] == 0 && raw[5] == 0 && raw[6] == 0 && raw[7] == 0 && raw[8] == 1
    ensures F.IsWholeFrame(raw) && F.DecodeFrame(raw) == F.Frame(F.Headers, 0, 1, [])
  {
    NoPayload(raw);
    HeaderOnly(raw);
    OpensOne(raw);
  }

  lemma NoPayload(raw: F.RawFrame)
    requires raw[0] == 0 && raw[1] == 0 && raw[2] == 0
    ensures F.FrameSize(raw) == 9
  {
    assert Uint32(0, raw[0], raw[1], raw[2]) == 0;
  }

  lemma HeaderOnly(raw: F.RawFrame)
    requires |raw| == 9 && F.FrameSize(raw) == |raw|
    ensures F.IsWholeFrame(raw)
  {
  }

  lemma OpensOne(raw: F.RawFrame)
    requires |raw| == 9 && raw[3] == 1 && raw[4] == 0 && raw[5] == 0 && raw[6] == 0 && raw[7] == 0 && raw[8] == 1
    ensures F.DecodeFrame(raw) == F.Frame(F.Headers, 0, 1, [])
  {
    assert raw[9..] == [];
    assert Uint32(raw[5] % 0x80, raw[6], raw[7], raw[8]) == 1;
    assert F.FromByte(raw[3]) == F.Headers;
  }

  /** A client that greets and opens one stream. */
  lemma OneStreamOpened()
    ensures var o := C.OnClientData(C.NEW_CONN, F.CLIENT_PREFACE + OPEN_ONE_STREAM);
            && o.conn.core.streams == [C.H2Stream(1, false, false)]
            && C.NEW_CONN.core.upstream == o.conn.core.upstream && o.conn.core.buffered != []
            && o.actions == [C.DownstreamSend(F.OurSettings(), C.Proxy), C.StreamOpened]
  {
    OpenFrameDecodes(OPEN_ONE_STREAM);
    GreetsWithHeaders(C.NEW_CONN, OPEN_ONE_STREAM);
  }

  predicate Untouched(c: C.Core) { c.phase.AwaitingPreface? && c.upstream.NoUpstream? && c.streams == [] }

  lemma GreetsWithHeaders(c: C.Conn, raw: F.RawFrame)
    requires Untouched(c.core) && c.recvBuf == []
    requires F.IsWholeFrame(raw) && F.DecodeFrame(raw) == F.Frame(F.Headers, 0, 1, [])
    ensures var o := C.OnClientData(c, F.CLIENT_PREFACE + raw);
            && o.conn.core.streams == [C.H2Stream(1, false, false)]
            && o.conn.core.upstream == c.core.upstream && o.conn.core.buffered != []
            && o.actions == [C.DownstreamSend(F.OurSettings(), C.Proxy), C.StreamOpened]
  {
    var data: seq<Byte> := F.CLIENT_PREFACE + raw;
    assert c.recvBuf + data == data;
    assert data[..|F.CLIENT_PREFACE|] == F.CLIENT_PREFACE && data[|F.CLIENT_PREFACE|..] == raw;
    var greeted := c.core.(phase := C.Handshaking);
    OneFrameDrained(greeted, raw);
    OpenedByHeaders(greeted, raw);
  }

  lemma OneFrameCut(raw: seq<Byte>)
    requires F.IsWholeFrame(raw)
    ensures F.CutFrames(raw) == F.Cut([raw], [])
  {
    assert raw[..|raw|] == raw && raw[|raw|..] == [];
    assert F.CutFrames([]) == F.Cut([], []);
  }

  lemma OneFrameDrained(c: C.Core, raw: seq<Byte>)
    requires F.IsWholeFrame(raw)
    ensures var o := C.Receive(C.FromClient, c, raw);
            C.Drain(C.FromClient, c, raw) == C.Drained(o.core, o.actions, [])
  {
    OneFrameCut(raw);
    var o := C.Receive(C.FromClient, c, raw);
    assert [raw][1..] == [] && o.actions + [] == o.actions;
    C.FoldFirst(C.Receiver(C.FromClient), c, [raw]);
  }

  lemma OpenedByHeaders(c: C.Core, raw: F.RawFrame)
    requires c.phase.Handshaking? && c.upstream.NoUpstream? && c.streams == []
    requires F.DecodeFrame(raw) == F.Frame(F.Headers, 0, 1, [])
    ensures var o := C.Receive(C.FromClient, c, raw);
            && o.core.streams == [C.H2Stream(1, false, false)] && o.actions == [C.StreamOpened]
            && o.core.upstream == c.upstream && o.core.buffered == c.buffered + [raw]
  {
  }

  function OpenedTwice(): seq<A.Event>
  {
    [A.StreamOpen(1), A.StreamData(1, F.CLIENT_PREFACE + OPEN_ONE_STREAM), A.StreamOpen(1)]
  }

  /** A run: open a handle, open a stream on it, open the handle again. One stream is counted and none is open. */
  lemma ReopenedHandleMiscounts()
    ensures var s := A.Run(OpenedTwice()).state; s.total == 1 && N.SumStreams(s.conns) == 0
  {
    var es := OpenedTwice();
    assert [] + [es[0]] + [es[1]] + [es[2]] == es;
    A.RunSnoc([], es[0]);
    A.RunSnoc([] + [es[0]], es[1]);
    A.RunSnoc([] + [es[0]] + [es[1]], es[2]);
    OneStreamOpened();
    OneStreamCounted(A.Run([] + [es[0]]).state);
    N.SumPositive(A.Run(es).state.conns);
  }

  lemma OneStreamCounted(s: A.State)
    requires s == A.INITIAL.(conns := map[1 := C.NEW_CONN])
    requires C.OnClientData(C.NEW_CONN, F.CLIENT_PREFACE + OPEN_ONE_STREAM).actions
             == [C.DownstreamSend(F.OurSettings(), C.Proxy), C.StreamOpened]
    ensures var s' := A.OnStreamData(s, 1, F.CLIENT_PREFACE + OPEN_ONE_STREAM).state;
            s'.total == 1 && s'.conns.Keys == {1}
  {
    var acts := C.OnClientData(C.NEW_CONN, F.CLIENT_PREFACE + OPEN_ONE_STREAM).actions;
    assert acts[1..] == [C.StreamOpened] && acts[1..][1..] == [];
    assert A.SaturatingTally(0, acts) == A.SaturatingTally(0, acts[1..]) == A.SaturatingTally(1, acts[1..][1..]) == 1;
  }

  // ---------------------------------------------------------------------
  // A selector outside the grammar
  // ---------------------------------------------------------------------

  /** A set holding only the empty value is printed like the empty set, and comes back as that. */
  lemma EmptyValueIsLost()
    ensures var ps := [S.In("k", [""])];
            S.Parse(S.Print(ps)) == S.Ok([S.In("k", [])], []) != S.Ok(ps, [])
  {
    assert S.Join([""]) == "" == S.Join([]);
    assert S.PrintPredicate(S.In("k", [""])) == S.PrintPredicate(S.In("k", []));
    S.RoundTripIffPrintable([S.In("k", [])]);
  }

  // ---------------------------------------------------------------------
  // Snapshot detail
  // ---------------------------------------------------------------------

  const REPORT := M.StatusReport("ns", None,
                                 map["w" := M.WorkloadReport(None, false, "", 0)],
                                 map[],
                                 map["p" := M.PodReport("w", M.PhaseRunning)])

  const TRUTH := M.Model("ns", M.Active,
                         map["w" := M.Workload(M.Dormant, false, None, 0, 1)],
                         map[],
                         map["p" := M.Pod("w", M.PodRunning("worker-1"))])

  /** One demanding service and one running pod: the demand is reported as none, and the pod's worker is lost. */
  lemma SnapshotLosesDetail()
    ensures M.ApplyAll(M.FromStatus(REPORT), []).workloads["w"].demand == 0
    ensures M.ApplyAll(TRUTH, []).workloads["w"].demand == 1
    ensures M.GetPod(M.ApplyAll(M.FromStatus(REPORT), []), "p") == Some(M.Pod("w", M.PodRunning("")))
    ensures M.GetPod(M.ApplyAll(TRUTH, []), "p") == Some(M.Pod("w", M.PodRunning("worker-1")))
  {
  }
}
