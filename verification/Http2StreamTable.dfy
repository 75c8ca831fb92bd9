/** The stream table of a connection: what it holds, and that its size agrees with the counting actions. */
module Http2StreamTable {
  import opened Common
  import opened Http2Frames
  import opened Http2Connection

  ghost predicate UniqueIds(ss: seq<H2Stream>)
  {
    forall i, j :: 0 <= i < j < |ss| ==> ss[i].id != ss[j].id
  }

  // ---------------------------------------------------------------------
  // Counting
  // ---------------------------------------------------------------------

  /** A counter that starts at `n` and follows the actions, in unbounded arithmetic. */
  function Tally(n: int, acts: seq<ConnAction>): int
    decreases |acts|
  {
    if acts == [] then n
    else Tally(match acts[0] case StreamOpened => n + 1 case StreamClosed => n - 1 case _ => n, acts[1..])
  }

  /** No `StreamClosed` meets a counter that is already zero. */
  predicate NeverClips(n: int, acts: seq<ConnAction>)
    decreases |acts|
  {
    acts != [] ==>
      match acts[0]
      case StreamOpened => NeverClips(n + 1, acts[1..])
      case StreamClosed => n > 0 && NeverClips(n - 1, acts[1..])
      case _ => NeverClips(n, acts[1..])
  }

  lemma {:induction false} TallyAppend(n: int, a: seq<ConnAction>, b: seq<ConnAction>)
    ensures Tally(n, a + b) == Tally(Tally(n, a), b)
    ensures NeverClips(n, a + b) <==> NeverClips(n, a) && NeverClips(Tally(n, a), b)
    decreases |a|
  {
    if a == [] {
      assert a + b == b;
    } else {
      assert (a + b)[1..] == a[1..] + b;
      TallyAppend(match a[0] case StreamOpened => n + 1 case StreamClosed => n - 1 case _ => n, a[1..], b);
    }
  }

  /** A larger starting count shifts the tally and can only make clipping less likely. */
  lemma {:induction false} TallyShift(n: int, k: nat, acts: seq<ConnAction>)
    ensures Tally(n + k, acts) == Tally(n, acts) + k
    ensures NeverClips(n, acts) ==> NeverClips(n + k, acts)
    decreases |acts|
  {
    if acts != [] {
      TallyShift(match acts[0] case StreamOpened => n + 1 case StreamClosed => n - 1 case _ => n, k, acts[1..]);
    }
  }

  predicate Uncounted(acts: seq<ConnAction>)
  {
    forall i :: 0 <= i < |acts| ==> !acts[i].StreamOpened? && !acts[i].StreamClosed?
  }

  lemma {:induction false} TallyUncounted(n: int, acts: seq<ConnAction>)
    requires Uncounted(acts)
    ensures Tally(n, acts) == n && NeverClips(n, acts)
    decreases |acts|
  {
    if acts != [] {
      TallyUncounted(n, acts[1..]);
    }
  }

  /** The actions take a counter from the old table size to the new one without ever clipping. */
  ghost predicate Counted(before: seq<H2Stream>, acts: seq<ConnAction>, after: seq<H2Stream>)
  {
    UniqueIds(before) ==>
      UniqueIds(after) && NeverClips(|before|, acts) && Tally(|before|, acts) == |after|
  }

  lemma CountedThen(s0: seq<H2Stream>, a: seq<ConnAction>, s1: seq<H2Stream>, b: seq<ConnAction>, s2: seq<H2Stream>)
    requires Counted(s0, a, s1) && Counted(s1, b, s2)
    ensures Counted(s0, a + b, s2)
  {
    TallyAppend(|s0|, a, b);
  }

  lemma CountedQuiet(ss: seq<H2Stream>, acts: seq<ConnAction>)
    requires Uncounted(acts)
    ensures Counted(ss, acts, ss)
  {
    TallyUncounted(|ss|, acts);
  }

  // ---------------------------------------------------------------------
  // Table operations
  // ---------------------------------------------------------------------

  /** The entry for `id`, as the first match in the table. */
  function Find(ss: seq<H2Stream>, id: nat): Option<H2Stream>
  {
    if ss == [] then None else if ss[0].id == id then Some(ss[0]) else Find(ss[1..], id)
  }

  lemma {:induction false} FindSpec(ss: seq<H2Stream>, id: nat)
    ensures Find(ss, id) == None <==> !HasStream(ss, id)
    ensures Find(ss, id).Some? ==> Find(ss, id).value in ss && Find(ss, id).value.id == id
    ensures UniqueIds(ss) ==> forall s :: s in ss && s.id == id ==> Find(ss, id) == Some(s)
  {
    if ss != [] {
      FindSpec(ss[1..], id);
      assert ss == [ss[0]] + ss[1..];
      if HasStream(ss, id) && ss[0].id != id {
        var i :| 0 <= i < |ss| && ss[i].id == id;
        assert ss[1..][i - 1].id == id;
      }
      if HasStream(ss[1..], id) {
        var i :| 0 <= i < |ss[1..]| && ss[1..][i].id == id;
        assert ss[i + 1].id == id;
      }
    }
  }

  lemma {:induction false} RemoveStreamMembers(ss: seq<H2Stream>, id: nat)
    ensures forall s :: s in RemoveStream(ss, id) <==> s in ss && s.id != id
  {
    if ss != [] {
      RemoveStreamMembers(ss[1..], id);
      assert ss == [ss[0]] + ss[1..];
    }
  }

  lemma {:induction false} RemoveStreamUnique(ss: seq<H2Stream>, id: nat)
    requires UniqueIds(ss)
    ensures UniqueIds(RemoveStream(ss, id))
    ensures |RemoveStream(ss, id)| == |ss| - if Find(ss, id).Some? then 1 else 0
  {
    if ss != [] {
      RemoveStreamUnique(ss[1..], id);
      RemoveStreamMembers(ss[1..], id);
      FindSpec(ss[1..], id);
      var tail := RemoveStream(ss[1..], id);
      assert forall i :: 0 <= i < |tail| ==> tail[i] in ss[1..];
      if ss[0].id == id {
        assert RemoveStream(ss, id) == tail;
        assert forall i :: 0 <= i < |ss[1..]| ==> ss[1..][i] == ss[i + 1];
        assert Find(ss[1..], id) == None;
      } else {
        assert RemoveStream(ss, id) == [ss[0]] + tail;
      }
    }
  }

  lemma {:induction false} FindAfterRemove(ss: seq<H2Stream>, id: nat, other: nat)
    ensures Find(RemoveStream(ss, id), other) == if other == id then None else Find(ss, other)
  {
    if ss != [] {
      FindAfterRemove(ss[1..], id, other);
      var tail := RemoveStream(ss[1..], id);
      if ss[0].id != id {
        assert ([ss[0]] + tail)[1..] == tail;
      } else {
        assert RemoveStream(ss, id) == tail;
      }
    }
  }

  function Ended(s: H2Stream, byClient: bool): H2Stream
  {
    if byClient then s.(clientEnd := true) else s.(backendEnd := true)
  }

  lemma {:induction false} MarkEndIds(ss: seq<H2Stream>, id: nat, byClient: bool)
    ensures |MarkEnd(ss, id, byClient)| == |ss|
    ensures forall i :: 0 <= i < |ss| ==> MarkEnd(ss, id, byClient)[i].id == ss[i].id
  {
    if ss != [] {
      MarkEndIds(ss[1..], id, byClient);
    }
  }

  lemma {:induction false} FindAfterMark(ss: seq<H2Stream>, id: nat, byClient: bool, other: nat)
    ensures Find(MarkEnd(ss, id, byClient), other)
            == if other == id && Find(ss, id).Some? then Some(Ended(Find(ss, id).value, byClient))
               else Find(ss, other)
  {
    if ss != [] {
      FindAfterMark(ss[1..], id, byClient, other);
      var marked := MarkEnd(ss, id, byClient);
      assert marked[1..] == if ss[0].id == id then ss[1..] else MarkEnd(ss[1..], id, byClient);
    }
  }

  lemma BothEndedIsFind(ss: seq<H2Stream>, id: nat)
    requires UniqueIds(ss)
    ensures BothEnded(ss, id) <==> Find(ss, id).Some? && Find(ss, id).value.clientEnd && Find(ss, id).value.backendEnd
  {
    FindSpec(ss, id);
    if Find(ss, id).Some? {
      var i :| 0 <= i < |ss| && ss[i] == Find(ss, id).value;
    }
  }

  // ---------------------------------------------------------------------
  // The per-stream state machine (section 5.1 of RFC 7540, as the proxy tracks it)
  // ---------------------------------------------------------------------

  /** END_STREAM from one side: half-closed, or gone when the other side had ended already. */
  function HalfClose(s: Option<H2Stream>, byClient: bool): Option<H2Stream>
  {
    match s
    case None => None
    case Some(h) => if (if byClient then h.backendEnd else h.clientEnd) then None else Some(Ended(h, byClient))
  }

  /** What one frame does to the stream `id`, knowing only that stream. */
  function StreamStep(side: Side, s: Option<H2Stream>, id: nat, f: Frame): Option<H2Stream>
  {
    if f.streamId != id then s
    else
      var byClient := side.FromClient?;
      match f.frameType
      case Headers =>
        var open := if byClient && id > 0 && s == None then Some(H2Stream(id, false, false)) else s;
        if LowFlag(f) then HalfClose(open, byClient) else open
      case Data => if LowFlag(f) then HalfClose(s, byClient) else s
      case RstStream => None
      case _ => s
  }

  /** The frames that count: all of them, except that client frames stop after the first GOAWAY. */
  function Heeded(side: Side, phase: Phase, raws: seq<RawFrame>): seq<RawFrame>
  {
    if side.FromBackend? then raws
    else if phase.Closing? || raws == [] then []
    else if DecodeFrame(raws[0]).frameType.Goaway? then raws[..1]
    else [raws[0]] + Heeded(side, phase, raws[1..])
  }

  // ---------------------------------------------------------------------
  // One frame
  // ---------------------------------------------------------------------

  lemma EndStreamCounted(c: Core, id: nat, byClient: bool)
    ensures Counted(c.streams, EndStream(c, id, byClient).actions, EndStream(c, id, byClient).core.streams)
  {
    if UniqueIds(c.streams) {
      var ss := MarkEnd(c.streams, id, byClient);
      MarkEndIds(c.streams, id, byClient);
      BothEndedIsFind(ss, id);
      RemoveStreamUnique(ss, id);
    }
  }

  lemma EndStreamFind(c: Core, id: nat, byClient: bool, other: nat)
    requires UniqueIds(c.streams)
    ensures Find(EndStream(c, id, byClient).core.streams, other)
            == if other == id then HalfClose(Find(c.streams, id), byClient) else Find(c.streams, other)
  {
    var ss := MarkEnd(c.streams, id, byClient);
    MarkEndIds(c.streams, id, byClient);
    FindAfterMark(c.streams, id, byClient, id);
    FindAfterMark(c.streams, id, byClient, other);
    BothEndedIsFind(ss, id);
    FindAfterRemove(ss, id, other);
  }

  lemma OpenStreamCounted(c: Core, id: nat)
    ensures Counted(c.streams, OpenStream(c, id).actions, OpenStream(c, id).core.streams)
  {
  }

  lemma {:induction false} FindAfterOpen(ss: seq<H2Stream>, s: H2Stream, other: nat)
    ensures Find(ss + [s], other)
            == if Find(ss, other).Some? then Find(ss, other) else if other == s.id then Some(s) else None
  {
    if ss != [] {
      assert (ss + [s])[1..] == ss[1..] + [s];
      FindAfterOpen(ss[1..], s, other);
    }
  }

  lemma ResetStreamCounted(c: Core, id: nat)
    ensures Counted(c.streams, ResetStream(c, id).actions, ResetStream(c, id).core.streams)
  {
    if UniqueIds(c.streams) {
      FindSpec(c.streams, id);
      RemoveStreamUnique(c.streams, id);
    }
  }

  lemma ResetStreamFind(c: Core, id: nat, other: nat)
    ensures Find(ResetStream(c, id).core.streams, other) == if other == id then None else Find(c.streams, other)
  {
    FindSpec(c.streams, id);
    FindAfterRemove(c.streams, id, other);
  }

  lemma EndIfFlaggedCounted(c: Core, f: Frame, byClient: bool)
    ensures Counted(c.streams, EndIfFlagged(c, f, byClient).actions, EndIfFlagged(c, f, byClient).core.streams)
  {
    EndStreamCounted(c, f.streamId, byClient);
    CountedQuiet(c.streams, []);
  }

  lemma BufferOrForwardCounted(c: Core, raw: seq<Byte>)
    ensures Counted(c.streams, BufferOrForward(c, raw).actions, BufferOrForward(c, raw).core.streams)
  {
    CountedQuiet(c.streams, BufferOrForward(c, raw).actions);
  }

  lemma ClientFrameCounted(c: Core, f: Frame, raw: seq<Byte>)
    ensures Counted(c.streams, HandleClientFrame(c, f, raw).actions, HandleClientFrame(c, f, raw).core.streams)
  {
    match f.frameType
    case Headers =>
      var started := OpenStream(c, f.streamId);
      var ended := EndIfFlagged(started.core, f, true);
      OpenStreamCounted(c, f.streamId);
      EndIfFlaggedCounted(started.core, f, true);
      BufferOrForwardCounted(ended.core, raw);
      CountedThen(c.streams, started.actions, started.core.streams, ended.actions, ended.core.streams);
      CountedThen(c.streams, started.actions + ended.actions, ended.core.streams,
                  BufferOrForward(ended.core, raw).actions, ended.core.streams);
    case Data =>
      var ended := EndIfFlagged(c, f, true);
      CountedQuiet(c.streams, ClientCredit(f));
      EndIfFlaggedCounted(c, f, true);
      BufferOrForwardCounted(ended.core, raw);
      CountedThen(c.streams, ClientCredit(f), c.streams, ended.actions, ended.core.streams);
      CountedThen(c.streams, ClientCredit(f) + ended.actions, ended.core.streams,
                  BufferOrForward(ended.core, raw).actions, ended.core.streams);
    case RstStream =>
      var reset := ResetStream(c, f.streamId);
      ResetStreamCounted(c, f.streamId);
      BufferOrForwardCounted(reset.core, raw);
      CountedThen(c.streams, reset.actions, reset.core.streams,
                  BufferOrForward(reset.core, raw).actions, reset.core.streams);
    case _ =>
      CountedQuiet(c.streams, HandleClientFrame(c, f, raw).actions);
  }

  lemma {:induction false} SendsUncounted(frames: seq<seq<Byte>>)
    ensures Uncounted(Sends(frames))
  {
    if frames != [] {
      SendsUncounted(frames[1..]);
    }
  }

  lemma UpstreamFrameCounted(c: Core, f: Frame, raw: seq<Byte>)
    ensures Counted(c.streams, HandleUpstreamFrame(c, f, raw).actions, HandleUpstreamFrame(c, f, raw).core.streams)
  {
    var down := [DownstreamSend(raw, Backend)];
    match f.frameType
    case Settings =>
      SendsUncounted(c.buffered);
      CountedQuiet(c.streams, HandleUpstreamFrame(c, f, raw).actions);
    case Data =>
      var ended := EndIfFlagged(c, f, false);
      CountedQuiet(c.streams, UpstreamCredit(f));
      EndIfFlaggedCounted(c, f, false);
      CountedQuiet(ended.core.streams, down);
      CountedThen(c.streams, UpstreamCredit(f), c.streams, ended.actions, ended.core.streams);
      CountedThen(c.streams, UpstreamCredit(f) + ended.actions, ended.core.streams, down, ended.core.streams);
    case Headers =>
      var ended := EndIfFlagged(c, f, false);
      EndIfFlaggedCounted(c, f, false);
      CountedQuiet(ended.core.streams, down);
      CountedThen(c.streams, ended.actions, ended.core.streams, down, ended.core.streams);
    case RstStream =>
      var reset := ResetStream(c, f.streamId);
      ResetStreamCounted(c, f.streamId);
      CountedQuiet(reset.core.streams, down);
      CountedThen(c.streams, reset.actions, reset.core.streams, down, reset.core.streams);
    case _ =>
      CountedQuiet(c.streams, HandleUpstreamFrame(c, f, raw).actions);
  }

  lemma ReceiveCounted(side: Side, c: Core, raw: RawFrame)
    ensures Counted(c.streams, Receive(side, c, raw).actions, Receive(side, c, raw).core.streams)
  {
    var f := DecodeFrame(raw);
    ClientFrameCounted(c, f, raw);
    UpstreamFrameCounted(c, f, raw);
    CountedQuiet(c.streams, []);
  }

  /** The table holds, for each stream, exactly what that stream's own state machine says. */
  lemma ReceiveStreamStep(side: Side, c: Core, raw: RawFrame, id: nat)
    requires UniqueIds(c.streams)
    ensures Find(Receive(side, c, raw).core.streams, id)
            == if side.FromClient? && c.phase.Closing? then Find(c.streams, id)
               else StreamStep(side, Find(c.streams, id), id, DecodeFrame(raw))
  {
    var f := DecodeFrame(raw);
    var byClient := side.FromClient?;
    match f.frameType
    case Headers =>
      var started := if byClient then OpenStream(c, f.streamId) else Outcome(c, []);
      OpenStreamCounted(c, f.streamId);
      FindSpec(c.streams, f.streamId);
      FindAfterOpen(c.streams, H2Stream(f.streamId, false, false), id);
      FindAfterOpen(c.streams, H2Stream(f.streamId, false, false), f.streamId);
      EndStreamFind(started.core, f.streamId, byClient, id);
    case Data =>
      EndStreamFind(c, f.streamId, byClient, id);
    case RstStream =>
      ResetStreamFind(c, f.streamId, id);
    case _ =>
  }

  // ---------------------------------------------------------------------
  // Runs of frames
  // ---------------------------------------------------------------------

  lemma {:induction false} ReceiveAllCounted(side: Side, c: Core, raws: seq<RawFrame>)
    ensures Counted(c.streams, ReceiveAll(side, c, raws).actions, ReceiveAll(side, c, raws).core.streams)
    decreases |raws|
  {
    if raws != [] {
      var first := Receive(side, c, raws[0]);
      var others := ReceiveAll(side, first.core, raws[1..]);
      ReceiveCounted(side, c, raws[0]);
      ReceiveAllCounted(side, first.core, raws[1..]);
      CountedThen(c.streams, first.actions, first.core.streams, others.actions, others.core.streams);
    }
  }

  lemma ClosingOnGoaway(c: Core, raw: RawFrame)
    ensures Receive(FromClient, c, raw).core.phase.Closing?
            <==> c.phase.Closing? || DecodeFrame(raw).frameType.Goaway?
  {
    if !c.phase.Closing? {
      ClientFramePhase(c, DecodeFrame(raw), raw);
    }
  }

  lemma {:induction false} HeededPhase(side: Side, p: Phase, q: Phase, raws: seq<RawFrame>)
    requires p.Closing? <==> q.Closing?
    ensures Heeded(side, p, raws) == Heeded(side, q, raws)
    decreases |raws|
  {
    if raws != [] {
      HeededPhase(side, p, q, raws[1..]);
    }
  }

  // ---------------------------------------------------------------------
  // Frames of both sides
  // ---------------------------------------------------------------------

  /** A frame of either side, or the backend's connection ending. */
  datatype Arrival = Arrived(side: Side, raw: RawFrame) | Gone

  /** What one stream's own state machine knows: its entry, and whether client frames still count. */
  datatype Track = Track(stream: Option<H2Stream>, closing: bool)

  function TrackStep(t: Track, id: nat, a: Arrival): Track
  {
    match a
    case Gone => Track(None, true)
    case Arrived(side, raw) =>
      if side.FromClient? && t.closing then t
      else Track(StreamStep(side, t.stream, id, DecodeFrame(raw)), t.closing || DecodeFrame(raw).frameType.Goaway?)
  }

  function TrackRun(t: Track, id: nat, arrivals: seq<Arrival>): Track
    decreases |arrivals|
  {
    if arrivals == [] then t else TrackRun(TrackStep(t, id, arrivals[0]), id, arrivals[1..])
  }

  function ReceiveAny(c: Core, a: Arrival): Core
  {
    match a
    case Gone => c.(upstream := Failed, phase := Closing, streams := [])
    case Arrived(side, raw) => Receive(side, c, raw).core
  }

  function ReceiveMixed(c: Core, arrivals: seq<Arrival>): Core
    decreases |arrivals|
  {
    if arrivals == [] then c else ReceiveMixed(ReceiveAny(c, arrivals[0]), arrivals[1..])
  }

  ghost function Tracked(c: Core, id: nat): Track { Track(Find(c.streams, id), c.phase.Closing?) }

  lemma BackendClosing(c: Core, raw: RawFrame)
    ensures Receive(FromBackend, c, raw).core.phase == if DecodeFrame(raw).frameType.Goaway? then Closing else c.phase
  {
  }

  lemma ReceiveAnyTracks(c: Core, a: Arrival, id: nat)
    requires UniqueIds(c.streams)
    ensures UniqueIds(ReceiveAny(c, a).streams)
    ensures Tracked(ReceiveAny(c, a), id) == TrackStep(Tracked(c, id), id, a)
  {
    if a.Arrived? {
      ReceiveCounted(a.side, c, a.raw);
      ReceiveStreamStep(a.side, c, a.raw, id);
      if a.side.FromClient? {
        ClosingOnGoaway(c, a.raw);
      } else {
        BackendClosing(c, a.raw);
      }
    }
  }

  /**
   * The table refines one independent state machine per stream, over any run of frames of both sides in any
   * interleaving, with the backend ending in between.
   */
  lemma {:induction false} StreamTableRefines(c: Core, arrivals: seq<Arrival>, id: nat)
    requires UniqueIds(c.streams)
    ensures UniqueIds(ReceiveMixed(c, arrivals).streams)
    ensures Tracked(ReceiveMixed(c, arrivals), id) == TrackRun(Tracked(c, id), id, arrivals)
    decreases |arrivals|
  {
    if arrivals != [] {
      ReceiveAnyTracks(c, arrivals[0], id);
      StreamTableRefines(ReceiveAny(c, arrivals[0]), arrivals[1..], id);
    }
  }

  lemma {:induction false} ReceiveMixedAppend(c: Core, a: seq<Arrival>, b: seq<Arrival>)
    ensures ReceiveMixed(c, a + b) == ReceiveMixed(ReceiveMixed(c, a), b)
    decreases |a|
  {
    if a == [] {
      assert a + b == b;
    } else {
      assert (a + b)[1..] == a[1..] + b;
      ReceiveMixedAppend(ReceiveAny(c, a[0]), a[1..], b);
    }
  }

  /** The frames of one side, as they come off the wire together. */
  function Batch(side: Side, raws: seq<RawFrame>): seq<Arrival>
  {
    if raws == [] then [] else [Arrived(side, raws[0])] + Batch(side, raws[1..])
  }

  lemma {:induction false} BatchReceived(side: Side, c: Core, raws: seq<RawFrame>)
    ensures ReceiveMixed(c, Batch(side, raws)) == ReceiveAll(side, c, raws).core
    decreases |raws|
  {
    if raws != [] {
      var arrivals := Batch(side, raws);
      assert arrivals[1..] == Batch(side, raws[1..]);
      FoldFirst(Receiver(side), c, raws);
      BatchReceived(side, Receive(side, c, raws[0]).core, raws[1..]);
    }
  }

  lemma {:induction false} TrackRunAppend(t: Track, id: nat, a: seq<Arrival>, b: seq<Arrival>)
    ensures TrackRun(t, id, a + b) == TrackRun(TrackRun(t, id, a), id, b)
    decreases |a|
  {
    if a == [] {
      assert a + b == b;
    } else {
      assert (a + b)[1..] == a[1..] + b;
      TrackRunAppend(TrackStep(t, id, a[0]), id, a[1..], b);
    }
  }
}
