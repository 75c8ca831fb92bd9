/** The connection object: fields updated in place, proved to compute the functions of Http2Connection. */
module Http2ConnectionImpl {
  import opened Common
  import opened Http2Frames
  import opened Spec = Http2Connection

  class Connection {
    var phase: Phase
    var upstreamState: UpstreamState
    var recvBuf: seq<Byte>
    var upstreamRecvBuf: seq<Byte>
    var streams: seq<H2Stream>
    var bufferedFrames: seq<seq<Byte>>
    var clientSettingsAcked: bool
    var upstreamSettingsAcked: bool
    var lastClientStreamId: nat

    function Core(): Spec.Core
      reads this
    {
      Spec.Core(phase, upstreamState, streams, bufferedFrames, clientSettingsAcked, upstreamSettingsAcked,
                lastClientStreamId)
    }

    function View(): Conn
      reads this
    {
      Conn(Core(), recvBuf, upstreamRecvBuf)
    }

    constructor ()
      ensures View() == NEW_CONN
    {
      phase, upstreamState := AwaitingPreface, NoUpstream;
      recvBuf, upstreamRecvBuf, streams, bufferedFrames := [], [], [], [];
      clientSettingsAcked, upstreamSettingsAcked, lastClientStreamId := false, false, 0;
    }

    method SetUpstreamState(state: UpstreamState)
      modifies this
      ensures View() == SetUpstream(old(View()), state)
    {
      upstreamState := state;
    }

    method OnClientData(data: seq<Byte>) returns (actions: seq<ConnAction>)
      modifies this
      ensures ConnOutcome(View(), actions) == Spec.OnClientData(old(View()), data)
    {
      recvBuf := recvBuf + data;
      actions := [];
      if phase == AwaitingPreface {
        if |recvBuf| < |CLIENT_PREFACE| {
          return;
        }
        if recvBuf[..|CLIENT_PREFACE|] != CLIENT_PREFACE {
          actions := actions + [Log("invalid H2 preface"), DownstreamClose];
          phase := Closing;
          return;
        }
        recvBuf := recvBuf[|CLIENT_PREFACE|..];
        phase := Handshaking;
        actions := [DownstreamSend(OurSettings(), Proxy)];
      }
      var more := DrainClientFrames();
      actions := actions + more;
    }

    /** The frame loop of `OnClientData`. */
    method DrainClientFrames() returns (actions: seq<ConnAction>)
      modifies this
      ensures ConnOutcome(View(), actions) == DrainClient(old(View()), old(recvBuf))
    {
      actions := [];
      ghost var whole := Drain(FromClient, Core(), recvBuf);
      while Complete(recvBuf).Some?
        invariant Drain(FromClient, Core(), recvBuf).core == whole.core
        invariant actions + Drain(FromClient, Core(), recvBuf).actions == whole.actions
        invariant Drain(FromClient, Core(), recvBuf).rest == whole.rest
        invariant upstreamRecvBuf == old(upstreamRecvBuf)
        decreases |recvBuf|
      {
        DrainStep(FromClient, Core(), recvBuf);
        var (frame, consumed) := ParseFrame(recvBuf).value;
        var rawFrame := recvBuf[..consumed];
        recvBuf := recvBuf[consumed..];
        var more := ReceiveClientFrame(frame, rawFrame);
        Associate(actions, more, Drain(FromClient, Core(), recvBuf).actions);
        actions := actions + more;
      }
      DrainStep(FromClient, Core(), recvBuf);
    }

    /** A client frame is discarded once the connection is closing. */
    method ReceiveClientFrame(f: Frame, rawFrame: RawFrame) returns (actions: seq<ConnAction>)
      requires f == DecodeFrame(rawFrame)
      modifies this
      ensures Outcome(Core(), actions) == Receive(FromClient, old(Core()), rawFrame)
      ensures recvBuf == old(recvBuf) && upstreamRecvBuf == old(upstreamRecvBuf)
    {
      if phase == Closing {
        actions := [];
      } else {
        actions := HandleClientFrame(f, rawFrame);
      }
    }

    method HandleClientFrame(f: Frame, rawFrame: seq<Byte>) returns (actions: seq<ConnAction>)
      modifies this
      ensures Outcome(Core(), actions) == Spec.HandleClientFrame(old(Core()), f, rawFrame)
      ensures recvBuf == old(recvBuf) && upstreamRecvBuf == old(upstreamRecvBuf)
    {
      actions := [];
      match f.frameType {
        case Settings =>
          if LowFlag(f) {
            clientSettingsAcked := true;
            if clientSettingsAcked && phase == Handshaking {
              phase := Active;
            }
          } else {
            actions := [DownstreamSend(SettingsAck(), Proxy)];
          }
        case Ping =>
          if !LowFlag(f) {
            actions := [DownstreamSend(PingAck(f.payload), Proxy)];
          }
        case Headers =>
          var started := OpenIfNew(f.streamId);
          var ended := EndOnFlag(f, true);
          var sent := BufferOrForward(rawFrame);
          actions := started + ended + sent;
        case Data =>
          var credit := CreditClient(f);
          var ended := EndOnFlag(f, true);
          var sent := BufferOrForward(rawFrame);
          actions := credit + ended + sent;
        case RstStream =>
          actions := Reset(f.streamId);
          var sent := BufferOrForward(rawFrame);
          actions := actions + sent;
        case Goaway =>
          phase := Closing;
          actions := BufferOrForward(rawFrame);
        case _ =>
          actions := BufferOrForward(rawFrame);
      }
    }

    method OpenIfNew(id: nat) returns (actions: seq<ConnAction>)
      modifies this`streams, this`lastClientStreamId
      ensures Outcome(Core(), actions) == OpenStream(old(Core()), id)
    {
      actions := [];
      if id > 0 && !HasStream(streams, id) {
        streams := streams + [H2Stream(id, false, false)];
        actions := [StreamOpened];
        if id > lastClientStreamId {
          lastClientStreamId := id;
        }
      }
    }

    method Reset(id: nat) returns (actions: seq<ConnAction>)
      modifies this`streams
      ensures Outcome(Core(), actions) == ResetStream(old(Core()), id)
    {
      actions := [];
      if HasStream(streams, id) {
        streams := RemoveStream(streams, id);
        actions := [StreamClosed];
      }
    }

    method CreditClient(f: Frame) returns (actions: seq<ConnAction>)
      ensures actions == ClientCredit(f)
    {
      actions := [];
      var len := |f.payload| % 0x1_0000_0000;
      if len > 0 {
        actions := actions + [DownstreamSend(WindowUpdateFrame(0, len), Proxy)];
        if f.streamId > 0 {
          actions := actions + [DownstreamSend(WindowUpdateFrame(f.streamId, len), Proxy)];
        }
      }
    }

    method EndOnFlag(f: Frame, byClient: bool) returns (actions: seq<ConnAction>)
      modifies this`streams
      ensures Outcome(Core(), actions) == EndIfFlagged(old(Core()), f, byClient)
    {
      actions := [];
      if LowFlag(f) {
        streams := MarkEnd(streams, f.streamId, byClient);
        if BothEnded(streams, f.streamId) {
          streams := RemoveStream(streams, f.streamId);
          actions := [StreamClosed];
        }
      }
    }

    method BufferOrForward(frame: seq<Byte>) returns (actions: seq<ConnAction>)
      modifies this`bufferedFrames
      ensures Outcome(Core(), actions) == Spec.BufferOrForward(old(Core()), frame)
      ensures upstreamState == Ready ==> bufferedFrames == old(bufferedFrames) && actions == Sends([frame])
      ensures upstreamState != Ready ==> bufferedFrames == old(bufferedFrames) + [frame] && actions == []
    {
      actions := [];
      if upstreamState == Ready {
        actions := [UpstreamSend(frame, Client)];
      } else {
        bufferedFrames := bufferedFrames + [frame];
      }
    }

    method FlushBuffered() returns (actions: seq<ConnAction>)
      modifies this`bufferedFrames
      ensures bufferedFrames == [] && actions == Sends(old(bufferedFrames))
    {
      actions := [];
      var frames := bufferedFrames;
      bufferedFrames := [];
      for i := 0 to |frames|
        invariant bufferedFrames == []
        invariant actions + Sends(frames[i..]) == Sends(frames)
      {
        assert frames[i..][1..] == frames[i + 1..];
        actions := actions + [UpstreamSend(frames[i], Client)];
      }
    }

    method OnUpstreamConnected() returns (actions: seq<ConnAction>)
      modifies this
      ensures ConnOutcome(View(), actions) == Spec.OnUpstreamConnected(old(View()))
      ensures streams == old(streams) && bufferedFrames == old(bufferedFrames) && phase == old(phase)
      ensures recvBuf == old(recvBuf) && upstreamRecvBuf == old(upstreamRecvBuf)
    {
      upstreamState := UpstreamHandshaking;
      actions := [UpstreamSend(CLIENT_PREFACE + OurSettings(), Proxy)];
    }

    method OnUpstreamData(data: seq<Byte>) returns (actions: seq<ConnAction>)
      modifies this
      ensures ConnOutcome(View(), actions) == Spec.OnUpstreamData(old(View()), data)
    {
      upstreamRecvBuf := upstreamRecvBuf + data;
      actions := [];
      ghost var whole := Drain(FromBackend, Core(), upstreamRecvBuf);
      while Complete(upstreamRecvBuf).Some?
        invariant Drain(FromBackend, Core(), upstreamRecvBuf).core == whole.core
        invariant actions + Drain(FromBackend, Core(), upstreamRecvBuf).actions == whole.actions
        invariant Drain(FromBackend, Core(), upstreamRecvBuf).rest == whole.rest
        invariant recvBuf == old(recvBuf)
        decreases |upstreamRecvBuf|
      {
        DrainStep(FromBackend, Core(), upstreamRecvBuf);
        var (frame, consumed) := ParseFrame(upstreamRecvBuf).value;
        var rawFrame := upstreamRecvBuf[..consumed];
        upstreamRecvBuf := upstreamRecvBuf[consumed..];
        var more := HandleUpstreamFrame(frame, rawFrame);
        Associate(actions, more, Drain(FromBackend, Core(), upstreamRecvBuf).actions);
        actions := actions + more;
      }
      DrainStep(FromBackend, Core(), upstreamRecvBuf);
    }

    method HandleUpstreamFrame(f: Frame, rawFrame: seq<Byte>) returns (actions: seq<ConnAction>)
      modifies this
      ensures Outcome(Core(), actions) == Spec.HandleUpstreamFrame(old(Core()), f, rawFrame)
      ensures recvBuf == old(recvBuf) && upstreamRecvBuf == old(upstreamRecvBuf)
    {
      actions := [];
      match f.frameType {
        case Settings =>
          if LowFlag(f) {
            upstreamSettingsAcked := true;
            if upstreamState == UpstreamHandshaking {
              upstreamState := Ready;
              actions := FlushBuffered();
            }
          } else {
            actions := [UpstreamSend(SettingsAck(), Proxy)];
            if upstreamState == UpstreamHandshaking {
              upstreamState := Ready;
              var flushed := FlushBuffered();
              actions := actions + flushed;
            }
          }
        case Ping =>
          if !LowFlag(f) {
            actions := [UpstreamSend(PingAck(f.payload), Proxy)];
          }
        case Data =>
          var len := |f.payload| % 0x1_0000_0000;
          if len > 0 {
            actions := actions + [UpstreamSend(WindowUpdateFrame(0, len), Proxy)];
            if f.streamId > 0 {
              actions := actions + [UpstreamSend(WindowUpdateFrame(f.streamId, len), Proxy)];
            }
          }
          var ended := EndOnFlag(f, false);
          actions := actions + ended + [DownstreamSend(rawFrame, Backend)];
        case Headers =>
          var ended := EndOnFlag(f, false);
          actions := actions + ended + [DownstreamSend(rawFrame, Backend)];
        case RstStream =>
          actions := Reset(f.streamId);
          actions := actions + [DownstreamSend(rawFrame, Backend)];
        case Goaway =>
          phase := Closing;
          actions := [DownstreamSend(rawFrame, Backend)];
        case _ =>
          actions := [DownstreamSend(rawFrame, Backend)];
      }
    }

    /** Empties the stream table, reporting every stream in it as closed. */
    method DropStreams() returns (actions: seq<ConnAction>)
      modifies this`streams
      ensures streams == [] && actions == CloseAll(|old(streams)|)
    {
      actions := [];
      var remaining := |streams|;
      streams := [];
      for i := 0 to remaining
        invariant streams == [] && actions + CloseAll(remaining - i) == CloseAll(remaining)
      {
        actions := actions + [StreamClosed];
      }
    }

    method OnUpstreamClosed() returns (actions: seq<ConnAction>)
      modifies this
      ensures ConnOutcome(View(), actions) == Spec.OnUpstreamClosed(old(View()))
    {
      actions := [];
      upstreamState := Failed;
      if phase != Closing {
        actions := [DownstreamSend(GoawayFrame(lastClientStreamId, ERROR_NO_ERROR), Proxy), DownstreamClose];
        phase := Closing;
      }
      var dropped := DropStreams();
      actions := actions + dropped;
    }

    method OnUpstreamFailed() returns (actions: seq<ConnAction>)
      modifies this
      ensures ConnOutcome(View(), actions) == Spec.OnUpstreamFailed(old(View()))
    {
      upstreamState := Failed;
      actions := [DownstreamSend(GoawayFrame(0, ERROR_INTERNAL_ERROR), Proxy), DownstreamClose];
      phase := Closing;
      var dropped := DropStreams();
      actions := actions + dropped;
    }
  }
}
