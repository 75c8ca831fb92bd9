/** The Postgres connection as it works: buffers drained in place, message by message. */
module PostgresImpl {
  import opened Common
  import opened Postgres

  class Connection {
    var phase: Phase
    var recvBuf: seq<Byte>
    var upstreamRecvBuf: seq<Byte>
    var bufferedData: seq<Byte>
    var lastTxnStatus: Option<TxnStatus>
    var authComplete: bool

    ghost function View(): Conn
      reads this
    {
      Conn(phase, recvBuf, upstreamRecvBuf, bufferedData, lastTxnStatus, authComplete)
    }

    constructor ()
      ensures View() == NEW_CONN
    {
      phase := AwaitingStartup;
      recvBuf, upstreamRecvBuf, bufferedData := [], [], [];
      lastTxnStatus, authComplete := None, false;
    }

    method OnClientData(data: seq<Byte>, healthCheck: seq<Byte> -> bool, answer: seq<Byte>)
      returns (actions: seq<ConnAction>)
      modifies this
      ensures Outcome(View(), actions) == Postgres.OnClientData(old(View()), data, healthCheck, answer)
    {
      match phase {
        case AwaitingStartup | SslNegotiation =>
          recvBuf := recvBuf + data;
          actions := TryParseStartup();
        case Startup =>
          bufferedData := bufferedData + data;
          actions := [];
        case Proxying =>
          if authComplete && lastTxnStatus == Some(Idle) {
            recvBuf := recvBuf + data;
            actions := DrainClientProxying(healthCheck, answer);
          } else {
            actions := [UpstreamSend(data)];
          }
        case Closing =>
          actions := [];
      }
    }

    method TryParseStartup() returns (actions: seq<ConnAction>)
      requires Negotiating(phase)
      modifies this
      ensures Outcome(View(), actions) == ParseStartup(old(View()))
    {
      ghost var whole := CutAll(SslRequestSize, recvBuf);
      actions := [];
      ghost var done: seq<seq<Byte>> := [];
      while true
        invariant View() == Refused(old(View()), done, recvBuf)
        invariant Resumes(SslRequestSize, whole, done, recvBuf)
        invariant actions == Repeat(|done|, SSL_REFUSED)
        decreases |recvBuf|
      {
        var size := StartupSize(recvBuf);
        if size.None? {
          break;
        }
        if IsSslRequest(recvBuf) {
          done := RefuseSsl(size.value, whole, done);
          actions := actions + [DownstreamSend(SSL_REFUSED)];
        } else {
          CutStop(SslRequestSize, whole, done, recvBuf);
          TakeStartup(size.value);
          return;
        }
      }
      CutStop(SslRequestSize, whole, done, recvBuf);
    }

    /** Drops an SSL request from the buffer. */
    method RefuseSsl(size: nat, ghost whole: Cut, ghost done: seq<seq<Byte>>) returns (ghost more: seq<seq<Byte>>)
      requires SslRequestSize(recvBuf) == Some(size) && Resumes(SslRequestSize, whole, done, recvBuf)
      modifies this`recvBuf, this`phase
      ensures phase == SslNegotiation && |recvBuf| < |old(recvBuf)|
      ensures |more| == |done| + 1 && Resumes(SslRequestSize, whole, more, recvBuf)
    {
      CutStep(SslRequestSize, whole, done, recvBuf);
      more := done + [recvBuf[..size]];
      recvBuf := recvBuf[size..];
      phase := SslNegotiation;
    }

    /** Buffers the startup message and whatever came with it. */
    method TakeStartup(size: nat)
      requires size <= |recvBuf|
      modifies this`phase, this`recvBuf, this`bufferedData
      ensures phase == Startup && recvBuf == [] && bufferedData == old(bufferedData) + old(recvBuf)
    {
      ghost var whole := recvBuf;
      bufferedData := bufferedData + recvBuf[..size];
      recvBuf := recvBuf[size..];
      Associate(old(bufferedData), whole[..size], recvBuf);
      assert whole[..size] + recvBuf == whole;
      if recvBuf != [] {
        bufferedData := bufferedData + recvBuf;
        recvBuf := [];
      }
      phase := Startup;
    }

    method DrainClientProxying(healthCheck: seq<Byte> -> bool, answer: seq<Byte>) returns (actions: seq<ConnAction>)
      requires IsIdle(View())
      modifies this`recvBuf
      ensures Outcome(View(), actions) == DrainProxying(old(View()), healthCheck, answer)
    {
      ghost var size := b => HealthCheckSize(b, healthCheck);
      ghost var whole := CutAll(size, recvBuf);
      actions := [];
      ghost var done: seq<seq<Byte>> := [];
      while recvBuf != []
        invariant Resumes(size, whole, done, recvBuf)
        invariant actions == Repeat(|done|, answer)
        decreases |recvBuf|
      {
        var total := TaggedSize(recvBuf);
        if total.None? {
          break;
        }
        if recvBuf[0] == TAG_QUERY && healthCheck(recvBuf[..total.value]) {
          CutStep(size, whole, done, recvBuf);
          done := done + [recvBuf[..total.value]];
          recvBuf := recvBuf[total.value..];
          actions := actions + [DownstreamSend(answer)];
        } else {
          CutStop(size, whole, done, recvBuf);
          actions := actions + [UpstreamSend(recvBuf)];
          recvBuf := [];
          return;
        }
      }
      CutStop(size, whole, done, recvBuf);
    }

    method OnUpstreamConnected() returns (actions: seq<ConnAction>)
      modifies this
      ensures Outcome(View(), actions) == Postgres.OnUpstreamConnected(old(View()))
    {
      actions := [];
      if phase != Startup {
        return;
      }
      phase := Proxying;
      if bufferedData != [] {
        actions := [UpstreamSend(bufferedData)];
        bufferedData := [];
      }
    }

    method OnUpstreamData(data: seq<Byte>) returns (actions: seq<ConnAction>)
      modifies this
      ensures Outcome(View(), actions) == Postgres.OnUpstreamData(old(View()), data)
    {
      actions := [];
      if phase == Closing {
        return;
      }
      actions := [DownstreamSend(data)];
      ScanUpstreamForReady(data);
    }

    /** Keeps the transaction status of a ReadyForQuery. */
    method NoteMessage(msg: seq<Byte>)
      requires msg != []
      modifies this`lastTxnStatus, this`authComplete
      ensures lastTxnStatus == if ReadyStatus(msg).Some? then ReadyStatus(msg) else old(lastTxnStatus)
      ensures authComplete == (old(authComplete) || ReadyStatus(msg).Some?)
    {
      if msg[0] == TAG_READY_FOR_QUERY {
        var status := ReadyStatus(msg);
        if status.Some? {
          lastTxnStatus := status;
          if !authComplete {
            authComplete := true;
          }
        }
      }
    }

    method ScanUpstreamForReady(data: seq<Byte>)
      modifies this`upstreamRecvBuf, this`lastTxnStatus, this`authComplete
      ensures View() == ScanReady(old(View()).(upstreamRecvBuf := old(upstreamRecvBuf) + data))
    {
      upstreamRecvBuf := upstreamRecvBuf + data;
      ghost var whole := CutAll(TaggedSize, upstreamRecvBuf);
      ghost var done: seq<seq<Byte>> := [];
      while true
        invariant Resumes(TaggedSize, whole, done, upstreamRecvBuf)
        invariant lastTxnStatus == LastStatus(old(lastTxnStatus), done)
        invariant authComplete == (old(authComplete) || HasReady(done))
        decreases |upstreamRecvBuf|
      {
        var total := TaggedSize(upstreamRecvBuf);
        if total.None? {
          break;
        }
        var msg := upstreamRecvBuf[..total.value];
        CutStep(TaggedSize, whole, done, upstreamRecvBuf);
        NoteOne(old(lastTxnStatus), done, msg);
        NoteMessage(msg);
        done := done + [msg];
        upstreamRecvBuf := upstreamRecvBuf[total.value..];
      }
      CutStop(TaggedSize, whole, done, upstreamRecvBuf);
    }
  }

  /** The connection once the SSL requests `done` are refused and `recvBuf` is left. */
  ghost function Refused(c: Conn, done: seq<seq<Byte>>, recvBuf: seq<Byte>): Conn
  {
    c.(recvBuf := recvBuf, phase := if done == [] then c.phase else SslNegotiation)
  }

  /** Having cut off `done`, cutting up `now` gives the rest of `whole`. */
  ghost predicate Resumes(size: seq<Byte> -> Option<nat>, whole: Cut, done: seq<seq<Byte>>, now: seq<Byte>)
  {
    whole == Cut(done + CutAll(size, now).messages, CutAll(size, now).rest)
  }

  lemma CutStep(size: seq<Byte> -> Option<nat>, whole: Cut, done: seq<seq<Byte>>, now: seq<Byte>)
    requires Resumes(size, whole, done, now) && size(now).Some? && 1 <= size(now).value <= |now|
    ensures Resumes(size, whole, done + [now[..size(now).value]], now[size(now).value..])
  {
    Associate(done, [now[..size(now).value]], CutAll(size, now[size(now).value..]).messages);
  }

  lemma CutStop(size: seq<Byte> -> Option<nat>, whole: Cut, done: seq<seq<Byte>>, now: seq<Byte>)
    requires Resumes(size, whole, done, now) && size(now).None?
    ensures whole == Cut(done, now)
  {
    assert done + [] == done;
  }

  lemma NoteOne(s: Option<TxnStatus>, done: seq<seq<Byte>>, msg: seq<Byte>)
    ensures LastStatus(s, done + [msg]) == if ReadyStatus(msg).Some? then ReadyStatus(msg) else LastStatus(s, done)
    ensures HasReady(done + [msg]) <==> HasReady(done) || ReadyStatus(msg).Some?
  {
    assert (done + [msg])[..|done|] == done;
    HasReadyAppend(done, [msg]);
    assert HasReady([msg]) <==> ReadyStatus(msg).Some? by {
      assert msg in [msg];
    }
  }
}
