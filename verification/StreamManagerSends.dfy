/** What reaches a stream's socket of the bytes the manager is told to send. */
module StreamManagerSends {
  import opened Common
  import opened StreamManager

  /** The bytes an action asks the manager to send on stream `id`. */
  function Asked(a: ManagerAction, id: nat): seq<Byte>
  {
    match a
    case SendDown(g, d, _) => if g == id then d else []
    case SendUp(g, d, _) => if g == id then d else []
    case _ => []
  }

  /** How many bytes of a send the socket takes: as many as there is room for, and none if it cannot send or fails. */
  function Room(reply: SendReply, n: nat): (k: nat)
    ensures k <= n
  {
    match reply
    case Takes(count) => if count < n then count else n
    case CannotSend => 0
    case SendFails => 0
  }

  /** The bytes of it that the socket takes: none when the stream is gone, or is no upstream where one is meant. */
  function Taken(m: Manager, a: ManagerAction, id: nat): seq<Byte>
  {
    match a
    case SendDown(g, d, reply) => if g == id && g in m.streams then d[..Room(reply, |d|)] else []
    case SendUp(g, d, reply) =>
      if g == id && g in m.streams && m.streams[g].direction.Upstream? then d[..Room(reply, |d|)] else []
    case _ => []
  }

  function AskedAll(inputs: seq<Input>, id: nat): seq<Byte>
  {
    if inputs == [] then []
    else AskedAll(inputs[..|inputs| - 1], id) + Asked(inputs[|inputs| - 1].action, id)
  }

  /** The accepted prefixes, one after the other. */
  function TakenAll(m: Manager, inputs: seq<Input>, id: nat): seq<Byte>
  {
    if inputs == [] then []
    else
      var init := inputs[..|inputs| - 1];
      TakenAll(m, init, id) + Taken(Run(m, init).manager, inputs[|inputs| - 1].action, id)
  }

  /** The socket took less than it was offered. */
  predicate CutShort(m: Manager, a: ManagerAction, id: nat) { |Taken(m, a, id)| < |Asked(a, id)| }

  predicate NoneCutShort(m: Manager, inputs: seq<Input>, id: nat)
  {
    inputs != [] ==>
      var init := inputs[..|inputs| - 1];
      NoneCutShort(m, init, id) && !CutShort(Run(m, init).manager, inputs[|inputs| - 1].action, id)
  }

  // ---------------------------------------------------------------------
  // One action
  // ---------------------------------------------------------------------

  /** The socket takes a prefix, and all of it unless the send is cut short. */
  lemma TakenIsPrefix(m: Manager, a: ManagerAction, id: nat)
    ensures Taken(m, a, id) <= Asked(a, id)
    ensures !CutShort(m, a, id) <==> Taken(m, a, id) == Asked(a, id)
  {
  }

  lemma ExecuteWrites(m: Manager, a: ManagerAction, id: nat)
    ensures Written(Execute(m, a), id) == Written(m, id) + Taken(m, a, id)
  {
    assert Written(m, id) + [] == Written(m, id);
    if a.SendDown? || a.SendUp? {
      AcceptedIsRoom(a.data, a.reply);
    }
  }

  lemma AcceptedIsRoom(d: seq<Byte>, reply: SendReply)
    ensures Accepted(d, reply) == d[..Room(reply, |d|)]
  {
  }

  lemma {:induction false} AcceptAllWrites(m: Manager, handles: seq<nat>, o: Oracle)
    ensures AcceptAll(m, handles, o).manager.written == m.written
    decreases |handles|
  {
    if handles != [] {
      AcceptAllWrites(Accept(m, handles[0], o).manager, handles[1..], o);
    }
  }

  lemma {:induction false} DropAllWrites(m: Manager, ids: seq<nat>)
    ensures DropAll(m, ids).written == m.written
    decreases |ids|
  {
    if ids != [] {
      DropAllWrites(Drop(m, ids[0]), ids[1..]);
    }
  }

  /** Scanning writes nothing. */
  lemma ScanWrites(m: Manager, o: Oracle)
    ensures Scan(m, o).manager.written == m.written
  {
    var accepted := AcceptPhase(m, o);
    var walked := Walk(accepted.manager.streams, o, o.order);
    AcceptAllWrites(m.(listeners := EstablishedIn(m.listeners, o.socket, false)),
                    EstablishedIn(m.listeners, o.socket, true), o);
    DropAllWrites(accepted.manager.(streams := walked.streams), walked.closed);
  }

  lemma StepWrites(m: Manager, i: Input, id: nat)
    ensures Written(Step(m, i).manager, id) == Written(m, id) + Taken(m, i.action, id)
  {
    ExecuteWrites(m, i.action, id);
    ScanWrites(Execute(m, i.action), i.oracle);
  }

  // ---------------------------------------------------------------------
  // Runs
  // ---------------------------------------------------------------------

  /** On every run, for arbitrary sockets, what was written is the concatenation of the accepted prefixes. */
  lemma {:induction false} WrittenIsAcceptedPrefixes(m: Manager, inputs: seq<Input>, id: nat)
    requires m.written == map[]
    ensures Written(Run(m, inputs).manager, id) == TakenAll(m, inputs, id)
  {
    if inputs != [] {
      var init, i := inputs[..|inputs| - 1], inputs[|inputs| - 1];
      WrittenIsAcceptedPrefixes(m, init, id);
      StepWrites(Run(m, init).manager, i, id);
    }
  }

  lemma {:induction false} TakenAllBounded(m: Manager, inputs: seq<Input>, id: nat)
    ensures |TakenAll(m, inputs, id)| <= |AskedAll(inputs, id)|
    ensures |TakenAll(m, inputs, id)| == |AskedAll(inputs, id)| <==> NoneCutShort(m, inputs, id)
    ensures NoneCutShort(m, inputs, id) ==> TakenAll(m, inputs, id) == AskedAll(inputs, id)
  {
    if inputs != [] {
      var init, i := inputs[..|inputs| - 1], inputs[|inputs| - 1];
      TakenAllBounded(m, init, id);
      TakenIsPrefix(Run(m, init).manager, i.action, id);
    }
  }

  /** On every run, everything asked for was written if and only if no send was cut short. */
  lemma WrittenIffNoneCutShort(m: Manager, inputs: seq<Input>, id: nat)
    requires m.written == map[]
    ensures Written(Run(m, inputs).manager, id) == AskedAll(inputs, id) <==> NoneCutShort(m, inputs, id)
  {
    WrittenIsAcceptedPrefixes(m, inputs, id);
    TakenAllBounded(m, inputs, id);
  }
}
