# Verification of distvirt's protocol and bookkeeping core

This project models the parts of distvirt that hold state between calls, and proves what they keep over whole runs:

- the **HTTP/2 activator**: the frame codec, the proxy connection, the multiplexer over all connections, and the
  smoltcp stream manager underneath it;
- the **log bus** and the **event bus** of the orchestrator;
- the **label selector** parser and printer;
- the **router kernel**: `EdgeMap`, `incremental_diff` and `ManualPropagate`;
- the **client's namespace model**, fed by a snapshot and an overlapping event stream;
- the **Postgres activator's** connection.

## How it is built

Each component has a module of plain functions that say what an operation does to a value (`Http2Connection`,
`StreamManager`, `LogBus`, ...), a module with the class as the program has it, whose methods are proved to compute
those functions (`...Impl`), and modules of laws about the functions and about runs of them.

What the program takes from its surroundings is a parameter, so the laws hold for every choice of it: the iteration
order of a hash table (a sequence that enumerates its keys), what each socket shows and which handle a new socket gets,
whether a channel accepts a message, which retired topics have expired, what a health check is.

Two notions recur. A run of the activator has *fresh handles* when the host never opens a stream under a handle that is
still live and never reports a connected upstream under one. `ActivatorStack` proves that whichever of the stream
manager's events reach the activator, they are such a run. Every send carries a tag saying whether the proxy made the
frame, the client did or the backend did; the tag is for provenance only and no operation looks at it.

`ActivatorLoop` closes the loop by feeding the activator's actions back to the manager. This is what
`process_l4_output` does when it is given an activator; its present callers give it none.

`dafny verify dfyconfig.toml` checks everything.

## Findings

Where a law one would expect does not hold of the code, the project says exactly when it does, and gives an input or a
run from the start on which it fails.

- **Long payloads.** Serialising writes the low 24 bits of the length, so parsing gives the frame back exactly for
  payloads below 2^24 bytes (`Http2Frames.ParseInvertsFrameBytes`). Fails on 2^24 zero bytes
  (`Findings.LongPayloadIsMisread`).
- **Rejected preface.** Splitting client data never changes what is emitted. The held bytes differ exactly when all
  chunks but the last are rejected as a preface and what is held then reads as a complete frame
  (`Http2Chunking.ClientChunking`). Fails on 24 zero bytes (`Findings.RejectedPrefaceDiffers`).
- **Re-opened handle.** Opening a stream under a live handle replaces the connection without subtracting its streams:
  the counter stays right exactly when the replaced connection had none (`Http2ActivatorCount.StreamOpenCounts`). Fails
  on a run of three events (`Findings.ReopenedHandleMiscounts`).
- **Unreported upstream.** An upstream can be closed without ever having had a connect result, because the close check
  does not ask whether one was reported (`StreamManagerLaws.UpstreamEndsUnreported`). Fails on a run of four inputs, in
  which the backend's SYN crosses ours and its FIN comes with the segment that completes the handshake
  (`FindingsStreamManager.EndsUnreported`).
- **Sends cut short.** The manager offers a send to the socket once. What the socket does not take is dropped, and no
  event says so. What the socket took is what the activator sent exactly when no send was cut short
  (`StreamManagerSends.WrittenIffNoneCutShort`, `ActivatorWire.ClientIsWrittenWhole`,
  `ActivatorWire.BackendIsWrittenWhole`). Fails on a run in which the client's transmit buffer has less room than the
  proxy's first SETTINGS frame needs (`FindingsLoop.GreetingIsCutShort`).
- **Stranded connects.** A connection's place in the queue of pending connects is not always backed by an answer on its
  way: the two numbers differ by exactly the connects refused for lack of a backend, the upstreams that ended
  unreported, the results the host dropped, and the clients that went away
  (`ActivatorLoop.ConnectsBalanceOnEveryRun`, `ActivatorLoop.PendingMatchedIff`). Fails on a run in which the
  upstream ends unreported, so that the activator hears only of an end it cannot place
  (`FindingsLoop.ConnectIsStranded`).
- **Port sharing.** The allocator hands out a port that is in use exactly when all 16384 are
  (`StreamManagerPorts.FullPass`, `StreamManagerPorts.OpenUpstreamPorts`). Fails on the run that opens 16385 upstreams
  (`FindingsStreamManager.PortsRunOut`).
- **Reordered targets.** `set_edges` keeps the list it is given unless only the order or multiplicity of the targets
  changed, when it keeps the old one (`EdgeMap.SetForwardListIff`). Fails when two targets change places
  (`EdgeMap.ReorderIsIgnored`).
- **Selectors outside the grammar.** Printing and parsing give a list of predicates back exactly when keys and values
  use the two alphabets, keys are not empty and no value list is `[""]` (`Selector.RoundTripIffPrintable`). Fails on
  `In("k", [""])` (`Findings.EmptyValueIsLost`). A caller can build that as a `Predicate`, which is public and can be
  displayed, but not as a `Selector`, whose predicates are private: every `Selector` comes from the parser and so comes
  back (`Selector.ParsedIsPrintable`, `Selector.ParsePrintParse`).
- **Snapshot detail.** `from_status` sets every demand to zero and loses pod detail. The model is right afterwards
  exactly for the fields the stream reports or that happened to be so (`NamespaceModel.BootstrappedDemand`,
  `NamespaceModel.BootstrappedPodState`), and bootstrapping inverts the orchestrator's report exactly for models without
  such detail (`NamespaceChanges.BootstrapInvertsReportIff`). Fails on a report with one workload and one running pod
  (`Findings.SnapshotLosesDetail`).
- **Overtaken client bytes.** Once a Postgres connection stops being idle, later client data is forwarded past the
  part of a message that is still held (`Postgres.DirectForwardingInOrderIff`). Fails on the run from a
  new connection in `Postgres.HeldBytesOvertaken`.
- The subscribe-before-snapshot law needs no assumption that a pod always names the same workload
  (`NamespaceModel.SubscribeBeforeSnapshotIsSafe`).

## Model

| member | source | states |
|---|---|---|
| `Http2Frames.ParseInvertsFrameBytes` | activators/http2/src/frame.rs:91-131 | Parsing a serialised frame, whatever bytes follow, gives back its type, flags, 31-bit stream id, payload and size if and only if the payload is below 2^24 bytes |
| `Http2Frames.FrameTypeBytes` | activators/http2/src/frame.rs:20-50 | The ten type bytes mean the ten frame types of section 6 of RFC 7540 in their order and no others; every byte survives decoding and encoding, and a frame type survives the other way unless it is `Unknown` with a known code |
| `Http2Frames.ParseFrameStable` | activators/http2/src/frame.rs:91-116 | Once a frame parses, later bytes change neither the frame nor its size |
| `Http2Frames.CutFramesAppend` | activators/http2/src/connection.rs:140-155 | The parse loop on two chunks finds the frames and the remainder of the concatenation |
| `Http2Frames.CutFramesWhole` | activators/http2/src/frame.rs:91-116 | Every frame the parse loop yields is complete on its own, and the remainder begins with no complete frame |
| `Http2Frames.CutFramesConserves` | activators/http2/src/frame.rs:91-116 | The frames cut off and the remainder concatenate to the input |
| `Http2Frames.CutFramesRecovers` | activators/http2/src/frame.rs:91-116 | The parse loop recovers any concatenation of complete frames exactly, with no remainder |
| `Http2Frames.GeneratedFramesWhole` | activators/http2/src/frame.rs:134-176 | Every frame the proxy makes itself (settings, acknowledgements, window updates, GOAWAY) is one complete frame |
| `Http2Frames.AcksOnTheWire` | activators/http2/src/frame.rs:144-151 | The acknowledgements byte by byte; a PING acknowledgement carries the eight bytes it answers |
| `Http2Frames.WindowUpdateOnTheWire` | activators/http2/src/frame.rs:154-157 | WINDOW_UPDATE byte by byte, for every stream and increment of 31 bits |
| `Http2Frames.GoawayOnTheWire` | activators/http2/src/frame.rs:160-165 | GOAWAY byte by byte, for every last stream and error code |
| `Http2Frames.OurSettingsOnTheWire` | activators/http2/src/frame.rs:168-176 | The proxy's SETTINGS frame byte by byte, with its five parameters |
| `Http2Frames.ReservedBitIgnored` | activators/http2/src/frame.rs:91-116 | The stream id of a frame is its four bytes without the reserved bit |
| `Http2Frames.PrefaceAsText` | activators/http2/src/frame.rs:78 | The 24 bytes of the preface are the text of section 3.5 of RFC 7540 |
| `Http2Frames.LowFlagIsLowestBit` | activators/http2/src/frame.rs:54-55 | ACK and END_STREAM are the lowest flag bit, whatever other flags are set |
| `Http2Frames.SerializeFrame` | activators/http2/src/frame.rs:119-131 | The appending code writes the frame's wire form |
| `Http2Frames.BuildSettings` | activators/http2/src/frame.rs:134-141 | The settings loop writes a SETTINGS frame with the parameters in order |
| `Http2ConnectionImpl.Connection.constructor` | activators/http2/src/connection.rs:82-94 | A new connection awaits the preface with empty buffers |
| `Http2ConnectionImpl.Connection.OnClientData` | activators/http2/src/connection.rs:113-156 | Whole new state and actions for a chunk of client bytes: preface check, greeting, then one frame after the other |
| `Http2ConnectionImpl.Connection.HandleClientFrame` | activators/http2/src/connection.rs:158-254 | Whole new state and actions for one client frame |
| `Http2ConnectionImpl.Connection.OnUpstreamConnected` | activators/http2/src/connection.rs:257-264 | Handshaking, the preface and settings go upstream, and streams, phase and all buffers are left alone |
| `Http2ConnectionImpl.Connection.OnUpstreamData` | activators/http2/src/connection.rs:267-285 | Whole new state and actions for a chunk of backend bytes |
| `Http2ConnectionImpl.Connection.HandleUpstreamFrame` | activators/http2/src/connection.rs:287-374 | Whole new state and actions for one backend frame, including the first SETTINGS that makes the upstream ready; `Http2Replies` says over whole runs what these actions amount to |
| `Http2ConnectionImpl.Connection.OnUpstreamClosed` | activators/http2/src/connection.rs:377-394 | GOAWAY, close, and one stream-closed report per open stream |
| `Http2ConnectionImpl.Connection.OnUpstreamFailed` | activators/http2/src/connection.rs:397-410 | The same for an upstream that never connected |
| `Http2ConnectionImpl.Connection.FlushBuffered` | activators/http2/src/connection.rs:413-418 | Everything buffered is sent, in order, and the buffer is empty |
| `Http2ConnectionImpl.Connection.BufferOrForward` | activators/http2/src/connection.rs:421-427 | A frame is sent and the buffer left alone when the upstream is ready; otherwise it joins the end of the buffer and nothing is sent |
| `Http2Chunking.ClientChunking` | activators/http2/src/connection.rs:113-156 | For every state and every list of chunks the actions are those of one chunk; the states agree if and only if it is not so that all chunks but the last are rejected as a preface with a complete frame held |
| `Http2Chunking.UpstreamChunking` | activators/http2/src/connection.rs:267-285 | For every state and every list of chunks of backend data, actions and state are those of one chunk |
| `Http2Chunking.ClosingDropsClientData` | activators/http2/src/connection.rs:113-156 | A closing connection emits nothing for client bytes and keeps only their incomplete remainder |
| `Http2StreamTable.ReceiveAllCounted` | activators/http2/src/connection.rs:190-232 | Over any run of frames the reported openings and closings account exactly for the growth of the stream table, and it never reports more closings than are open |
| `Http2StreamTable.ReceiveStreamStep` | activators/http2/src/connection.rs:326-359 | One frame moves each stream's table entry exactly as that stream's own state machine says, and no other entry |
| `Http2StreamTable.StreamTableRefines` | activators/http2/src/connection.rs:440-480 | Over any interleaving of frames of both sides, with the backend ending in between, the table is the product of independent per-stream state machines that ignore the client after a GOAWAY |
| `Http2StreamLife.StreamTableOnEveryRun` | activators/http2/src/connection.rs:113-410 | After any interleaving of inputs, each stream's entry is what its own state machine makes of the frames of both byte streams, merged in the order in which they became complete, and of the backend ending; ids stay unique |
| `Http2Delivery.ClientFramesConserved` | activators/http2/src/connection.rs:158-254 | After any interleaving of inputs, client frames sent upstream followed by those buffered are exactly the non-SETTINGS, non-PING frames of the client's byte stream up to its GOAWAY, in order; nothing is buffered while the upstream is ready |
| `Http2Replies.BackendFramesRelayed` | activators/http2/src/connection.rs:287-374 | After any interleaving of inputs, the backend frames sent to the client are exactly the non-SETTINGS, non-PING frames of the backend's byte stream, in order |
| `Http2Replies.ClientIsAnswered` | activators/http2/src/connection.rs:113-254 | After any interleaving, what the proxy itself did to the client is: greet a good preface or hang up on a bad one, answer each of the client's frames up to its GOAWAY in order (one acknowledgement per SETTINGS or PING without ACK, credit for DATA), then announce each loss of the backend with the last stream opened |
| `Http2Replies.BackendIsAnswered` | activators/http2/src/connection.rs:257-374 | After any interleaving, what the proxy itself sent upstream is the preface and settings when it connects, then one acknowledgement per SETTINGS or PING without ACK and credit for DATA, in the order of the backend's frames |
| `Http2Handshake.HandshakesOnEveryRun` | activators/http2/src/connection.rs:165-374 | After any interleaving: the upstream is ready from the first SETTINGS after it connected, and then every frame owed to it has been sent; the phase and both acknowledgement flags are what the two byte streams say |
| `Http2Framing.DownstreamIsFramed` | activators/http2/src/connection.rs:287-385 | After any interleaving, the bytes sent to the client are complete frames with no remainder |
| `Http2Framing.UpstreamIsFramed` | activators/http2/src/connection.rs:257-264 | Over any life with one upstream, that upstream hears nothing before it connects, then the preface and complete frames |
| `Http2Framing.ApplyWhole` | activators/http2/src/connection.rs:413-427 | Each input keeps every buffered frame complete, and every input but the upstream connecting sends complete frames only |
| `Http2Framing.ClientDataQuiet` | activators/http2/src/connection.rs:421-427 | Client data leaves the upstream state alone, and causes no upstream send unless the upstream is ready |
| `Http2ActivatorCount.CounterAndNeedOnEveryRun` | activators/http2/src/core.rs:69-301 | On every run that opens no live handle, whatever upstream handles and iteration orders it uses: `total_h2_streams` is the number of open streams over live connections, no saturating subtraction clips, and the last backend need is Active if and only if some connection has an open stream |
| `Http2ActivatorCount.StepCounts` | activators/http2/src/core.rs:238-291 | One event keeps the counter equal to the sum and subtracts without clipping |
| `Http2ActivatorCount.StreamOpenCounts` | activators/http2/src/core.rs:69-71 | Opening a stream keeps the counter right if and only if it replaces no connection with open streams |
| `Http2ActivatorCount.StepSignals` | activators/http2/src/core.rs:295-301 | After each event, from any state, the last need signalled is the one its counter calls for |
| `Http2ActivatorCount.SumPositive` | activators/http2/src/core.rs:295-301 | The stream sum is positive if and only if some connection has an open stream |
| `Http2ActivatorRouting.LinkedOnEveryRun` | activators/http2/src/core.rs:84-264 | On every run with fresh handles: pending connects have no duplicates and are live connections without an upstream, upstreams map injectively onto live connections that are not pending, and every handshaking or ready connection has exactly one upstream |
| `Http2ActivatorRouting.StepLinked` | activators/http2/src/core.rs:98-235 | Each event keeps the pending queue and the upstream map linked in that sense |
| `Http2ActivatorRouting.StepUnambiguous` | activators/http2/src/core.rs:69-264 | Every event that does not re-open a handle which waits for an upstream or has one keeps the routing map injective, the queue free of duplicates and the two disjoint, even when live handles or mapped upstreams are reused |
| `Http2ActivatorRouting.LinkedIsUnambiguous` | activators/http2/src/core.rs:238-264 | Linked tables are unambiguous, and an event with fresh handles never re-opens a waiting or connected one |
| `Http2ActivatorUpstreams.StepRoutedExactly` | activators/http2/src/core.rs:98-235 | For every event: an upstream is mapped, to the head of the queue, exactly when it is reported connected; unmapped exactly when it ends, its client closes or the backend goes; and closed, once, exactly when it is unmapped without having ended or was connected for nobody |
| `Http2ActivatorUpstreams.UpstreamsAccountedFor` | activators/http2/src/core.rs:98-235 | On every run, for every upstream: each time it was connected it is still mapped, has ended, or was closed by one action; the only other closes are of upstreams that failed when nobody waited |
| `Http2ActivatorUpstreams.ServedOnEveryRun` | activators/http2/src/core.rs:73-166 | On every run: the backend counts as there if it was last announced so, and then every live connection that holds frames for it is queued, connected or told of the failure |
| `Http2ActivatorUpstreams.DemandIsMet` | activators/http2/src/core.rs:73-166 | So while the backend is there, a connection with held frames waits for an upstream, or has exactly one, or has lost it |
| `Http2ActivatorUpstreams.StepToPort80` | activators/http2/src/core.rs:84-93 | For every event and state, connects are to port 80 |
| `Http2ActivatorEndToEnd.SeenTranslate` | activators/http2/src/core.rs:238-264 | Translating a connection's actions drops, misdirects and reorders nothing |
| `Http2ActivatorEndToEnd.StepProjects` | activators/http2/src/core.rs:73-235 | One event is, for each connection alive before it, exactly the inputs routed to that connection |
| `Http2ActivatorEndToEnd.ActivatorIsProduct` | activators/http2/src/core.rs:33-291 | On every run a live connection is in the state, and has emitted the actions, that it would alone on its own inputs |
| `Http2ActivatorEndToEnd.OneUpstreamPerLife` | activators/http2/src/core.rs:125-198 | On every run a live connection has been connected at most once, hears an upstream only after that, is no longer pending then, and has been connected if it has an upstream now |
| `Http2ActivatorEndToEnd.DeliveryEndToEnd` | activators/http2/src/core.rs:73-264 | On every run, for every live connection, the client frames handed to its upstream followed by those buffered are what its client bytes owe the backend |
| `Http2ActivatorEndToEnd.FramingEndToEnd` | activators/http2/src/core.rs:73-264 | On every run, for every live connection, client bytes are complete frames and upstream bytes are none, or the preface and complete frames |
| `Http2ActivatorEndToEnd.RepliesEndToEnd` | activators/http2/src/core.rs:73-264 | On every run, for every live connection: its client has been sent exactly the backend's frames that do not end at the proxy, in order, and the proxy's own greeting, answers and notices; its upstream the proxy's greeting and answers |
| `Http2ActivatorEndToEnd.HandshakesEndToEnd` | activators/http2/src/core.rs:73-264 | On every run, for every live connection: its upstream is in the state its own inputs lead to, and once that is ready every frame owed to the backend has been handed over |
| `Http2ActivatorEndToEnd.StreamsEndToEnd` | activators/http2/src/core.rs:73-264 | On every run, for every live connection, each stream in its table is what that stream's own state machine makes of the frames of both byte streams |
| `Http2ActivatorImpl.Activator.ProcessEvents` | activators/http2/src/core.rs:33-65 | A batch of events that re-opens no waiting or connected handle leaves the state and actions of the steps taken one by one, and the routing unambiguous |
| `Http2ActivatorImpl.Activator.ProcessConnActions` | activators/http2/src/core.rs:238-291 | Whole new state and translated actions for what one connection asks for |
| `Http2ActivatorImpl.Activator.HandleStreamData` | activators/http2/src/core.rs:73-96 | Whole new state and actions for client data, including the queued connect |
| `Http2ActivatorImpl.Activator.HandleStreamClose` | activators/http2/src/core.rs:98-123 | The connection and its queue entry go, its upstream is unmapped and closed, and its streams leave the counter; `Http2ActivatorUpstreams` says over whole runs when upstreams are closed |
| `Http2ActivatorImpl.Activator.HandleBackendAvailable` | activators/http2/src/core.rs:125-166 | Waiting connections are queued and connects issued, or everything is closed, in the tables' iteration order |
| `Http2ActivatorImpl.Activator.HandleUpstreamConnectResult` | activators/http2/src/core.rs:168-198 | The result goes to the connection at the head of the queue |
| `Http2ActivatorImpl.Activator.HandleUpstreamData` | activators/http2/src/core.rs:200-219 | Backend data goes to the connection the upstream is mapped to |
| `Http2ActivatorImpl.Activator.HandleUpstreamClose` | activators/http2/src/core.rs:221-235 | The upstream is unmapped and its connection told |
| `StreamManagerLaws.TablesOnEveryRun` | crates/activator/src/stream_manager.rs:290-456 | For arbitrary socket behaviour, `streams` and `handle_to_stream` stay mutually inverse, over sockets that exist, with ids below the next one |
| `StreamManagerLaws.EventsInOrderOnEveryRun` | crates/activator/src/stream_manager.rs:290-456 | For arbitrary socket behaviour and every id: events come as open, data, one close (or at most one connect result, data, one end), nothing follows the end, an id has ended exactly when it was handed out and left the table, and ids are never reused |
| `StreamManagerLaws.UpstreamEndsUnreported` | crates/activator/src/stream_manager.rs:393-440 | A scan ends an unreported upstream without a connect result if and only if it finds the socket in Closing, LastAck, or CloseWait with nothing to read |
| `StreamManagerData.DataIsReportedOnEveryRun` | crates/activator/src/stream_manager.rs:355-385 | On every run, for arbitrary sockets and every stream: the bytes reported for it are exactly those that the scans which found it live, not held back and readable took from its socket, in order, as client data for a downstream and backend data for an upstream stream |
| `StreamManagerData.PausedOnEveryRun` | crates/activator/src/stream_manager.rs:501-510 | On every run, a live stream is held back if and only if the last action on it that took effect was a pause |
| `StreamManagerScans.ScanOpens` | crates/activator/src/stream_manager.rs:290-345 | For arbitrary sockets: a scan opens one stream per listener that became a connection and has a local address, in order, with the next ids, reports each, and replaces the listeners it can |
| `StreamManagerScans.ScanReportsExactly` | crates/activator/src/stream_manager.rs:347-456 | For arbitrary sockets and every stream: exactly when a scan reports a connect result, the end, and forgets the stream |
| `StreamManagerScans.ObserveExactly` | crates/activator/src/stream_manager.rs:393-440 | The same for one look at one stream |
| `StreamManagerScans.SocketsOnEveryRun` | crates/activator/src/stream_manager.rs:290-456 | On every run, for arbitrary sockets: a socket is kept if and only if it listens, serves a live stream, or was a listener whose connection had no local address when it was found, and only one of these |
| `StreamManagerScans.ConnectOpensIffBackendGiven` | crates/activator/src/stream_manager.rs:511-559 | On every run: a connect opens an upstream, with the next id and its own socket, if and only if the backend's address was given and not taken away |
| `StreamManagerScans.BackendOnEveryRun` | crates/activator/src/stream_manager.rs:632-636 | On every run, the backend is known if and only if it was last set |
| `StreamManagerPorts.EveryPortVisited` | crates/activator/src/stream_manager.rs:228-243 | One pass of the port loop visits every port of the range, exactly once |
| `StreamManagerPorts.FullPass` | crates/activator/src/stream_manager.rs:228-243 | The allocator finds a port that is not in use if and only if there is one |
| `StreamManagerPorts.FreePortExists` | crates/activator/src/stream_manager.rs:228-243 | There is a free port if and only if fewer than 16384 are in use |
| `StreamManagerPorts.OpenUpstreamPorts` | crates/activator/src/stream_manager.rs:519-531 | Opening an upstream keeps the port set equal to the live upstreams' distinct ports if and only if fewer than 16384 upstreams are live |
| `StreamManagerPorts.PortsExactOnEveryRun` | crates/activator/src/stream_manager.rs:443-453 | On every run that opens upstreams only while fewer than 16384 are live, the port set is exactly the live upstreams' ports, all different |
| `StreamManagerReports.StepReports` | crates/activator/src/stream_manager.rs:393-456 | One action and scan: upstreams that owe a connect result, results emitted and upstreams forgotten while owing one add up to those that owed one before and the one a connect adds |
| `StreamManagerImpl.Manager.AllocUpstreamPort` | crates/activator/src/stream_manager.rs:228-243 | The 16-bit loop computes the chosen port, the next candidate and the port set, without overflow |
| `StreamManagerImpl.Manager.AllocStreamId` | crates/activator/src/stream_manager.rs:277-281 | Returns the next id and moves on by one |
| `StreamManagerImpl.Manager.ScanSockets` | crates/activator/src/stream_manager.rs:290-456 | Whole new state and events of a scan, every socket lookup succeeding, tables kept; `StreamManagerData` and `StreamManagerScans` say what is read, opened, reported and ended |
| `StreamManagerImpl.Manager.ExecuteAction` | crates/activator/src/stream_manager.rs:471-607 | Whole new state of a connect, send, close, pause or resume, tables kept; an unknown stream, or a downstream one where an upstream is meant, is left alone |
| `StreamManagerImpl.Manager.SendSlice` | crates/activator/src/stream_manager.rs:476-493 | The bytes the socket took join those written to the stream; none when it cannot send or fails, a prefix when it has less room |
| `StreamManagerSends.WrittenIsAcceptedPrefixes` | crates/activator/src/stream_manager.rs:476-493 | On every run, for arbitrary sockets and every stream, what was written is the concatenation of the accepted prefixes of the sends, in order |
| `StreamManagerSends.AcceptedIsRoom` | crates/activator/src/stream_manager.rs:476-493 | A socket takes as much of a send as it has room for, and nothing when it cannot send or fails |
| `StreamManagerSends.WrittenIffNoneCutShort` | crates/activator/src/stream_manager.rs:562-583 | On every run, everything the manager was asked to send on a stream was written if and only if no send was cut short |
| `StreamManagerSends.ScanWrites` | crates/activator/src/stream_manager.rs:290-456 | Scanning writes nothing and forgets nothing of what was written |
| `ActivatorAddresses.StepAddressed` | activators/http2/src/core.rs:238-264 | For every event and state, sends go to live connections and to upstreams mapped while they are sent |
| `ActivatorAddresses.DownToIsSeen` | activators/http2/src/core.rs:238-264 | For every live connection, the bytes addressed to its handle over the whole run are those it was sent during its life |
| `ActivatorAddresses.UpToIsSeen` | activators/http2/src/core.rs:168-198 | For every mapped upstream, the bytes addressed to it over the whole run are those its connection sent upstream |
| `ActivatorStack.SubsequenceIsFresh` | activators/activator-types/src/lib.rs:41-94 | Any subsequence of events in the stream manager's order is a run with fresh handles, in which only announced handles are held or addressed and new ones were never addressed before |
| `ActivatorStack.StackGuarantees` | activators/http2/src/core.rs:33-65 | For arbitrary socket behaviour and backend availability, and whichever of the manager's events reach the activator: linked tables, an exact counter and need signal, and for every live connection: the frames owed to the backend, the backend's frames and the proxy's own answers are handed to the manager in order, and whole in both directions |
| `ActivatorStack.UpstreamsClosedOnce` | activators/http2/src/core.rs:98-235 | Whichever of the manager's events reach the activator: no upstream is closed twice, and one that was reported connected is mapped, has ended, or was closed, and only one of these |
| `ActivatorLoop.StepQueue` | activators/http2/src/core.rs:73-198 | For every event and state, the pending queue grows by exactly the connects issued and shrinks by exactly what a result or a closing client takes from it |
| `ActivatorLoop.ConnectsBalanceOnEveryRun` | crates/worker/src/fabric/endpoint/service_processor.rs:208-250 | On every run of the closed loop, for any schedule: pending connects and cancelled ones equal the answers on their way and the refused, silent, surplus and dropped ones; pending equals awaited if and only if these cancel out; at most the lost ones are pending in vain |
| `ActivatorLoop.PendingMatchedIff` | crates/worker/src/fabric/endpoint/service_processor.rs:208-250 | While no waiting client goes away, pending connects match the answers on their way if and only if no connect was refused, ended silently or had its result dropped |
| `ActivatorLoop.LoopGuarantees` | crates/worker/src/fabric/endpoint/service_processor.rs:208-250 | On every run of the closed loop, dropped events included: the activator meets fresh handles only, its tables are linked, its counter and need signal are exact, and every live connection's frames, the backend's frames and the proxy's answers are handed to the manager in order and whole |
| `ActivatorWire.WrittenOnEveryRun` | crates/worker/src/fabric/endpoint/service_processor.rs:208-250 | On every run of the closed loop and for every stream, its socket took what the activator sent, but for what is still to be given to the manager, if and only if no send was cut short |
| `ActivatorWire.ClientIsWrittenWhole` | crates/activator/src/stream_manager.rs:476-493 | For every live connection on every run: the client's socket took exactly what the connection sent it if and only if no send was cut short, and then these are complete frames |
| `ActivatorWire.BackendIsWrittenWhole` | crates/activator/src/stream_manager.rs:562-583 | For every mapped upstream on every run: its socket took exactly what its connection sent upstream if and only if no send was cut short, and then this is the preface and complete frames |
| `ActivatorWire.ClosesCarriedOut` | crates/worker/src/fabric/endpoint/service_processor.rs:208-250 | On every run of the closed loop, every close the activator asked for, of either side, has been given to the manager as often as it was asked for, but for those still on their way |
| `ActivatorWire.UpstreamsClosedOnce` | crates/worker/src/fabric/endpoint/service_processor.rs:208-250 | On every run of the closed loop, the manager has been told at most once to close an upstream; one that was reported connected is mapped, has ended, or was closed, and only one of these |
| `FindingsLoop.GreetingIsCutShort` | crates/activator/src/stream_manager.rs:476-493 | For every shorter room in the client's transmit buffer, a run after which the client has got that much of the first SETTINGS frame, the rest is in no queue, and no event is on its way |
| `FindingsLoop.ConnectIsStranded` | crates/activator/src/stream_manager.rs:393-440 | A run, with the backend known and dialled, after which a connection is pending and no answer is on its way |
| `Findings.LongPayloadIsMisread` | activators/http2/src/frame.rs:119-131 | A payload of 2^24 zero bytes is read back as an empty frame of nine bytes |
| `Findings.RejectedPrefaceDiffers` | activators/http2/src/connection.rs:113-156 | 24 zero bytes, then an empty chunk, leave another state than the two together |
| `Findings.ReopenedHandleMiscounts` | activators/http2/src/core.rs:69-71 | Open a handle, open a stream on it, open the handle again: one stream is counted and none is open |
| `FindingsStreamManager.EndsUnreported` | crates/activator/src/stream_manager.rs:393-440 | A run of four inputs, in SynSent, SynReceived and CloseWait, whose only event is the end of an upstream that never reported a connect result |
| `FindingsStreamManager.PortsRunOut` | crates/activator/src/stream_manager.rs:228-243 | A run to 16384 live upstreams with exact ports, and one more connect after which two share a port |
| `LogBusLaws.RunPlaced` | crates/orchestrator/src/log_bus.rs:135-332 | On every run each standing subscription ever made is either closed or attached exactly where it matches, and receivers stay distinct |
| `LogBusLaws.StandingSubscriptionsOnEveryRun` | crates/orchestrator/src/log_bus.rs:135-211 | On every run a standing subscription with an open receiver is attached exactly once to every topic matching its namespace, workload and containers, and to no other, through creation, late naming, sweeping and namespace removal |
| `LogBusLaws.ChunkDeliveredOnce` | crates/orchestrator/src/log_bus.rs:284-323 | A published chunk goes exactly once to each matching open subscription with room, and to no other |
| `LogBusLaws.ListedAreStanding` | crates/orchestrator/src/log_bus.rs:326-332 | On every run the listed subscriptions are standing ones |
| `LogBusLaws.RemovedSubscriptionIsGone` | crates/orchestrator/src/log_bus.rs:326-332 | Removing a namespace leaves its standing subscriptions listed and attached nowhere |
| `LogBusSubscribers.HistoryIsWhatWasAskedFor` | crates/orchestrator/src/log_bus.rs:241-277 | On every run, for any iteration order: a new subscriber gets at once, in time order, every chunk buffered in a topic of the namespace, pods and containers it asked for, as often as it is there, and nothing else |
| `LogBusSubscribers.StandingHistoryIsWhatMatches` | crates/orchestrator/src/log_bus.rs:284-323 | The same for a standing subscription, by namespace, workload name and containers |
| `LogBusSubscribers.SubscriberOnEveryRun` | crates/orchestrator/src/log_bus.rs:241-277 | On every run after a subscription: its sender is attached only to topics that were asked for, existed then and have existed ever since; while its receiver is open, exactly once to each of these, so never to a topic created later |
| `LogBusSubscribers.SubscriberGetsWhatIsDue` | crates/orchestrator/src/log_bus.rs:63-91 | On every run after a subscription with an open receiver: it was sent every chunk published, when it had room, to such a topic, in order, once, and nothing else |
| `LogBusSubscribers.SubscriberGetsNothingElse` | crates/orchestrator/src/log_bus.rs:241-277 | Open or not: every chunk sent to the subscriber is of the namespace, pods and containers it asked for |
| `LogBusSubscribers.NamesOnEveryRun` | crates/orchestrator/src/log_bus.rs:135-228 | On every run a topic has the first name it was given, and is retired exactly if nothing was published to it since it was |
| `LogBusSubscribers.TopicsAfterStep` | crates/orchestrator/src/log_bus.rs:135-211 | A topic is there after an operation if and only if it was just published to, or was there and was neither removed with its namespace nor swept, which takes more than 64 topics, retirement and expiry |
| `LogBusLaws.EvictAppend` | crates/orchestrator/src/log_bus.rs:63-91 | Evicting as chunks arrive equals evicting once at the end |
| `LogBusLaws.EvictIsLongestSuffix` | crates/orchestrator/src/log_bus.rs:63-91 | A suffix of the history fits the cap if and only if it is no longer than what eviction leaves |
| `LogBusLaws.BufferIsLongestSuffixOnEveryRun` | crates/orchestrator/src/log_bus.rs:63-91 | On every run a topic's buffer is the longest suffix of its publish history that fits the cap, and the byte counter, which is only ever added to and subtracted from, is its true size |
| `LogBusLaws.EvictRingExact` | crates/orchestrator/src/log_bus.rs:63-91 | The eviction loop with its own counter leaves the longest fitting suffix and its true size if the counter was right before, so it never underflows |
| `LogBusImpl.TopicState.Publish` | crates/orchestrator/src/log_bus.rs:63-91 | Push, evict, send, and keep the subscribers that are not closed; a byte counter that was right stays right, so it does not underflow |
| `LogBusImpl.LogBusInner.Publish` | crates/orchestrator/src/log_bus.rs:135-211 | Whole new bus: sweep, pruning, topic creation, name backfill and delivery |
| `LogBusImpl.LogBusInner.RetireTopic` | crates/orchestrator/src/log_bus.rs:217-228 | Marks the topic and changes nothing else: buffers, subscribers, other topics and subscriptions stay |
| `LogBusImpl.LogBusInner.Subscribe` | crates/orchestrator/src/log_bus.rs:241-277 | Attaches to exactly the selected topics and returns their buffers, sorted stably by timestamp; `LogBusSubscribers` says which topics and chunks these are, then and later |
| `LogBusImpl.LogBusInner.SubscribeByWorkload` | crates/orchestrator/src/log_bus.rs:284-323 | Attaches to exactly the matching topics, returns their buffers sorted stably by timestamp, and adds the standing subscription |
| `LogBusImpl.LogBusInner.RemoveNamespace` | crates/orchestrator/src/log_bus.rs:326-332 | A topic or subscription stays, as it was, if and only if it belongs to another namespace |
| `EventBus.SubscriberSeesContiguousHistory` | crates/orchestrator/src/event_bus.rs:69-109 | On every run, what a subscriber got (snapshot, then live) is one contiguous segment of the publish history, complete up to now while it stays subscribed |
| `EventBus.BufferIsLongestTailOnEveryRun` | crates/orchestrator/src/event_bus.rs:31-42 | On every run a namespace's buffer is the longest tail of what was published since its creation that fits the cap |
| `EventBus.SubscribedIffReachedOnEveryRun` | crates/orchestrator/src/event_bus.rs:31-109 | On every run a channel is subscribed if and only if it took every event published since it subscribed and its namespace was not removed |
| `EventBusImpl.BatchIsItsEvents` | crates/orchestrator/src/event_bus.rs:69-82 | On every run, publishing a batch is the run that goes on with its events, in order |
| `EventBusImpl.EventBusInner.Publish` | crates/orchestrator/src/event_bus.rs:69-82 | Whole new bus after a publish, with eviction and the dropped subscribers |
| `EventBusImpl.EventBusInner.Subscribe` | crates/orchestrator/src/event_bus.rs:87-103 | Returns exactly the buffered events, which stay buffered, adds the subscriber at once, and leaves other namespaces alone |
| `EventBusImpl.EventBusInner.RemoveNamespace` | crates/orchestrator/src/event_bus.rs:106-109 | The namespace is as if never used, and the others are as they were |
| `EventBusImpl.EvictOldest` | crates/orchestrator/src/event_bus.rs:31-42 | The eviction loop leaves the last `max_events` events |
| `EventBusImpl.FanOut` | crates/orchestrator/src/event_bus.rs:31-42 | Keeps exactly the subscribers whose channel took the event, in order |
| `Selector.RoundTripIffPrintable` | crates/client-protocol/src/selector.rs:107-134 | Parsing a printed selector gives it back if and only if every key is a non-empty key word, every value a value word, and no value list is `[""]` |
| `Selector.ParsedIsPrintable` | crates/client-protocol/src/selector.rs:150-316 | Everything the parser returns is printable in that sense, and it consumes its whole input |
| `Selector.ParsePrintParse` | crates/client-protocol/src/selector.rs:150-316 | Printing and parsing again is the identity on every parsed selector |
| `Selector.PredicateRoundTrip` | crates/client-protocol/src/selector.rs:179-253 | A printed predicate followed by a comma or the end parses back to itself, leaving what follows |
| `Selector.Alphabets` | crates/client-protocol/src/selector.rs:255-283 | The two alphabets, by code point |
| `SelectorGrammar.ParseIffText` | crates/client-protocol/src/selector.rs:150-322 | For every input and every list of predicates: parsing gives the list if and only if it is printable and the input is one of its texts, with any number of spaces wherever the grammar allows them |
| `SelectorGrammar.TextIsAccepted` | crates/client-protocol/src/selector.rs:150-322 | For every printable list and every choice of spaces, parsing its text gives the list |
| `SelectorGrammar.RejectedIffNoText` | crates/client-protocol/src/selector.rs:150-322 | An input is rejected if and only if it is the text of no printable list |
| `SelectorGrammar.TextsAreUnambiguous` | crates/client-protocol/src/selector.rs:150-322 | A text has one meaning |
| `Findings.EmptyValueIsLost` | crates/client-protocol/src/selector.rs:107-134 | `In("k", [""])` is printed and parsed back as `In("k", [])` |
| `SelectorImpl.Parser.ParseSelector` | crates/client-protocol/src/selector.rs:150-177 | The parser object computes the same selector, or the same error message at the same position |
| `SelectorImpl.Parser.ParsePredicate` | crates/client-protocol/src/selector.rs:179-253 | The same for one predicate; `SelectorGrammar` says which texts these are |
| `SelectorImpl.Parser.ParseKey` | crates/client-protocol/src/selector.rs:255-269 | The same for a key |
| `SelectorImpl.Parser.ParseValueSet` | crates/client-protocol/src/selector.rs:285-316 | The same for a value set |
| `SelectorImpl.Parser.SkipWhitespace` | crates/client-protocol/src/selector.rs:318-322 | Advances over exactly the leading spaces |
| `EdgeMap.RefinesRelation` | crates/sm-router/src/edge_map.rs:52-141 | Over every sequence of operations the forward map is the plain relation and keeps no empty entry |
| `EdgeMap.SetForwardPairs` | crates/sm-router/src/edge_map.rs:65-123 | `set_edges` replaces exactly the edges of its source |
| `EdgeMap.RemoveForwardPairs` | crates/sm-router/src/edge_map.rs:129-140 | `remove_target` removes exactly the edges to its target |
| `EdgeMap.ChangedTargets` | crates/sm-router/src/edge_map.rs:65-123 | A target's source set changes if and only if the target enters or leaves the source's target set, that is, if and only if the diff names it |
| `EdgeMap.ReverseUnique` | crates/sm-router/src/edge_map.rs:52-60 | A forward map has one reverse index |
| `EdgeMap.SetForwardListIff` | crates/sm-router/src/edge_map.rs:65-123 | The list kept for the source is the one given if and only if that is empty, was the old one, or has another set of targets |
| `EdgeMap.ReorderIsIgnored` | crates/sm-router/src/edge_map.rs:101-106 | Giving `[b, a]` to a source that has `[a, b]` leaves `[a, b]` |
| `EdgeMap.Edges.SetEdges` | crates/sm-router/src/edge_map.rs:65-123 | Both indexes stay inverse; no diff if and only if the target set is unchanged; otherwise added and removed name exactly the targets that entered and left, once each, or are nothing and the whole old list when the source is cleared |
| `EdgeMap.Edges.RemoveTarget` | crates/sm-router/src/edge_map.rs:129-140 | Both indexes stay inverse with every edge to the target gone |
| `EdgeMap.Edges.FromFwd` | crates/sm-router/src/edge_map.rs:52-60 | The rebuilt reverse index is the inverse of the given forward map |
| `EdgeMap.Edges.Rebuild` | crates/sm-router/src/edge_map.rs:47-60 | Rebuilding from `fwd()` gives both indexes back |
| `EdgeMap.Edges.Perform` | crates/sm-router/src/edge_map.rs:65-141 | After any sequence of operations on the object, forward map and reverse index are both exactly the plain relation, with no empty entry |
| `IncrementalDiff.Diff` | crates/sm-router/src/lib.rs:703-737 | The two loops report the list of changes to any aggregator, in order |
| `IncrementalDiff.ReplayGivesCurrent` | crates/sm-router/src/lib.rs:703-737 | Replaying the changes on the previous snapshot gives the current one |
| `IncrementalDiff.OneChangePerDifference` | crates/sm-router/src/lib.rs:703-737 | Exactly one change for each key on which the snapshots differ, none for the others |
| `IncrementalDiff.ChangesInOrder` | crates/sm-router/src/lib.rs:703-737 | The changes name the new and changed keys as the current snapshot lists them, then the removed keys as the previous one does |
| `IncrementalDiff.NoChangeIffEqual` | crates/sm-router/src/lib.rs:703-737 | No change if and only if the snapshots are equal |
| `IncrementalDiff.ChainReplays` | crates/sm-router/src/lib.rs:703-737 | Replaying the changes of any sequence of snapshots gives the last one |
| `IncrementalDiff.ReporterReportsAll` | crates/sm-router/src/lib.rs:703-737 | An aggregator that reports every change outputs the list of changes |
| `StableSort.SortSpec` | crates/sm-router/src/lib.rs:870-875 | The sort is ordered and stable: the elements with one key stay as they were, in their order |
| `ManualPropagate.DrainSpec` | crates/sm-router/src/lib.rs:870-892 | Draining yields non-empty groups with strictly decreasing keys, each exactly the deliveries with its key in their original order, and hands out the same multiset of deliveries |
| `ManualPropagate.Propagation.NextGroup` | crates/sm-router/src/lib.rs:880-892 | Splits off the last group, or reports that nothing is left |
| `ManualPropagate.Propagation.Drain` | crates/sm-router/src/model_check.rs:110-125 | Calling until nothing is left yields all groups |
| `NamespaceModel.ReplayIsIdempotent` | crates/client/src/model.rs:360-528 | Replaying any stretch of events the model already holds changes nothing |
| `NamespaceModel.SubscribeBeforeSnapshotIsSafe` | crates/client/src/watcher.rs:23-61 | A model holding the first k events and fed from any earlier point j on ends where one pass would |
| `NamespaceModel.InexactSnapshotHealsIff` | crates/client/src/model.rs:360-528 | From any snapshot the stream leads to the true model if and only if it writes every field the snapshot has wrong |
| `NamespaceModel.BootstrappedDemand` | crates/client/src/model.rs:288-355 | A bootstrapped workload's demand is right after the stream if and only if the stream reported it or it was zero |
| `NamespaceModel.BootstrappedPodState` | crates/client/src/model.rs:598-621 | A bootstrapped pod is right after the stream if and only if the stream wrote it or its phase carries its whole state |
| `NamespaceChanges.ReportedChangesRebuildTheModel` | crates/client/src/model.rs:360-528 | For every model and stream of events, replaying the reported changes on the model as it was gives the model as it is |
| `NamespaceChanges.StateChangesLink` | crates/client/src/model.rs:379-425 | A reported change of a known workload names the state it had and the state it has |
| `NamespaceChanges.PodAfterEvent` | crates/client/src/model.rs:427-527 | What each of the pod events leaves of its pod |
| `NamespaceChanges.MissingFieldsReadAs` | crates/client/src/model.rs:534-621 | What missing and unknown fields of the wire format read as |
| `NamespaceChanges.BootstrapInvertsReportIff` | crates/orchestrator/src/grpc/conversions.rs:314-500 | Bootstrapping from the orchestrator's report of a model gives it back if and only if it has no demand, no empty addresses and no pod whose state says more than its phase |
| `Findings.SnapshotLosesDetail` | crates/client/src/model.rs:288-355 | A report of one demanded workload and one running pod gives a model with no demand and no worker |
| `NamespaceModelImpl.NamespaceModel.FromStatus` | crates/client/src/model.rs:288-355 | The loops over the report build the bootstrapped model |
| `NamespaceModelImpl.NamespaceModel.ApplyEvent` | crates/client/src/model.rs:360-377 | Whole new model after one event |
| `NamespaceModelImpl.NamespaceModel.ApplyWorkloadEvent` | crates/client/src/model.rs:379-425 | The same for a workload event |
| `NamespaceModelImpl.NamespaceModel.ApplyPodEvent` | crates/client/src/model.rs:427-527 | The same for a pod event |
| `NamespaceModelImpl.NamespaceModel.ApplyStream` | crates/client/src/watcher.rs:66-79 | Whole new model after a stretch of the stream |
| `Postgres.StartupIgnoresChunking` | activators/postgres/src/connection.rs:75-111 | For every chunking before the upstream connects: one refusal per leading SSLRequest, and connecting flushes exactly the rest of the byte stream if it begins with a whole startup message; else connecting changes nothing, the bytes are still held, and the phase says whether an SSLRequest was refused |
| `Postgres.SslRequestOnTheWire` | activators/postgres/src/protocol.rs:68-99 | An SSLRequest of eight bytes is exactly these eight bytes |
| `Postgres.SslIsRefused` | activators/postgres/src/connection.rs:177-204 | It is refused with the byte `N` |
| `Postgres.ClientChunking` | activators/postgres/src/connection.rs:75-98 | In every phase but Proxying, two chunks of client data leave the state and actions of their concatenation |
| `Postgres.BackendIgnoresChunking` | activators/postgres/src/connection.rs:114-122 | For every chunking all backend bytes reach the client unchanged, and the tracked status is that of the last valid ReadyForQuery in the message decomposition of the whole stream |
| `Postgres.ScanIgnoresChunking` | activators/postgres/src/connection.rs:207-228 | The same for the scanner's state, from any connection that is not closing and any non-empty list of chunks, or none if no complete message is held |
| `Postgres.CutConserves` | activators/postgres/src/protocol.rs:101-117 | The messages cut off and the remainder concatenate to the input |
| `Postgres.CutAppend` | activators/postgres/src/protocol.rs:68-117 | Cutting two chunks finds the messages and remainder of the concatenation |
| `Postgres.IdleDrainConserves` | activators/postgres/src/connection.rs:144-174 | An idle connection keeps back only leading health checks, answered once each; those, what it forwards and what it holds are the given bytes in order |
| `Postgres.AnsweredLocallyIff` | activators/postgres/src/connection.rs:75-98 | Whatever the backend sent, in whatever chunks: a whole client message is answered by the proxy if and only if it is a query that is a health check and the status byte of the last valid ReadyForQuery is `I`; every other one goes to the backend |
| `Postgres.StatusIsLastByte` | activators/postgres/src/connection.rs:207-228 | The tracked status is that of the last ReadyForQuery whose status byte is `I`, `T` or `E`, and authentication is complete if and only if there was one |
| `Postgres.ClosingIsSilent` | activators/postgres/src/connection.rs:75-122 | Once closing, a connection neither changes nor does anything, whatever either side still sends |
| `Postgres.DirectForwardingInOrderIff` | activators/postgres/src/connection.rs:85-95 | Outside idle, all later data leaves in order if and only if nothing is held |
| `Postgres.HeldBytesOvertaken` | activators/postgres/src/connection.rs:85-95 | From a new connection, started, connected and idle: whatever part of a message is held when the backend leaves idle is overtaken by what the client sends next |
| `PostgresImpl.Connection.OnClientData` | activators/postgres/src/connection.rs:75-98 | Whole new state and actions for client data in every phase |
| `PostgresImpl.Connection.TryParseStartup` | activators/postgres/src/connection.rs:177-204 | The loop refuses the leading SSL requests and takes a startup message with all that follows |
| `PostgresImpl.Connection.DrainClientProxying` | activators/postgres/src/connection.rs:144-174 | The loop answers leading health checks and forwards or holds the rest |
| `PostgresImpl.Connection.OnUpstreamConnected` | activators/postgres/src/connection.rs:101-111 | Flushes what is buffered, once |
| `PostgresImpl.Connection.OnUpstreamData` | activators/postgres/src/connection.rs:114-122 | Whole new state and actions for backend data |
| `PostgresImpl.Connection.ScanUpstreamForReady` | activators/postgres/src/connection.rs:207-228 | The loop tracks the last valid ReadyForQuery |

## Left out

- Http2ActivatorImpl.Activator.ProcessEvents: excludes batches that re-open a handle which waits for an upstream or has one, because then a connection can get two upstreams and which one is found depends on hash order; `ActivatorStack.StackGuarantees` shows the stream manager never does that.
- Http2ActivatorImpl.Activator.ProcessConnActions: holds connections as values in a map, so it does not capture that the program borrows them in place.
- LogBusImpl.LogBusInner.Publish: takes the expired topics as given; the clock and the time to live are not modelled.
- EdgeMap.Edges.SetEdges: does not say in which order the diff lists its targets, because targets have no order here; when a source is cleared, `removed` repeats a target that was listed twice.
- StableSort.SortSpec: is about an insertion sort that stands in for the standard library's stable sort.
- StreamManagerImpl.Manager.ExecuteAction: what a close does inside a socket shows only in what later scans see of it; the two closing arms change no table.
- StreamManagerImpl.Manager.AllocStreamId: ids are unbounded, so it does not model 64-bit wrap-around.
- SelectorImpl.Parser.ParseSelector: positions count ASCII characters, and input outside ASCII is not modelled; which inputs are rejected is stated exactly, but which message and position a rejected one gets only through the parser functions.
- PostgresImpl.Connection.OnClientData: what a health check is and the bytes of its answer are parameters.
- Ordering of Postgres client data across idle and busy periods: it does not hold, see the findings.
- Postgres connections closing, and the Postgres activator's connection table: the former repeats the HTTP/2 case, the latter queues a connect per data event and keeps no one-upstream law.
- HTTP/2 flow-control totals: the proxy both grants and forwards credit, so section 6.9 of RFC 7540 gives no conservation law to state.
- smoltcp's internals, packets and timing: only a socket's state, what it has received, whether it can receive and how much of a send it takes are visible to the model.
- A failing wasm runtime, on which the host breaks off its rounds: the activator itself returns no errors.
- Log messages, the wasmtime runtime and the generated bindings.
- Evaluating a selector against labels: one line per predicate.
- The router's generated propagation loop, whose generator is not part of this model.
- The TCP and echo activators, id registries, peer maps, guest init, the command line, gRPC clients and configuration loading: input and output, or only easier members.
