# SLPP in Dafny

SLPP multiplexes TCP and UDP channels over one ordered byte stream between a client and a server. This project
models its protocol engine and proves what holds over whole runs.

- **Frames and bytes.** `FrameCodec` is the 20-byte header codec, as functions on byte strings and as the methods
  that fill a header array and read from a stream. `Messages` holds the payload formats. `WireFormat` states every
  format byte by byte in the numbers of the protocol.
- **Queues and sessions.** `FrameQueues` has the bounded FIFO and the ring buffer that implements it. `SessionSystem`
  is a session as a step system: arbitrary producers, a writer that polls control before data, a heartbeat and one
  sequence counter, with one step per atomic operation. `SessionProperties`, `SequenceNumbers` and `WireDelivery`
  prove what every interleaving keeps; `Overtaking`, `SequenceOrder` and `QueueLimits` say exactly when frames
  overtake each other, numbers rise and queues exceed the limit; `SessionTurns` says what a turn of the writer does
  and how the loops end. `SessionEngine` is the session object on ring buffers; each of its methods refines one step.
- **UDP.** `Reassembly` and `UdpStack` fragment, reassemble, and compose both with the codecs.
- **Tokens.** `TokenStore` has the store's operations, whole runs of one process with failing disks, and the replay
  memory; `TokenProcesses` has any number of processes over one token file, with revocation; `TokenStoreObject` is
  the object with its loops over the token map; `Base64` supports the replay key.
- **Server.** `ServerHandler` is the frame handler with its relays and goroutines against an arbitrary peer;
  `ServerConversation` ties its state, its answers and its errors to the history of the session, `ServerForwarding` its
  data queue to what its goroutines read from targets;
  `ServerProcess` joins any number of such sessions with one token store; `ServerObject` is the object that refines
  the handler.
- **Client and tunnel.** `TunnelClient` is the client; `Tunnel` joins it with the server, each reading the other's
  wire. `TunnelClientInv`, `TunnelInvariant`, `TunnelSteps` and `TunnelServerReads` prove the joint invariant, and
  `TunnelTheorems` draws the end-to-end results. `TunnelRelays`, `TunnelLoss`, `TunnelCloses`, `TunnelHangups` and
  `TunnelOffers` follow a channel's bytes and say when they are lost, `TunnelReplies` says where the SOCKS reply stands
  among them, and `TunnelRuns` has three runs in full. `TunnelDials` ties what the server dials and validates to what
  the client asked for, `TunnelAnswers` what the client does to the frames it reads, and `TunnelUdp` and
  `TunnelDatagrams` follow datagrams. `ClientObject` is the object that refines the client.
- **Others.** `SocksAddress` has the SOCKS5 address parsers, `TimerTable` the timer table.

In a step system a run is a sequence of actions and a step that is not enabled leaves the state alone, so a statement
about every run covers every interleaving. Histories (frames accepted, frames written, numbers drawn, channels
counted) are part of the state. Outside answers are inputs of a step: the validator's verdict, dial errors, how many
bytes a stream or a target takes, clock readings, random ids and tokens.

Some statements one might expect are false of the code. Each has a run or an input that shows it and a theorem that
says exactly when it holds:

- Control frames do not always go first, although section 6.4 of the design document (SLPP_Design_Refined.md) gives
  them the highest priority: one data frame can overtake (`Overtaking.OvertakenExactly`, `OvertakingHappens`).
- A close overtakes the data of its own channel (`Overtaking.CloseOvertakesExactly`); the server then has no relay for
  the data, which ends the whole session (`TunnelLoss.RelayGoneExactly`, `TunnelCloses.CloseCutsExactly`,
  `TunnelRuns.CloseLosesData`).
- A target's close overtakes its data in the same way; the client has removed the local connection by then and ignores
  the data without an error (`TunnelHangups.LocalDropExactly`, `TunnelRuns.TargetCloseLosesData`).
- What a target receives is not always a prefix of what the local program sent, because a chunk that a full queue
  refuses leaves a gap (`TunnelOffers.GapExactly`).
- A revoked token is not refused by every process: a running server never reloads the token file, although the test
  procedure (TESTING.md) expects the next session to fail, and a process that loaded the file earlier writes the
  unrevoked record back (`TokenProcesses.RevocationReaches`, `RunningServerStillAccepts`, `LostUpdateRevives`).
- Sequence numbers on a wire do not always rise (`SequenceOrder.WireRisesExactly`, `NumbersFall`).
- The session's byte limit is a limit per queue (`QueueLimits.QueueTotals`, `SendableQueueTotals`).
- Data of a target can precede the SOCKS reply (`TunnelReplies.ReplyFollowsEarlyData`,
  `TunnelRuns.DataPrecedesReply`).
- A refused fragment may leave a table entry (`Reassembly.RefusalLeavesEntry`).
- Fragmentation is not reversible beyond 65535 fragments (`UdpStack.NoRoundTripBeyondLimit`).
- A nonce is accepted again shortly before its token expires (`TokenStore.AcceptedExactly`, `AcceptedTwice`).

## Model

| member | source | states |
|---|---|---|
| TunnelTheorems.TargetsReceivePrefix | cmd/slppc/main.go:352-374 | End-to-end TCP safety, client to target: in every reachable state of client and server together, the bytes a channel's target has received are a prefix of the payloads the client's data queue accepted for that channel, whatever fills up, fails, overtakes or ends |
| TunnelTheorems.LocalsReceivePrefix | internal/relay/tcp.go:69-86 | The same in the other direction: the channel data a local connection received is a prefix of what the server's data queue accepted for its channel, and the SOCKS reply written to the same connection stands somewhere inside it |
| TunnelLoss.TargetConservation | internal/core/session.go:96-164 | Nothing is lost while the server's handler has not failed: in every reachable state the accepted bytes of a channel are those its target has received, then the unread wire, then in flight or in the frame of a failed write, then queued |
| TunnelHangups.LocalConservation | internal/relay/tcp.go:69-86 | The same towards the client, for every stored TCP channel whose local connection was not removed, while the client's handler has not failed |
| TunnelHangups.LocalDropExactly | cmd/slppc/main.go:126-133 | In every reachable state, a TCPDATA frame the client handles for a channel of one of its TCP openers is ignored without an error if and only if the local connection was removed before, by a handled TCPCLOSE or after the client's own close |
| TunnelHangups.RemovedLocalIsFrozen | cmd/slppc/main.go:134-135 | Once a local connection was removed, it receives nothing more in any continuation |
| TunnelHangups.ClientReadsHangups | cmd/slppc/main.go:113-157 | Handling a frame keeps: a stored TCP connection is registered exactly until it is removed, and only opened channels are closed |
| TunnelCloses.CloseCutsExactly | cmd/slppc/main.go:352-367 | End to end, for every reachable state in which a close is accepted and every continuation in which the server has handled it: the target has for good exactly the channel's data among the frames the writer had popped before the close was accepted and the one it was then committed to; all data accepted behind that is lost |
| TunnelCloses.ReadCuts | internal/transport/server.go:106-111 | Handling a frame keeps: the target of a closed channel has exactly the data that stands before its close on the wire |
| TunnelOffers.TargetsReceiveOffered | cmd/slppc/main.go:357-362 | In every run, what a target has received is a prefix of the accepted part of what the local program sent, and of all of it if no chunk was refused before an accepted one |
| TunnelOffers.GapExactly | cmd/slppc/main.go:357-362 | That condition is exact: what was accepted is a prefix of what was sent, whatever the chunks contain, if and only if no chunk was refused before an accepted one |
| TunnelLoss.RelayGoneExactly | internal/relay/tcp.go:58-67 | In every reachable state, a TCPDATA frame of the client ends the session for want of a relay if and only if the close of its channel was handled before it or the relay was dropped when the target ended |
| TunnelReplies.ReplyFollowsEarlyData | cmd/slppc/main.go:283-291 | In every reachable state in which the local connection of a granted TCP channel is registered: its SOCKS reply was written, and all data of the channel that stands before its OPENOK on the server's wire was written to it before the reply |
| TunnelRuns.CloseLosesData | cmd/slppc/main.go:352-367 | A whole run: an honest client opens a channel, has two chunks accepted and closes; all three frames are written and read, the target has received nothing and the session has ended |
| TunnelRuns.TargetCloseLosesData | internal/relay/tcp.go:69-86 | A whole run: the target of an open channel has a byte accepted and ends; close and data are written and read, the local connection has received nothing and both sides carry on without an error |
| TunnelRuns.DataPrecedesReply | internal/relay/tcp.go:37-38 | A whole run in which a target speaks first and its byte is delivered before the SOCKS reply |
| TunnelRelays.ServerReadsRelays | internal/transport/server.go:96-111 | Handling a frame keeps: a dialed channel has its relay until its close was handled or its target ended, and data is sent for dialed channels only |
| TunnelRelays.ClientActsRelays | cmd/slppc/main.go:186-232 | Every client step keeps the same, because data is sent only after a granted TCP open |
| TunnelTheorems.ClosedTargetIsFrozen | internal/transport/server.go:106-111 | Once the close of a channel was handled, its target receives nothing more in any continuation |
| TunnelDials.DialsWhatWasAsked | cmd/slppc/main.go:195-198 | In every reachable state, every dial of the server, TCP or UDP, successful or not, was to the very address the opener of its channel asked for and over the network of its channel |
| TunnelDials.ValidatesTheClient | internal/transport/client.go:56-65 | In every reachable state, whatever the server has validated is the client's own token and nonce |
| TunnelUdp.LocalPacketsPrefix | cmd/slppc/main.go:137-152 | In every reachable state, the packets written to a local program are a prefix of the datagrams the server's data queue accepted for the channel, byte for byte, and all of those read until a UDPCLOSE was handled |
| TunnelDatagrams.TargetsGetDatagrams | internal/relay/udp.go:61-70 | In every reachable state in which the server's handler has not failed, the datagrams written to a UDP target are, whole and in order, among those the client's data queue accepted, and every datagram read was written or counted as late |
| TunnelUdp.RequestIsSingle | cmd/slppc/main.go:411-423 | A packet of a local program travels as one datagram with its data, its sending time and a deadline of one second |
| TunnelUdp.ReplyIsSingle | internal/relay/udp.go:72-88 | What a UDP target sends back, at most 1200 bytes, is a single fragment with its data and a deadline of one second |
| TunnelAnswers.ClientFailsExactly | cmd/slppc/main.go:113-157 | In every reachable state, the client's handler fails at the next frame if and only if that is an AUTHERR, a PING while 256 control frames are queued, TCP data a stored and unremoved connection takes only in part, or a datagram that cannot be delivered on a stored and unremoved route |
| TunnelAnswers.RejectedClientStops | cmd/slppc/main.go:117-118 | In every reachable state in which the client has handled an AUTHERR its handler has failed, and in every continuation it handles no further frame |
| TunnelAnswers.ClientAnswersPings | cmd/slppc/main.go:119-120 | In every reachable state, every PING the client has handled was answered by one PONG, but for one that a full queue refused, which ended the session |
| TunnelAnswers.AnswersReachOpeners | cmd/slppc/main.go:159-208 | In every reachable state, once an OPENOK or OPENERR of a channel was handled, its opener's result was sent or is about to be, is a grant or carries the reason accordingly, and an opener that still waits takes it |
| TunnelAnswers.FinishedOpensAreAnswered | cmd/slppc/main.go:283-291 | A TCP opener that was granted its channel goes on only by writing the SOCKS reply, and one that gave up, for whatever reason, still can |
| TunnelAnswers.OpenersMove | cmd/slppc/main.go:186-232 | What each step of an opener does to its stage and offers to the session: a refused queue, a late answer and a refusal make it give up, and only a granted opener sends data, datagrams or a close |
| TunnelTheorems.ChannelCountNeverNegative | internal/transport/server.go:96-135 | A session's contribution to the channel count is the number of channels counted and not released, and never negative, because each TCPCLOSE of this client follows a granted open |
| TunnelTheorems.HonestClientOpensWithAuth | cmd/slppc/main.go:634-641 | The first frame on every client wire is the AUTH frame queued before the loops started, so the server never takes its "auth required" branch for this client |
| TunnelTheorems.OpenRendezvous | cmd/slppc/main.go:159-232 | Until the 32-bit id counter has gone round: ids are unique over TCP and UDP, tcpConns and udpRoutes share no key, each result channel sees at most one send and one close, and the send never blocks |
| TunnelTheorems.HandledFramesAreDecoded | internal/core/session.go:76-94 | The frames each side has handled are a prefix of what decoding the other side's byte stream yields |
| TunnelTheorems.ReachedInv | internal/transport/server.go:77-141 | The joint invariant of client, server and both wires holds in every reachable state |
| TunnelServerReads.ServerReadsInv | internal/transport/server.go:77-141 | Handling a frame of the client's wire keeps the joint invariant |
| TunnelServerReads.ServerAnswersInv | internal/transport/server.go:101-105 | Counting and answering an open, as a later step than the dial that starts the copying goroutine, keeps the joint invariant |
| TunnelServerReads.MarkedOnce | cmd/slppc/main.go:186-232 | On the client's wire each channel is opened and closed at most once, and closed only if the server counted it |
| TunnelSteps.ClientReadsInv | cmd/slppc/main.go:113-157 | Handling a frame of the server's wire keeps the joint invariant |
| TunnelSteps.ServerActsInv | internal/relay/tcp.go:69-86 | The server's copying goroutines and session loops keep the joint invariant |
| TunnelInvariant.ClientActsInv | cmd/slppc/main.go:186-232 | Every step of the client's openers, copying goroutines and session loops keeps the joint invariant |
| TunnelInvariant.NothingBeforeOpen | cmd/slppc/main.go:186-201 | No data of a channel has been seen before its open was queued, so the connection is always registered first |
| TunnelClientInv.PerformClientInv | cmd/slppc/main.go:159-232 | Every client step keeps fresh ids, at most one open and one close per channel, and the rendezvous |
| TunnelClientInv.HandleClientInv | cmd/slppc/main.go:113-157 | Every frame from the server keeps the same |
| TunnelClientInv.IdsRepeatAfterWrap | cmd/slppc/main.go:109-111 | Two allocations share a channel id exactly when they are a multiple of 2^32 apart |
| TunnelFrames.SeenData | internal/core/session.go:96-119 | What a reader has seen of a channel's data is a prefix of what the sender's data queue accepted |
| TunnelFrames.SeenCount | internal/core/session.go:96-119 | A reader never sees more opens or closes of a channel than the control queue accepted |
| SessionProperties.MergeAndConservation | internal/core/session.go:96-164 | In every reachable state the wire is an order-preserving merge of a prefix of the accepted control frames and a prefix of the accepted data frames, accepted payload bytes equal bytesOut plus in flight plus queued, and the queues together hold at most twice the session limit |
| QueueLimits.QueueTotals | internal/core/session.go:53-54 | Two byte totals of the queues are reachable if and only if each is within the session limit, so together they can reach twice the limit |
| QueueLimits.SendableQueueTotals | internal/core/queue.go:21-33 | With frames that can be encoded, exactly the control totals up to half the limit are reachable, because of the 256 slots, so together one and a half times the limit |
| SessionProperties.BoundedOvertaking | internal/core/session.go:96-119 | From any state in which a control frame is queued until it is popped, at most one data frame reaches the wire, in every interleaving |
| Overtaking.OvertakenExactly | internal/core/session.go:96-119 | From every reachable state: some interleaving writes a data frame while the first control frame stays queued if and only if the writer has already found control empty or already holds a data frame, and that frame can be encoded |
| Overtaking.OvertakingHappens | internal/core/session.go:105-116 | The state is reached: a control frame queued right after the writer found control empty can be overtaken |
| Overtaking.CloseOvertakesExactly | internal/core/session.go:105-116 | For every reachable state, every frame its control queue accepts and every further run: of the data queued before it, exactly the frame the writer was committed to is written first; so the data of a channel all goes before its close if and only if none of it lay behind that frame |
| SessionProperties.AtMostOneFrameAfterClose | internal/core/session.go:96-104 | After the session is closed at most one more frame is written, none if the write loop was at its top |
| SessionTurns.ClosingStopsWriter | internal/core/session.go:96-104 | In every run after Close the session stays closed and at most one more frame is written |
| SessionTurns.CancellingStopsWriter | internal/core/session.go:98-104 | A writer that looks at a cancelled context or a closed session writes nothing more in any run |
| SessionTurns.ControlTurn | internal/core/session.go:105-110 | A turn that finds a control frame writes the oldest one and touches nothing else |
| SessionTurns.DataTurn | internal/core/session.go:111-116 | A turn that finds only data writes the oldest data frame and touches nothing else |
| SessionTurns.HeartbeatEnds | internal/core/session.go:121-137 | A heartbeat that was stopped, or whose PING a full queue refused, draws no number in any later run |
| SessionTurns.NumberedAreHeartbeats | internal/core/session.go:131-134 | In every run, a control frame with a number is an empty PING with the session's id |
| SessionTurns.AcceptsExactly | internal/core/queue.go:21-33 | In every reachable state the control queue takes a frame exactly below 256 frames and within 8388608 bytes, the data queue with 1024 frames; a frame taken comes last, a refused one changes nothing |
| SessionProperties.QueuedFirstIsSentFirst | internal/core/session.go:96-119 | A frame queued before the loops start is the first frame of the wire in every run |
| SessionProperties.WireCarriesSessionID | internal/core/session.go:139-148 | Written frames differ from queued ones only in a session id filled in when it was zero and in a number drawn when it needed one |
| SessionSystem.RunInv | internal/core/session.go:96-164 | The merge, the counters, the queue bounds and the wire form of frames hold after every sequence of steps |
| SequenceNumbers.SequenceNumbersDistinctAndRising | internal/core/session.go:121-152 | With at most 2^32 numbers drawn, nonzero numbers on the wire are pairwise distinct, rise over frames other than PING and PONG and rise over PINGs; before the wrap every such frame has one |
| SequenceOrder.WireRisesExactly | internal/core/session.go:121-152 | With at most 2^32 numbers drawn, in every interleaving and whether or not a write fails: the nonzero numbers of the whole wire rise if and only if no frame was given a number between the draw of the number of a PING on the wire and the pop of that PING |
| SequenceOrder.NumbersFall | internal/core/session.go:130-145 | A run of twelve steps that writes number 2 and then number 1 |
| SequenceNumbers.DrawnNumbersAreUsed | internal/core/session.go:121-152 | Every drawn number is on an accepted or written frame or still held, except at most one lost by a failing heartbeat and one by a failing writer |
| WireDelivery.PeerSeesWrittenFrames | internal/core/session.go:83-90 | Whatever part of a session's byte stream arrives, including one cut off inside a frame by a failed write, the peer decodes a prefix of the frames written, and all of them if everything arrives |
| WireDelivery.WriteAddsEncoding | internal/core/session.go:146-151 | One write adds the frame's encoding to the stream, or as much of it as fits |
| SessionEngine.Engine.constructor | internal/core/session.go:41-59 | A new session is the initial state of the step system |
| SessionEngine.Engine.QueueControl | internal/core/session.go:154-158 | Refines the control push, reporting exactly whether it was accepted |
| SessionEngine.Engine.QueueData | internal/core/session.go:160-164 | Refines the data push |
| SessionEngine.Engine.BuildPing | internal/core/session.go:130-131 | Refines drawing a number and building the PING |
| SessionEngine.Engine.QueuePing | internal/core/session.go:132-134 | Refines queuing the PING; a full queue stops the heartbeat |
| SessionEngine.Engine.CheckClosed | internal/core/session.go:98-104 | Refines the look at context and closed channel |
| SessionEngine.Engine.PopControl | internal/core/session.go:105 | Refines the control poll |
| SessionEngine.Engine.PopData | internal/core/session.go:111 | Refines the data poll |
| SessionEngine.Engine.StampPopped | internal/core/session.go:139-145 | Refines filling in session id and number |
| SessionEngine.Engine.WriteStamped | internal/core/session.go:146-151 | Refines encoding onto the stream and counting; the stream holds exactly the encodings of the written frames and a torn tail after a failure |
| SessionEngine.Engine.CloseSession | internal/core/session.go:166-173 | Refines closing; the error of the first call is the one kept |
| FrameQueues.FrameQueue.constructor | internal/core/queue.go:14-19 | An empty queue of any capacity and byte limit |
| FrameQueues.FrameQueue.Push | internal/core/queue.go:21-33 | On the ring, across wraparound: accepts exactly when both limits allow, then appends; a refused push changes nothing; unused slots stay zeroed |
| FrameQueues.FrameQueue.Pop | internal/core/queue.go:35-47 | Removes the oldest frame, zeroes its slot and keeps the byte total |
| FrameQueues.FrameQueue.Len | internal/core/queue.go:49-53 | The number of queued frames |
| FrameQueues.FrameQueue.QueuedBytes | internal/core/queue.go:55-59 | The payload bytes of the queued frames, within the limit |
| FrameQueues.QueueRunIsFifo | internal/core/queue.go:21-47 | Over every run of pushes and pops: accepted frames are those handed out, in order, followed by the contents, and the limits hold |
| FrameCodec.DecodeEncoding | internal/core/frame.go:27-97 | Decoding an encoding followed by anything gives the frame with defaults filled in and takes exactly its bytes; it fails exactly when the header length was set between 1 and 19 |
| FrameCodec.EncodeDecoded | internal/core/frame.go:62-97 | Re-encoding a decoded frame gives exactly the consumed bytes |
| FrameCodec.StrictPrefixFails | internal/core/frame.go:62-97 | No strict prefix of an encoding decodes |
| FrameCodec.PrefixFree | internal/core/frame.go:27-60 | No encoding is a proper prefix of another, and equal encodings mean frames equal up to defaults |
| FrameCodec.DecodeStream | internal/core/frame.go:62-97 | A concatenation of encodings, followed by a torn frame, decodes to exactly the frames written whole, in order |
| FrameCodec.DecodeCutStream | internal/core/frame.go:62-97 | A stream cut anywhere decodes to exactly the frames whose bytes have all arrived |
| FrameCodec.ReencodeStream | internal/core/frame.go:62-97 | Any byte stream is the encoding of what is decoded from it, followed by an undecodable rest |
| WireFormat.FrameBytes | internal/core/frame.go:27-60 | Which frames the encoder refuses, with which error, and the position and value of every byte of the others |
| WireFormat.FrameReading | internal/core/frame.go:62-97 | For every byte stream, how reading a frame ends: the errors in their order and the bytes each takes |
| WireFormat.FrameCodes | internal/core/constants.go:17-34 | The codes of the sixteen frame types |
| FrameCodec.Encode | internal/core/frame.go:27-60 | Fills the header in place and writes header and payload: the stream gets the encoding, or as much of it as it takes, and nothing if the frame is refused |
| FrameCodec.DecodeFrom | internal/core/frame.go:62-97 | Reads header and payload from the stream: the result and the bytes consumed are those of Decode, errors included |
| WireFormat.AuthBytes | internal/core/messages.go:16-36 | The AUTH payload byte by byte, and when it does not parse |
| WireFormat.AddressBytes | internal/core/messages.go:42-58 | The open request byte by byte, and when it does not parse |
| WireFormat.DatagramBytes | internal/core/messages.go:70-95 | The datagram byte by byte |
| Messages.AuthRoundTrip | internal/core/messages.go:16-36 | The AUTH payload round-trips exactly when the token is shorter than 65536 bytes |
| Messages.AddressRoundTrip | internal/core/messages.go:42-58 | An address round-trips exactly when it is shorter than 65536 bytes |
| Messages.DatagramRoundTrip | internal/core/messages.go:70-95 | Decoding an encoded datagram gives the datagram |
| Messages.DatagramReencode | internal/core/messages.go:82-95 | Encoding a decoded datagram gives the bytes |
| Reassembly.FragmentUDP | internal/core/messages.go:138-164 | The loop produces exactly the fragments: consecutive chunks with index, count and length narrowed to sixteen bits |
| Reassembly.Reassembler.constructor | internal/core/messages.go:102-107 | An empty table |
| Reassembly.Reassembler.AddFragment | internal/core/messages.go:109-136 | The loops and map updates compute the table step, including empty fragments that clear their slot |
| Reassembly.AddKeepsTable | internal/core/messages.go:109-136 | For arbitrary datagrams the two maps share their keys and each entry has the expected number of slots |
| Reassembly.AddLeavesOthers | internal/core/messages.go:109-136 | Only the entry of the datagram's own id can change |
| Reassembly.AddExactly | internal/core/messages.go:109-136 | What one Add does for any table and any datagram, genuine or not: which are refused, what a single fragment, an empty one and a repeated one do, and exactly when an entry completes |
| Reassembly.RefusalLeavesEntry | internal/core/messages.go:116-122 | A refused datagram changes the table exactly when it is the first of its id and its index is out of range |
| Reassembly.AddRefinesArrive | internal/core/messages.go:109-136 | Adding a genuine fragment completes its id exactly when its set of arrived indices becomes full, returns the data, and otherwise only records the index |
| UdpStack.InterleavedReassembly | internal/core/messages.go:97-136 | For any interleaving and duplication of fragments of any number of ids, before and after completion, table and results are those of that meaning |
| UdpStack.FullStackRoundTrip | internal/core/messages.go:70-164 | Up to 65535 * 16368 bytes: fragmented, encoded as datagrams and frames, concatenated in any order with repetitions, decoded and reassembled, the data comes out at the last missing fragment and not before; every fragment fits a frame |
| UdpStack.FragmentsCarry | internal/core/messages.go:138-164 | What the receiver finds in every datagram after codecs and stream: id, no sending time, deadline, index, count and length modulo 2^16, and exactly the 16368-byte piece of its index |
| UdpStack.NoRoundTripBeyondLimit | internal/core/messages.go:146-161 | Beyond that size no sequence of the fragments ever yields the data, so the limit is exact |
| UdpStack.EmptyDataRoundTrip | internal/core/messages.go:139-141 | Empty data travels as one datagram with all other fields zero but its id and count, which completes at once |
| TokenStore.ReplayBound | internal/auth/token.go:60-84 | If one process accepts the same token and nonce twice, the second acceptance is no earlier than the first one's expiry less the gap between its two clock readings, saturation of durations included |
| TokenStore.AcceptedExactly | internal/auth/token.go:60-84 | Over every run of a process: a validation accepts if and only if the record found is neither revoked nor expired and the pair was not accepted before, or was last accepted with a horizon (first reading plus remaining life at the second) that has passed; and exactly when each of the three refusals occurs |
| TokenStore.AcceptedTwice | internal/auth/token.go:78-82 | An input: a nonce accepted once is accepted again at any moment from the expiry less the gap of the first two clock readings to the expiry |
| TokenStore.ReplayKeyInjective | internal/auth/token.go:78 | The replay key determines token and nonce, because twelve bytes always encode to sixteen characters |
| Base64.EncodeInjective | internal/auth/token.go:78 | Unpadded base64 is injective on byte strings of one length that is a multiple of three |
| Base64.EncodeDecodes | internal/auth/token.go:78 | The encoding can be read back in the standard alphabet |
| TokenProcesses.RevocationReaches | internal/auth/token.go:86-141 | How far a successful Revoke reaches, over every run of any number of processes sharing the token file: a process accepts the token afterwards if and only if it has an old copy by the order of loads and writes (it held the record at the revocation and has not loaded the file since, or last loaded a file last written by such a process), the record has not expired and the nonce is not remembered |
| TokenProcesses.RevocationPersists | internal/auth/token.go:86-141 | If no process that held the record at the revocation writes the file before loading it again, every process that was not such a holder, or has loaded the file since, refuses the token in every run of validations, revocations, new tokens, failed writes and restarts |
| TokenProcesses.OldWriteUndone | internal/auth/token.go:128-141 | That condition is enough but not necessary: an old list that was written back does no harm once a process with a newer copy has written after it |
| TokenProcesses.RunningServerStillAccepts | cmd/slppd/main.go:186 | A server that loaded the file before the revocation accepts the token until it expires |
| TokenProcesses.LostUpdateRevives | cmd/slppd/main.go:224-245 | A process that loaded the file before the revocation and issues a token after it brings the revoked one back for servers started later |
| TokenProcesses.RunIssuedOnce | internal/auth/token.go:98-116 | With ids and tokens that do not repeat, a record stays the only one with its id and token in every process and in the file |
| TokenProcesses.OpenAfterGenerate | internal/auth/token.go:98-141 | In every run of any number of processes, one that loads the file right after a Generate that was written has exactly the generating process's tokens |
| TokenProcesses.Bootstrap | internal/auth/token.go:34-58 | The first token: a process started on a missing file is up with no tokens, and after one written Generate a process started on that file accepts the token, with any nonce, exactly until its expiry |
| TokenStore.OpensExactly | internal/auth/token.go:34-58 | A store fails to open exactly when the file at its path cannot be read or does not parse; a missing file makes an empty store |
| TokenStore.LastRecordWins | internal/auth/token.go:54-56 | Of several records with one id in the file the last counts, and no other gets in |
| TokenStore.ReloadRebuilds | internal/auth/token.go:34-58 | Loading the flushed list, in whatever order it was written, rebuilds the token map |
| TokenStoreObject.LiveStore.FindToken | internal/auth/token.go:64-71 | The scan finds a record of the token if and only if there is one |
| TokenStoreObject.LiveStore.Validate | internal/auth/token.go:60-84 | Refines the validation step, with both clock readings as inputs |
| TokenStoreObject.LiveStore.Revoke | internal/auth/token.go:86-96 | Refines the revocation step and reports success exactly when the record exists and the flush succeeds |
| TokenStoreObject.LiveStore.Generate | internal/auth/token.go:98-116 | Refines the addition of a record |
| TokenStoreObject.LiveStore.ListRecords | internal/auth/token.go:118-126 | Lists every record exactly once |
| TokenStoreObject.LiveStore.FlushLocked | internal/auth/token.go:128-141 | Writes that list, or fails in one of the ways a write can fail |
| TokenStore.FlushExactly | internal/auth/token.go:128-141 | What a flush leaves in the file and what it reports, for each way the write can go |
| TokenStoreObject.NewStore | internal/auth/token.go:34-58 | Opens a store, or none when the file cannot be read or does not parse |
| ServerHandler.AuthenticationGate | internal/transport/server.go:77-141 | In every run, whatever a peer sends: every dial, relay write, relay close and channel-count change comes after an AUTH frame the validator accepted in this session; before that no relay exists and the count is zero; authOK never reverts and no frame is handled after the first handler error |
| ServerProcess.EffectsAreBacked | internal/transport/server.go:82-94 | Over any number of sessions sharing one store: each such effect follows an accepted AUTH frame of its own session, at whose place in the session the store accepted its token and nonce on a record that was neither revoked nor expired |
| ServerProcess.NonceServesOnce | internal/auth/token.go:78-82 | With a clock that does not run backwards, a token and nonce accepted twice, in whatever sessions of the process, are accepted again no earlier than the first record's expiry less the gap between its two clock readings |
| ServerProcess.VerdictIsTheStores | internal/transport/server.go:82-93 | A ready session accepts an AUTH exactly when the store does, and otherwise stops and answers with the store's reason |
| ServerConversation.HistoryTellsState | internal/transport/server.go:77-141 | In every run, whatever a peer sends, the frames taken and relays dropped so far determine authentication, open relays, the bytes and datagrams every target was sent, the channel count and the failure counts |
| ServerConversation.RequestsAnsweredInOrder | internal/transport/server.go:77-141 | In every run the answers queued are, in order, those the requests call for (AUTHOK or AUTHERR with the reason, PONG, OPENOK or OPENERR with the reason), all of them while the handler is ready, all but the last in any case, and nothing else is answered |
| ServerConversation.StopsExactly | internal/transport/server.go:77-141 | Over every run and for every next frame, exactly when each of the handler's seven errors occurs; otherwise the session goes on |
| ServerConversation.AnswerStopsExactly | internal/transport/server.go:104-105 | Answering a granted open fails exactly when the control queue refuses the OPENOK |
| ServerForwarding.TargetsAreForwarded | internal/relay/tcp.go:69-86 | In every run, the data queue has accepted exactly what the goroutines read from TCP and UDP targets and it did not refuse, unchanged and in order; the control queue exactly the closes of targets that ended; and one goroutine reads per granted open until its target ends |
| ServerHandler.ElapsedIsAge | internal/transport/server.go:143-148 | The wrapping subtraction is the true age of a datagram whenever that is below 2^32 milliseconds |
| ServerHandler.DeadlineHonoured | internal/transport/server.go:122-131 | What a datagram does, by its true age: a late one is counted and dropped, one in time without an association ends the session, any other is written, and the session goes on exactly if the target takes it whole; nothing is answered |
| ServerObject.TcpRelay.Write | internal/relay/tcp.go:58-67 | Appends to the connection's log, or reports a missing channel or a short write |
| ServerObject.ServerSession.HandleFrame | internal/transport/server.go:77-141 | Refines the handler, branch by branch |
| ServerObject.ServerSession.AnswerOpen | internal/transport/server.go:104-105 | Refines the second half of an open |
| ServerObject.ServerSession.ForwardTargetData | internal/relay/tcp.go:72-79 | Refines forwarding what a target sent |
| ServerObject.ServerSession.ReportTargetEnd | internal/relay/tcp.go:80-81 | Refines reporting a target's end |
| ClientObject.ClientSession.constructor | cmd/slppc/main.go:631-641 | A client with AUTH queued before its loops start |
| ClientObject.ClientSession.SendOpen | cmd/slppc/main.go:195-201 | Refines queuing the open frame |
| ClientObject.ClientSession.ForwardLocalData | cmd/slppc/main.go:355-362 | Refines forwarding a chunk, ignoring a full queue |
| ClientObject.ClientSession.ReportLocalEnd | cmd/slppc/main.go:363-364 | Refines offering TCPCLOSE to the control queue |
| ClientObject.ClientSession.HandleFrame | cmd/slppc/main.go:113-157 | Refines the client's frame handler |
| WireFormat.SocksReading | cmd/slppc/main.go:428-461 | For every packet, which address is read or which error is given, byte by byte |
| WireFormat.SocksWriting | cmd/slppc/main.go:471-501 | The packet to a local program byte by byte, refused exactly for a name over 255 bytes |
| WireFormat.SocksRequest | cmd/slppc/main.go:381-400 | What a packet from a local program asks for and sends, and which are skipped |
| SocksAddress.ReadStream | cmd/slppc/main.go:314-350 | Reading an address from a stream succeeds exactly when the packet parser accepts type byte and stream, with the same address; the raw bytes are exactly what was consumed |
| SocksAddress.ReadPacketLocal | cmd/slppc/main.go:428-461 | The packet parser depends on nothing behind the address |
| SocksAddress.EncodeSocksUDPDatagram | cmd/slppc/main.go:471-501 | Builds the packet by appending, or refuses a name over 255 bytes |
| SocksAddress.UdpHeaderRoundTrip | cmd/slppc/main.go:428-501 | A written header parses with the payload right behind it, and to the same target exactly when the host is neither an IPv4-mapped IPv6 address nor a name that spells an IP address |
| SocksAddress.UdpRequestReadsReply | cmd/slppc/main.go:381-400 | A packet written for a target is read back as target and payload cut at 1200 bytes; packets under ten bytes are skipped |
| TimerTable.TimerWheel.Schedule | internal/core/timerwheel.go:29-33 | The table goes on mirroring the run of operations, and the new instance is the only one alive under its key |
| TimerTable.TimerWheel.Cancel | internal/core/timerwheel.go:35-39 | The table goes on mirroring the run of operations, and no instance is alive under the key, so none scheduled before can fire |
| TimerTable.TimerWheel.FireExpired | internal/core/timerwheel.go:58-72 | The callbacks collected are those of exactly the instances that fire at this sweep of the run, each once |
| TimerTable.FiresExactlyWhenDue | internal/core/timerwheel.go:29-72 | Over every run, an instance fires at a sweep exactly when the sweep is no earlier than its deadline and nothing in between replaced, cancelled or collected it |
| TimerTable.FiresAtMostOnce | internal/core/timerwheel.go:58-72 | No instance fires twice |

## Left out

- TLS, HTTP/2, pipes, dialing, listening and flushing: the transport is a reliable ordered byte sequence per direction.
- Command-line parsing, JSON output, the control socket, browser profiles, benchmarks and deployment files: plumbing without a property of its own.
- The reassembler and the expiry time that internal/relay/udp.go keeps: it never uses them.
- Text forms of addresses: hosts are structured values, and whether a name spells an IP address is a parameter.
- Liveness and real time: sleeps, tickers and the ten-second timeout are steps that may happen at any moment.
- The gauge sessionQueueBytes and the other counters of internal/core/stats.go: one-line members, and the gauge reads the two queues separately. Counters are unbounded here, 64-bit in the program.
- A Go nil payload and an empty one are the same byte string here, except in the reassembler, where the difference matters and is modelled.
- SOCKS5 greeting and command dispatch, and the per-association channel table of the UDP loop: they would only add easy members.
- Features of the design document that the code does not have (round-robin scheduling, per-channel limits, idle timeout, reconnection).
- TokenStore.ReplayBound: speaks of one process, because the replay memory is not written to the token file and a restart forgets it.
- Atomicity of the token file: a write of the whole list is one step, so two processes never write at the same moment.
- SocksAddress.EncodeSocksUDPDatagram: takes a structured target, so a target text that does not split into host and port, or names an unknown port, is not modelled.
- ClientObject.ClientSession.HandleFrame: of the SOCKS packet for a UDPDATA frame the payload is recorded; its header is SocksAddress.EncodeSocksUDPDatagram on its own, a failure to build it is one with a failed write, and all errors are one flag.
- TunnelTheorems.TargetsReceivePrefix: holds until the 32-bit channel counter has gone round once, because then ids repeat (TunnelClientInv.IdsRepeatAfterWrap).
- Goroutine scheduling of the classes SessionEngine.Engine, ServerObject.ServerSession and ClientObject.ClientSession: their methods are the atomic operations, of which the table lists those that handle frames or touch a queue; which goroutine is at which point is a field, and loops over operations are runs of the step systems.
