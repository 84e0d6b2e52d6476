# goet reconnect protocol: a verified model

goet is a reconnectable terminal. A session process owns a PTY, a client owns the user's terminal, and the two
exchange numbered Data messages over connections that can die at any moment. The receiver never compares sequence
numbers: it writes out whatever Data it reads and then sets `recvSeq` to that number. In-order, at-most-once
delivery therefore rests on the sender, the catchup buffers, the order of steps in the handshake and the rule that
discards events tagged with an old connection. This project models those parts and proves what every run keeps.

`dafny verify dfyconfig.toml` checks the whole project.

## How it is put together

| file | models |
|---|---|
| `Bytes.dfy` | bytes and big-endian integers |
| `Messages.dfy` | the framed wire format, its encoder, decoder and two-part writes |
| `Catchup.dfy` | `ReplayLog`: what a catchup buffer holds as a function of its history; `Catchup`: the circular array |
| `Coalesce.dfy` | the write coalescer and its deadline timer on a logical clock |
| `Escape.dfy` | the `~.` escape machine and its declarative meaning |
| `TcpMux.dfy` | locked writers, serial reads and the demultiplexer of the TCP transport |
| `Handshake.dfy` | both sides of the connect handshake as a product, over two streams or one |
| `WireFormat.dfy` | the wire format in plain bytes, and exactly what is accepted |
| `Packets.dfy` | Data messages on numbered connections |
| `Session.dfy`, `Client.dfy` | the event handlers and loops, as functions on a state and as methods on an object |
| `Lifecycle.dfy` | `SessionLife`, `ClientLife`: when a side ends, loses its connection, sends and acknowledges, in terms of inputs and fields alone |
| `Lane.dfy` | one direction of delivery over any number of connections, proved once |
| `Reconnect.dfy` | one session, one client, strangers and the network, stepped in any order |
| `ReconnectSafety.dfy` | the invariant of every run; each step is an act of the downstream and the upstream lane |
| `SessionRuns.dfy`, `ClientRuns.dfy` | every run of the protocol is, for each side, a run of its loop over a list of inputs |
| `Refinement.dfy`, `HandshakeRuns.dfy` | the other direction: handlers and loops run on what they are handed are runs of the protocol; a reconnect that goes through |
| `Delivery.dfy` | the delivery guarantees for every run from the initial state |
| `Retention.dfy` | what the configured replay sizes guarantee over every run |
| `Arrival.dfy` | `MuxArrival`, `Arrival`: everything sent can be delivered |
| `TcpRetry.dfy` | runs over one ordered stream: when a reconnect can go through and when it never will |
| `Witnesses.dfy` | concrete runs with a gap and with a starved session |
| `Timeout.dfy` | the client's receive timeout |

What the network, the PTY and the terminal answer (a write succeeds or not, a message arrives or the read fails)
is a parameter of each step, so the theorems cover every answer. A write that fails after its bytes got through is
the successful write followed by the step that closes the connection. Bytes count as produced when the session's
loop takes them from the PTY channel. Chunks read from the PTY or stdin hold at most 32 KB, as the read buffers do.

Where the code and the documentation differ, the model follows the code: the default catchup size is 4 KB, not
64 MB (internal/catchup/buffer.go:5), and the client resends its replay before TerminalInfo
(internal/client/client.go:155-166), the reverse of docs/architecture.md:126-130. Two promises turn out false and
are settled exactly: a TERM of 65534 or 65535 bytes is encoded but cannot be decoded (`Protocol.RoundTrip`), and
over TCP a reconnect can go through if and only if the client has nothing to resend (`Handshake.HandshakeOutcome`,
`TcpRetry.TcpReconnectStarves`, `TcpRetry.TcpReconnectSucceeds`, `Witnesses.StarvationHappens`).

## Model

| member | source | states |
|---|---|---|
| Protocol.RoundTrip | internal/protocol/messages.go:57-239 | every message the encoder accepts decodes to itself if and only if it is not a TerminalInfo longer than 65533 bytes; those longer ones make the decoder's uint16 slice bound wrap and panic |
| Protocol.LongTermPanics | internal/protocol/messages.go:217-225 | a concrete accepted message that the decoder panics on |
| Protocol.ReencodeAccepted | internal/protocol/messages.go:173-239 | any accepted payload, trailing bytes or not, re-encodes to a prefix of itself of the same type that decodes to the same message |
| Protocol.ParseWhole | internal/protocol/messages.go:149-170 | a frame followed by anything yields its message and leaves exactly what follows |
| Protocol.ParseCut | internal/protocol/messages.go:149-170 | a frame cut at any byte yields no message, and which end-of-stream error |
| Protocol.WholeFramesExact | internal/protocol/messages.go:149-170 | n frames fit before a cut while one more does not if and only if n is the number of whole frames |
| Protocol.StreamDecode | internal/protocol/messages.go:57-170 | reading repeatedly from the encoding of any list cut at any byte returns exactly the whole frames and then an end-of-stream error; uncut, the whole list and a clean end |
| Protocol.WriteMessage | internal/protocol/messages.go:57-119 | two writes to a stream that may fail put a prefix of the frame on it, all of it exactly on success, and nothing for a message over the limits |
| Protocol.WriteDataMessage | internal/protocol/messages.go:123-144 | the same for Data, whose sequence number travels in the first write |
| Protocol.ReadMessage | internal/protocol/messages.go:149-170 | the buffered reads implement the frame parser and leave the stream after the frame |
| WireFormat.PutUintAt | internal/protocol/messages.go:57-144 | byte k of a fixed-width integer is its digit of weight 256^(width-1-k): most significant first |
| WireFormat.FrameBytes | internal/protocol/messages.go:57-144 | the literal bytes of every message: four bytes of payload length, the type byte, then each field at its place |
| WireFormat.AcceptedExactly | internal/protocol/messages.go:173-239 | exactly which types and payloads the decoder accepts, trailing bytes included |
| WireFormat.RejectedHow | internal/protocol/messages.go:173-239 | which error every other payload gets |
| WireFormat.OversizeRefused | internal/protocol/messages.go:149-170 | a declared length above 4194304 is refused before anything more is read; below it, exactly that many bytes are the payload |
| ReplayLog.StoredIsLongest | internal/catchup/buffer.go:46-85 | one Store turns the longest fitting suffix of a history into that of the extended history |
| ReplayLog.ContentsIsLongestSuffix | internal/catchup/buffer.go:46-85 | after any history the buffer holds exactly the longest suffix that fits both limits, or the newest entry alone when it is too large by itself |
| ReplayLog.KeepsWhatFits | internal/catchup/buffer.go:31-85 | the buffer still holds a history from any position on if and only if that part fits the configured size by itself |
| ReplayLog.SinceExact | internal/catchup/buffer.go:89-112 | a replay holds exactly the retained entries above the given number |
| ReplayLog.LargerBufferReplaysMore | internal/catchup/buffer.go:31-112 | a larger buffer with the same history retains at least as much and every replay it gives ends with the smaller one's |
| Catchup.RingEvict | internal/catchup/buffer.go:80-85 | clearing the oldest slot removes the head of the queue, its size, and leaves every dead slot cleared |
| Catchup.RingAppend | internal/catchup/buffer.go:64-67 | writing at head appends to the queue, modulo the capacity |
| Catchup.Buffer.constructor | internal/catchup/buffer.go:31-42 | an empty valid ring whose byte limit and slot count are those of the configured size in plain numbers |
| Catchup.Buffer.Tail | internal/catchup/buffer.go:71-73 | the slot of the oldest entry |
| Catchup.Buffer.Newest | internal/catchup/buffer.go:76-78 | the slot of the newest entry |
| Catchup.Buffer.EvictOldest | internal/catchup/buffer.go:80-85 | drops the head of the queue and keeps the ring valid |
| Catchup.Buffer.Store | internal/catchup/buffer.go:46-68 | the circular array after Store is the queue after greedy eviction plus the new entry |
| Catchup.Buffer.Append | internal/catchup/buffer.go:64-67 | the final write of Store appends to the queue |
| Catchup.Buffer.ReplaySince | internal/catchup/buffer.go:89-112 | exactly the in-order filter of the queue above the given number |
| Catchup.Buffer.OldestSeq | internal/catchup/buffer.go:121-129 | the number at the head of the queue, 0 if empty |
| Catchup.Buffer.NewestSeq | internal/catchup/buffer.go:132-140 | the number at the end of the queue, 0 if empty |
| Coalesce.Coalescer.constructor | internal/coalesce/coalesce.go:33-43 | whether or not the zero-length timer has fired before it is stopped, the coalescer starts empty, disarmed and with nothing left in the timer channel |
| Coalesce.Coalescer.Add | internal/coalesce/coalesce.go:50-63 | appends, arms the timer only for the first bytes of a batch, reports the threshold, and keeps "bytes pending exactly when a wakeup is due" |
| Coalesce.Coalescer.Flush | internal/coalesce/coalesce.go:68-91 | returns the whole batch, leaves no armed timer and no stale wakeup, and keeps "bytes pending exactly when a wakeup is due" |
| Coalesce.Coalescer.TimerChannel | internal/coalesce/coalesce.go:102-107 | in every state that New, Add and Flush lead to, there is a channel exactly while bytes are pending, and its timer has not been stopped |
| Coalesce.Coalescer.Stop | internal/coalesce/coalesce.go:110-113 | keeps the bytes; afterwards neither can the clock fire the timer nor the select loop take a wakeup |
| Coalesce.DeadlineInvariant | internal/coalesce/coalesce.go:33-107 | over every run the pending bytes are the adds since the last flush, the timer is armed exactly when there are any, and its deadline is the first of them plus 2 ms |
| Escape.Processor.ProcessByte | internal/client/escape.go:39-86 | one turn of the switch is one step of the machine and stays inside the buffer |
| Escape.Processor.Process | internal/client/escape.go:36-89 | the filtered bytes, the next state and the verdict for a chunk, with at most one byte more than the input |
| Escape.MachineMeaning | internal/client/escape.go:36-89 | against a definition in plain bytes (126, 46, 13, 10): it disconnects exactly when some line starts with `~.`; otherwise it emits the input without the first of each line-initial `~~` and without a trailing line-initial `~`, and its state depends on the last two bytes |
| Escape.DisconnectsExactly | internal/client/escape.go:36-89 | the verdict spelled out: byte 46 after byte 126, at the start or after byte 10 or 13 |
| Escape.DropsExactly | internal/client/escape.go:36-89 | which positions of the input are not sent, in plain bytes |
| Escape.ChunkingIgnored | internal/client/escape.go:36-89 | any split of the input gives the same result |
| Escape.OutputFrames | internal/client/escape.go:36-89 | what a chunk emits does not depend on what was emitted before |
| Escape.OutputBound | internal/client/escape.go:36-89 | output plus a held `~` never exceeds input plus a `~` held before |
| Escape.EveryTextTypeable | internal/client/escape.go:36-89 | every byte string is the output of some input with nothing held back |
| TcpMux.WholeFramesOnWire | internal/transport/tcp.go:74-85 | for every interleaving of writers the wire is whole frames in lock order plus at most a prefix of the lock holder's |
| TcpMux.TwoFifoStreams | internal/transport/tcp.go:48-150 | each channel delivers an order-preserving prefix of its class of everything after the serial reads |
| TcpMux.NothingLost | internal/transport/tcp.go:100-150 | when all bytes are in and nothing more can be read, each channel got exactly its class, none lost in the switch to demultiplexing |
| MuxArrival.EverythingArrives | internal/transport/tcp.go:48-150 | for any sendable messages and any number of serial reads there is a run that hands out all of them, each once and on its channel |
| Handshake.StepKeeps | internal/client/client.go:155-175 | every failure-free handshake step keeps the product invariant and uses up one of finitely many steps |
| Handshake.HandshakeOutcome | internal/session/session.go:366-431 | every interleaving ends with the client in its loop and the session running if and only if there are two streams or the client has nothing to resend; otherwise the session has closed the connection |
| Handshake.HandshakeCarries | internal/session/session.go:366-431 | over two streams a finished handshake has put exactly both replay lists on the data streams, in order, and left the control streams empty |
| SessionModel.ReplayAllExact | internal/session/session.go:408-418 | the replay loop writes the entries in order up to the first failure, and the connection survives exactly without one |
| SessionObject.Session.constructor | internal/session/session.go:73-84 | empty, disconnected, PTY not spawned |
| SessionObject.Session.StoreNext | internal/session/session.go:454-455 | the next number, kept for replay |
| SessionObject.Session.TakePending | internal/session/session.go:450-453 | empties the coalescer and nothing else |
| SessionObject.Session.FlushCoalesced | internal/session/session.go:449-465 | numbers, stores and sends the coalesced bytes as the step function of the protocol says |
| SessionObject.Session.TakePtyChunk | internal/session/session.go:141-150 | adds a chunk and flushes at the threshold |
| SessionObject.Session.HandleStreamEvent | internal/session/session.go:302-344 | discards stale tags, closes on errors, ends the session on Shutdown, writes Data to the PTY before acknowledging it; SessionLife.EventLaw says this field by field |
| SessionLife.ConnectLaw | internal/session/session.go:350-434 | the outcome of handleNewConn field by field for every combination of answers |
| SessionLife.ExitsExactly | internal/session/session.go:139-209 | a turn ends the session if and only if the shell or context ended, the accept failed after that, the current client sent Shutdown, or the first PTY could not be spawned |
| SessionLife.KeepsConnection | internal/session/session.go:139-209 | exactly which inputs cost the session its connection |
| SessionLife.NumbersExactly | internal/session/session.go:139-209 | a turn advances sendSeq exactly when it flushes, and retains what it flushed; unflushed bytes stay pending |
| SessionLife.SendsExactly | internal/session/session.go:139-209 | exactly which Data a turn sends, and on which connection |
| SessionLife.AcknowledgesExactly | internal/session/session.go:321-330 | recvSeq and the PTY move exactly with Data from the current connection that was written |
| SessionLife.NetworkNeverEnds | internal/session/session.go:139-209 | no list of network failures ends the session |
| SessionLife.RunEndsExactly | internal/session/session.go:139-209 | a run is over if and only if some input was fatal in the state it met |
| SessionObject.Session.Attach | internal/session/session.go:353-372 | the old connection is gone before the flush, and the new one is set after it |
| SessionObject.Session.WriteReplay | internal/session/session.go:408-418 | the replay loop on the object |
| SessionObject.Session.FinishHandshake | internal/session/session.go:374-434 | TerminalInfo, at most one PTY spawn, replay from LastClientSeq |
| SessionObject.Session.HandleNewConn | internal/session/session.go:350-434 | the whole handler equals the composition of the protocol's stages for every combination of failures |
| SessionModel.TurnSettles | internal/session/session.go:350-434 | every turn ends back at the head of the loop or ends the session |
| SessionObject.Session.React | internal/session/session.go:139-209 | one select case: the state, the Data sent and the PTY writes the model says |
| SessionObject.Session.Run | internal/session/session.go:139-209 | the loop over any list of inputs until a turn ends the session; SessionRuns.SessionRunIsLoop ties those lists to runs of the protocol |
| ClientObject.Client.constructor | internal/client/client.go:67-88 | empty buffer of the configured size, both counters zero |
| ClientObject.Client.HandleSequenceExchange | internal/client/client.go:251-274 | resends, in order up to a failure, what lies above the session's number |
| ClientObject.Client.EnterLoop | internal/client/client.go:202-211 | a reset escape machine and a fresh coalescer per connection |
| ClientObject.Client.StoreNext | internal/client/client.go:456-457 | the next number, kept for replay |
| ClientObject.Client.FlushStdinCoalesced | internal/client/client.go:451-462 | numbers, stores and sends the coalesced input |
| ClientObject.Client.HandleStdin | internal/client/client.go:332-352 | escape machine, coalescer and flush for one chunk |
| ClientModel.Drained | internal/client/client.go:474-492 | the messages before the first error or failed write, and why it stops there |
| ClientModel.StaysConnected | internal/client/client.go:330-424 | a turn that returns no exit reason leaves the connection alone |
| ClientObject.Client.React | internal/client/client.go:330-424 | one select case of ioLoop with its exit reason |
| ClientObject.Client.IoLoop | internal/client/client.go:298-425 | the loop over any list of inputs, inside the 32 KB + 2 escape buffer; HandlersAreSteps.IoLoopIsSteps ties it to runs of the protocol |
| ClientModel.RunningUntilReason | internal/client/client.go:298-425 | without an exit reason ioLoop is still on its connection, after any list of inputs |
| ClientLife.LeavesExactly | internal/client/client.go:330-424 | each exit reason of ioLoop is given for exactly these inputs, and the loop goes on for all others |
| ClientLife.SendsExactly | internal/client/client.go:330-360 | exactly which Data a turn sends: none when overdue, escaped or cancelled, the last flush at end of stdin |
| ClientLife.NumbersExactly | internal/client/client.go:451-462 | a turn advances sendSeq exactly when it flushes, sent or not, and retains what it flushed |
| ClientLife.ShowsExactly | internal/client/client.go:381-398 | exactly what a turn writes to stdout, and recvSeq is the last of it |
| ClientLife.EscapeNeedsTildeDot | internal/client/client.go:332-347 | over any inputs, ioLoop ends for the escape only if `~.` was typed at the start or after CR or LF since the connection began |
| ClientLife.RoundLaw | internal/client/client.go:126-239 | after a round Run has returned if and only if ioLoop ended for another reason than the network, or the context ended; it dials again after every other failure |
| ClientLife.NetworkNeverReturns | internal/client/client.go:126-239 | no list of rounds in which only the network fails makes Run return |
| ClientLife.ReturnsExactly | internal/client/client.go:126-239 | Run has returned if and only if some round was final where Run met it |
| ClientLife.NothingAfter | internal/client/client.go:126-239 | after Run has returned nothing more is sent or shown |
| ClientObject.Client.Converse | internal/client/client.go:298-425 | ioLoop on a new connection with its own coalescer and a reset escape machine |
| ClientObject.Client.PlayRound | internal/client/client.go:126-239 | one round of Run: dial, sequence exchange, TerminalInfo, ioLoop and what its exit reason means, for every combination of failures |
| ClientObject.Client.Run | internal/client/client.go:118-241 | the reconnect loop over any list of rounds: the Data put on each connection, the output and the fields that outlive a connection |
| SessionRuns.TurnIsStep | internal/session/session.go:139-209 | a turn of the session's loop is one step of the protocol: same state, same Data on the same connections, same PTY writes |
| SessionRuns.NewConnIsSteps | internal/session/session.go:350-434 | handleNewConn run to its end is its stages in order with any steps of the client, strangers and readers between them, for every combination of failures, the failed header included: same state, and the replay on the new connection and nowhere else |
| SessionRuns.SessionRunIsLoop | internal/session/session.go:139-209 | for every run of the protocol, the session at a loop head or after its exit, its Data on each connection and its PTY writes are what the select loop makes of a list of inputs read off the run |
| ClientRuns.IoTurnIsStep | internal/client/client.go:330-424 | a step of the client inside ioLoop is one turn of it, with the same Data, the same output, and an exit exactly when the connection is given up |
| ClientRuns.ClientRunIsLoop | internal/client/client.go:118-241 | for every run of the protocol, the client between connections, inside ioLoop or after Run returned, its Data on each connection and its stdout are what the reconnect loop makes of a list of rounds read off the run |
| HandlersAreSteps.TurnIsSteps | internal/session/session.go:139-209 | every input of the select loop other than a new connection is a run of at most two steps |
| HandlersAreSteps.StoppingIsSteps | internal/session/session.go:439-445 | a graceful stop is a flush step, whose Data still goes out, and then the exit |
| HandlersAreSteps.DrainIsSteps | internal/client/client.go:474-492 | the drain after a Shutdown is that many receipts, which move recvSeq and stdout, and then Run's return |
| HandlersAreSteps.IoTurnIsSteps | internal/client/client.go:330-424 | each of the ten kinds of input of ioLoop is a finite run of steps with the same Data, output and outcome |
| HandlersAreSteps.IoLoopIsSteps | internal/client/client.go:298-425 | every run of ioLoop on what the network hands it, with anyone else's steps between its turns, is a run of the protocol |
| HandshakeRuns.ReplayIsSteps | internal/session/session.go:408-418 | the session's replay loop is that many replay steps, up to the first failed write |
| HandshakeRuns.ExchangeIsSteps | internal/client/client.go:251-274 | handleSequenceExchange is the header step and the resends up to the first failed write |
| HandshakeRuns.ReconnectSucceeds | internal/session/session.go:350-434 | with separate streams, from any reachable state in which the client has dialled and the session is at its loop head, a run leads to both sides running, each having resent exactly what it retained of what the other declared missing |
| ClientObject.Client.DrainRemainingData | internal/client/client.go:474-492 | writes buffered messages in order until an error, a failed write or the timeout |
| Lane.ReplayIsRun | internal/catchup/buffer.go:89-112 | a replay list is the contiguous run from max(after+1, oldest retained) to the newest number |
| Lane.NextAbove | internal/client/client.go:391-398 | the next message a receiver takes always carries a number above recvSeq |
| Lane.TakeKeepsCriterion | internal/client/client.go:391-398 | taking a message keeps "delivered exactly 1..recvSeq" equivalent to "every delivering connection was clean" |
| Lane.ActKeepsInv | internal/session/session.go:350-465 | every act of sender, receiver or stranger keeps the delivery invariant of one direction |
| Lane.BlockContiguous | internal/session/session.go:408-463 | what one connection carried is a contiguous block of the log |
| Lane.CaughtUp | internal/session/session.go:353-418 | a receiver that took everything on a live connection is level with the sender |
| Lane.GaplessIsPrefix | internal/session/session.go:353-418 | a gapless output is the first recvSeq payloads of the log |
| ReconnectSafety.HandleUpActs | internal/session/session.go:302-330 | an event tagged with the current connection is the next unread message of its stream; stale events change nothing |
| ReconnectSafety.LoopKeeps | internal/session/session.go:139-209 | every case of the session's select loop keeps the invariant |
| ReconnectSafety.AcceptKeeps | internal/session/session.go:350-434 | every stage of handleNewConn keeps it, whatever fails |
| ReconnectSafety.ReaderKeeps | internal/session/session.go:281-296 | the reader goroutines keep it |
| ReconnectSafety.ConnectKeeps | internal/client/client.go:126-211 | every stage of the client's reconnect loop keeps it |
| ReconnectSafety.IoKeeps | internal/client/client.go:330-424 | every case of ioLoop keeps it |
| ReconnectSafety.ReachableInv | internal/session/session.go:139-209 | the invariant holds after every run from the initial state |
| Delivery.DownstreamSafety | internal/client/client.go:381-398 | over every run stdout is the payloads of strictly increasing session numbers, each at most once, and recvSeq is the last |
| Delivery.UpstreamSafety | internal/session/session.go:302-330 | over every run PTY writes are strictly increasing client numbers, each at most once, and recvSeq acknowledges exactly the last successful write |
| Delivery.DeclaredNumberHolds | internal/session/session.go:366-368 | between the number declared on the current connection and the first Data taken from it recvSeq cannot move, on either side |
| Delivery.ConnectionBlocks | internal/session/session.go:408-463 | in both directions each connection carries one contiguous block starting at max(declared+1, oldest retained) |
| Delivery.DownstreamGapCriterion | internal/session/session.go:353-418 | delivered numbers are exactly 1..recvSeq if and only if every connection that delivered began with the missed suffix still retained |
| Delivery.UpstreamGapCriterion | internal/session/session.go:321-330 | the same upstream, where a success after a failed PTY write on one connection is the only other cause of a gap |
| Delivery.GaplessBytes | internal/session/session.go:449-465 | gapless stdout is a prefix of everything the PTY produced; likewise upstream |
| Delivery.CaughtUpClient | internal/session/session.go:353-463 | a client that read everything on the current connection has recvSeq = sendSeq, and if gapless with nothing pending its stdout is all the PTY produced |
| Delivery.CaughtUpSession | internal/client/client.go:251-274 | the same for the session and the client's input |
| Delivery.LoopHead | internal/session/session.go:391-431 | at every loop head a current connection has a spawned PTY and started readers, and a PTY spawn is tried at most once in any run, failed attempts included |
| Delivery.ByteConservation | internal/session/session.go:139-153 | stored payloads plus pending bytes equal the bytes taken from the PTY; what one ioLoop stored is a prefix of its escape-filtered stdin |
| Delivery.RetainedBound | internal/coalesce/coalesce.go:50-63 | every flush is between 1 and 65536 bytes, so its Data message is encodable; retained bytes never exceed the larger of the configured size (4096 if none) and 65536, retained entries never the configured slots |
| Retention.ClientMisses | internal/session/session.go:406-418 | in every reachable state the session would resend everything the client has not received if and only if that fits the configured replay size by itself |
| Retention.SessionMisses | internal/client/client.go:262-271 | the same for the client's buffer and the session |
| Arrival.EverythingCanArrive | internal/session/session.go:281-330 | from every reachable state with both sides on one connection there is a run that delivers everything pending and unread in both directions |
| Arrival.QueueBounded | internal/session/session.go:134-134 | at most eight events wait for the session's loop |
| Delivery.CutAtAnyByte | internal/protocol/messages.go:123-170 | every Data message of a run is encodable, and a Data stream of its own, as over QUIC, cut at any byte decodes to a prefix of its messages and an error |
| TcpMux.DataChannel | internal/transport/tcp.go:100-150 | without Data read serially, the data channel delivers a prefix of all the Data sent, and all of it once nothing is left to read |
| Delivery.DemuxedData | internal/transport/tcp.go:48-150 | over TCP, whatever control messages are interleaved with a connection's Data, the demultiplexer hands out a prefix of exactly that Data, in the end all of it |
| TcpRetry.TcpRunIsRun | internal/transport/tcp.go:48-51 | every run over one-stream connections is a run of the protocol, so the delivery guarantees hold for it |
| TcpRetry.WireIsStream | internal/client/client.go:155-166 | the Data among what the client wrote on a connection, in write order, is that connection's upstream Data |
| TcpRetry.OneStreamOrder | internal/session/session.go:377-389 | in every run over one ordered stream, where the handshake read takes the first message, it returns TerminalInfo on the client's connection only if the client had nothing to resend on it |
| TcpRetry.RetryNeverDelivers | internal/session/session.go:377-389 | over one ordered stream a starved session receives no input again, never begins to send on another of the client's connections, and a client without an earlier connection reads nothing more, whatever both sides do |
| TcpRetry.TcpReconnectStarves | internal/client/client.go:155-175 | for every run from the initial state: a disconnected session that lacks input stays that way for ever, and stdout stands still once the client is disconnected too |
| TcpRetry.TcpReconnectSucceeds | internal/client/client.go:155-175 | the other half: whenever the session has received everything, a TCP reconnect can go through to both sides running |
| TcpRetry.ReplayEmptyIffLevel | internal/client/client.go:262-271 | the client's replay list is empty exactly when the session has received everything, however much was evicted |
| Witnesses.StarvationHappens | internal/client/client.go:155-175 | a concrete run over TCP, for any buffer sizes, after which the session is starved |
| Witnesses.GapsHappen | internal/catchup/buffer.go:46-85 | a concrete run of the protocol in which stdout gets number 2 and never number 1 |
| Timeout.ClockInvariant | internal/client/client.go:327-415 | the clock, the next tick and the last receipt stay within the timeout plus one heartbeat |
| Timeout.TicksEveryFiveSeconds | internal/client/client.go:327-330 | the heartbeat is due every 5000 ms |
| Timeout.TimesOutExactly | internal/client/client.go:332-415 | the loop times out if and only if a tick, a stdin chunk or a coalescer deadline finds more than 15000 ms of silence |
| Timeout.TimeoutWindow | internal/client/client.go:327-415 | with ticks handled promptly a running loop heard something within 20000 ms, and a timeout exit means more than 15000 ms of silence |

## Left out

- Authentication, TLS, certificates and the QUIC and TCP dialers and listeners: foreign cryptography and thin wrappers; an accepted connection counts as authenticated and its LastClientSeq is the client's recvSeq at dial time.
- The dual listener: accept plumbing; connections may be accepted in any order.
- SSH bootstrap, remote install, version and profile output, command-line flags: string handling with only easy properties.
- PTY spawn details, resize, size bounce and raw mode: operating-system calls; a PTY write succeeds or fails as a whole.
- A second client process that sends Data: recvSeq is assigned, not maximised (internal/session/session.go:330), so the delivery theorems are for one client; strangers may connect and displace it.
- Completeness of shutdown: drainForShutdown looks at one control message within 100 ms, so no claim that every Shutdown is noticed or that all final output arrives.
- Flow control, blocking writes and wrap-around of sequence numbers at 2^64: sequence numbers are unbounded, and Delivery.CutAtAnyByte and Delivery.DemuxedData assume that both stay below 2^64.
- Goroutines, channels and the mutex are step relations on values, not objects: Reconnect, TcpMux, Handshake and Timeout quantify over every order of steps. The handlers, both select loops and the reconnect loop are also methods on objects, which take what each select case or round receives as a list.
- Aliasing of payload slices: payloads are values, so "a later Store does not change entries already returned" holds by construction and is not a theorem here.
- TcpMux: one direction of one connection; after a failed write nothing more reaches the stream, as with a TLS connection.
- Heartbeats, Resize and unexpected messages change no modelled state and appear as one kind of event; that either side sends Heartbeat, Resize or a last Shutdown is not an output of the model.
- The session's own receive timeout of 30 s: its outcome is the input HeartbeatLost, its clock is not modelled.
