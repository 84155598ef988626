# Secure tunneling: models and proofs

A Dafny 4.11 model of the AWS IoT secure tunneling implementation in this repository, with proofs of
what its concurrent and stateful parts keep. `dafny verify dfyconfig.toml` checks all of it.

The local proxy sits between a websocket and local TCP or unix sockets; the server relays between two
local proxies, one in source and one in destination mode. The model has five parts.

- **Framing** (`Framing.dfy`, `Protobuf.dfy`). Websocket frames carry a byte stream of messages, each
  preceded by its length in two bytes. `MessageReader` is the reader with its buffer; `NextStep`,
  `Calls` and `Parse` are the same on values, `Parse` without any notion of frames. The lengths are
  computed in 16 bits, as the code does, so the results say what happens to bodies that are too long.
- **The pipeline of the local proxy** (`Pipeline.dfy` and the `Pipeline*` files, `Workers.dfy`,
  `Sockets.dfy`). One session as a transition system over its goroutines: the read loop, the
  end-of-session code, the worker of each stream, the reader of each local socket, the asynchronous
  stops, and the handlers of accepted connections. What they share are two read-write locks, the
  write mutex, bounded channels, cancel tokens and termination waits; the calls of `sendMessage` and of
  `localSocket.Write` are recorded with their outcomes. A run is any sequence of turns
  with any answers from the outside. `Workers.dfy` and `Sockets.dfy` are the same components as
  objects, one call at a time.
- **The relay of the server** (`Relay.dfy`, `RelayPairing.dfy`, `RelayOrder.dfy`,
  `RelayProgress.dfy`, `RelayClosing.dfy`, `RelayManager.dfy`). All connections that ever came in, with `connect` and
  `run` taken apart step by step: pairing, replacement of a live peer, disconnection, forwarding, who
  is closed, and who waits for whom. `RelayManager.dfy` holds the locked sections and the sweep of expired
  connections as methods of objects.
- **The table of the server** (`Table.dfy`, `TableRuns.dfy`). A generic map with revisions, and all
  interleavings of clients that get, modify and update.
- **Names and numbers** (`StreamIDs.dfy`, `ServiceConfigs.dfy`, `ServerIDs.dfy`, with `Strings.dfy`
  and `Each.dfy`). Stream ids packed from a counter and the time of day, the parser of service
  strings, and ids whose prefix names a tunnel.

Where the code and its comments differ the model follows the code. Two places matter: the length
field allows bodies of 65535 bytes, but only 65533 of them can be read back, because the end position
is computed in 16 bits (`Framing.BodySurvivesIff`); and an update of the table is told apart from a
stale one within the life of a key from its add to its delete, but not across: a copy from an earlier
life passes exactly when `TableRuns.CopyPassesIff` says.

The relay makes progress with one exception. Whoever has something to do waits in the end for somebody
who can move, or for a reader that is sending into a full channel whose writer is not running
(`RelayProgress.ProgressUnlessJammed`). When `run` returns because SERVICE_IDS could not be written, it
neither starts the writer nor closes the channel; if a peer's reader is just then sending into that
channel and it is full, `connect` waits for that reader under the manager's lock. This can be reached
from the start (`RelayProgress.LockUpIsReachable`), and from there the lock is never released
(`RelayProgress.LockIsNeverReleased`).

The frame format is that of the section "Tunneling message frames" of the AWS
V2WebSocketProtocolGuide v2.1.0; the encoding of the message follows "Base 128 Varints" and "Message
Structure" of the Protocol Buffers Encoding guide.

Hypotheses that recur:

- Theorems about what happens between two moments (`before` and `after`) hold for any schedule up to the
  first moment and any from there to the second.
- The pipeline covers one session: the worker map is empty at its start, and runs go on to the
  stopping of all workers and sockets. Deadlock freedom assumes that calls which leave the process
  (socket and websocket I/O, dialling) return.
- `PrefixDelivery`, `EndToEndDelivery`, `JobsArePrefix` and `NoDataAfterReset` hold in destination
  mode, for stream ids that are started at most once in the session. `PipelineOrder.JobsInOrder` and
  `PipelineOrder.NothingAfterReset` need neither: they hold in both modes, for any number of starts.
- `GoodSpace`: white space contains no digit, no lower-case letter and none of `:` `/` `=` `,`.

## Model

| member | source | states |
|---|---|---|
| Framing.NextConsumesOneFrame | aws/messagerw.go:85-133 | one call: buffered bytes and bytes read are the frame handed out followed by the new buffer; a read error loses nothing; a buffered frame is handed out without reading |
| Framing.CallsFollowParse | aws/messagerw.go:85-148 | for any frames and errors and any number of calls, the results other than read errors are the parse of the received bytes, and the buffer is exactly what is not yet handed out |
| Framing.NextSucceeds | aws/messagerw.go:85-148 | without connection errors a call fails if and only if the stream holds no further whole frame |
| Framing.NextFailsIff | aws/messagerw.go:45-148 | on any connection a call fails if and only if no whole frame arrives before the next error or frame that is not binary; it has used that up and kept all bytes before it |
| Framing.CallsAreExpected | aws/messagerw.go:85-148 | without connection errors all results are a function of the concatenated bytes |
| Framing.FragmentationIndependence | aws/messagerw.go:85-148 | two ways of cutting the same bytes into websocket frames give the same results |
| Framing.FramingRoundTrip | aws/messagerw.go:85-168 | serialized messages, concatenated and cut in any way, are read back as the same list with nothing left |
| Framing.BodySurvivesIff | aws/messagerw.go:105-121 | a framed body comes back alone and whole if and only if it is at most 65533 bytes long |
| Framing.LengthIsBigEndian | aws/messagerw.go:160-165 | the frame of a body below 65536 bytes is [hi, lo] and the body if and only if hi * 256 + lo is its length |
| Framing.ReadsBigEndian | aws/messagerw.go:107-121 | a frame [hi, lo] and body is read as that body if hi * 256 + lo is its length, and not read if it says more than there is |
| Framing.WebSocketReader.ReadMessage | aws/messagerw.go:23-27 | the connection answers its script, then errors |
| Framing.BinaryReaderWSAdapter.Read | aws/messagerw.go:45-62 | one answer is used up; only binary frames give data |
| Framing.MessageReader.constructor | aws/messagerw.go:65-74 | an empty buffer, consumed and buffered bytes are the received ones |
| Framing.MessageReader.ReadAtLeast | aws/messagerw.go:135-148 | the loop reads exactly until the buffer is long enough or a read fails, and keeps what was read |
| Framing.MessageReader.Next | aws/messagerw.go:85-133 | result, buffer and position are those of NextStep; consumed bytes followed by the buffer are all bytes received, before and after; what is handed out is one frame, its length in front with the more significant byte first, and the outcome is its decoded body |
| Framing.SerializeMessage | aws/messagerw.go:151-168 | the length of the encoding modulo 65536 in two bytes, the more significant first, and the encoding; or the error of the encoder |
| Protobuf.VarintLengthIff | aws/Message.pb.go:89-94 | a varint takes at most k bytes if and only if its value is below 128 to the k |
| Protobuf.VarintSaysItsNumber | aws/Message.pb.go:89-94 | the groups of seven bits add up to the number, and only the last byte is without the high bit |
| Protobuf.EncodedBytes | aws/Message.pb.go:89-94 | the bytes of a message: keys 08, 10, 18, 22, 2A, 32 in this order, each with its own field, defaults left out |
| Protobuf.NegativeTakesTenBytes | aws/Message.pb.go:90 | a negative stream id takes ten bytes |
| Protobuf.DataMessageLength | aws/Message.pb.go:89-94 | the exact encoded length of a DATA message |
| Protobuf.ProxiedDataFits | client/awsclient.go:553-560 | every DATA message of a read of at most 32 KiB and a service id of at most 32744 bytes is within the frame bound |
| Protobuf.ServiceIdFitsIff | client/awsclient.go:553-560 | all DATA messages of a service id fit if and only if the id is at most 32744 bytes long |
| Protobuf.ProxiedDataSurvives | proxy/socket.go:77-96 | such a message, framed, comes back whole |
| PipelineProofs.StepKeepsInv | client/awsclient.go:364-573 | every step of every goroutine keeps locks, maps, references, live sockets, ledgers and cancel tokens consistent |
| PipelineProofs.RunKeepsInv | client/awsclient.go:364-573 | every run keeps them |
| PipelineProgress.BlockedIffWaits | client/workermanager.go:30-61 | a goroutine that has something to do can move if and only if it waits for no other, pending writers of the read-write locks included |
| PipelineProgress.WaitsGoUp | proxy/socket_manager.go:42-98 | every wait goes strictly up the rank worker-manager lock, worker, socket-manager lock, socket, write mutex, to a goroutine that has something to do |
| PipelineProgress.ChainToFreeThread | client/workermanager.go:30-61 | from every blocked goroutine a chain of waits leads to one that can move |
| PipelineProgress.DeadlockFreedom | client/awsclient.go:364-573 | the same in every reachable state of a session, in either mode |
| PipelineProgress.ChainRises | proxy/localproxy.go:207-247 | along every chain of waits the rank rises, so there is no cycle |
| PipelineDelivery.RunKeepsStream | client/awsclient.go:394-462 | for one stream, every run keeps: what was sent, what its worker was given and has run, and what its socket was handed are prefixes of each other in the right order |
| PipelineDelivery.PrefixDelivery | proxy/localproxy.go:243-247 | in destination mode the payloads handed to a socket are in order a prefix of the DATA payloads after the STREAM_START of its stream |
| PipelineTheorems.ExecJoinsLatestLiveWorker | client/workermanager.go:30-61 | a job that exec enqueues joins the worker started last for its stream, which nobody has begun to stop |
| PipelineTheorems.StoppedOnce | client/worker.go:63-72 | with any number of concurrent stops the cancel channel is never closed twice, the context is cancelled at most once, and an ended worker was cancelled; a closed channel means exactly one cancellation, unless the goroutine that closed it is just about to cancel |
| PipelineTheorems.WorkerLedger | client/worker.go:29-60 | jobs enqueued are jobs executed, the running one, and the buffer of at most ten |
| PipelineTheorems.JobsRunInOrder | client/worker.go:34-45 | once the j-th job of a worker has begun, every earlier one is over |
| PipelineOrder.JobsInOrder | client/awsclient.go:394-462 | in either mode and for any number of starts: from some place in the input on, a worker is given a prefix of the jobs of the messages of its stream, in the order of their arrival |
| PipelineOrder.NothingAfterReset | client/awsclient.go:423-458 | in either mode and for any number of starts: once a worker has begun the job of a STREAM_RESET, the jobs of all messages from that place up to the reset are over; where no second worker has the id, nobody else can run one |
| PipelineOrder.RunKeepsSince | client/awsclient.go:394-462 | the place of a worker in the input, once it is there, stays the same over any further run |
| PipelineDelivery.JobsArePrefix | client/awsclient.go:394-462 | in destination mode a stream that is started once has one worker, which is given a prefix of the jobs of the DATA and STREAM_RESET messages in the order of their arrival |
| PipelineDelivery.NoDataAfterReset | client/awsclient.go:423-458 | in the case of JobsArePrefix the place is the STREAM_START: once the job of a STREAM_RESET has begun, the jobs of all messages of the stream before it are executed, so DATA received before it is never processed after it |
| PipelineResets.ResetUnlocksWhenGone | proxy/socket_manager.go:76-86 | in every reachable state, a worker about to give the lock back after a reset has no socket of its stream in the map, and every socket of the stream is closed and has ended |
| PipelineResets.ResetEndsSockets | client/awsclient.go:448-462 | in either mode and for any number of starts: a socket of the stream that was there before a STREAM_RESET job began is, once the job has been executed, closed, ended and out of the map |
| PipelineResets.ResetClosesStream | proxy/localproxy.go:231-234 | in destination mode, for a stream started once: when its worker has executed a STREAM_RESET, every socket of the stream is closed and has ended and the map does not name the stream |
| PipelineResets.SessionResetEndsSockets | client/awsclient.go:464-467 | in either mode: once a SESSION_RESET has been handled, every socket that was there before it was heard is closed, ended and out of the map |
| PipelineResets.SessionEndEndsSockets | proxy/localproxy.go:178 | in either mode: when the session has ended, so have all sockets that were there at any moment before |
| PipelineResets.WaitsOnlyForClosed | proxy/socket.go:139-147 | whoever waits for the reader of a socket has closed its connection before, so that its next read fails |
| PipelineStops.ResetsAreFollowedByStop | client/awsclient.go:455-458 | a worker that has executed a STREAM_RESET, or has sent one, is not the one of its stream any more, or a stop of the stream is on its way |
| PipelineStops.FailedReadsStopWorkers | proxy/localproxy.go:346-355 | once the reader of a socket is past reading, and not because it could not send, the workers of its stream that were there are not the one of the stream any more, or a stop is on its way |
| PipelineStops.StartsComeTo | client/awsclient.go:400-421 | a STREAM_START that has been handled has started a new worker, and either a new socket, or a stop of the stream and a STREAM_RESET |
| PipelineStops.AcceptsComeTo | proxy/localproxy.go:298-330 | the handler of an accepted connection that has returned has started a new worker, and either has sent STREAM_START and found or started a socket, or a stop of the stream is on its way or over |
| PipelineStops.StopAllReachesWorkers | client/workermanager.go:79-86 | when stopAll has returned, each worker that was there before and is still the one of its stream has had its cancel channel closed |
| PipelineAnswers.DataIsTakenOrAnswered | client/awsclient.go:427-442 | the DATA jobs that are over are as many as the payloads that a local socket took and the STREAM_RESETs that the worker sent, so each has one of the two outcomes |
| PipelineOutbound.ReadersSendWhatTheyRead | proxy/socket.go:73-102 | what the reader of a socket has sent is exactly what it has read, in order, but for what it has in its hands; then its STREAM_RESET, unless a message could not be sent |
| PipelineOutbound.OutboundDelivery | client/awsclient.go:542-573 | in either mode, the DATA payloads on the wire of a stream with one socket are what was read from that socket, in order and each once, but for the last at most; while the reader reads, all of it |
| PipelineOutbound.StartComesFirst | proxy/localproxy.go:304-316 | a DATA message is sent behind a STREAM_START of its stream that was sent, or the proxy has heard one |
| PipelineOutbound.RunKeepsKinds | client/awsclient.go:495-540 | only readers send DATA, only workers, readers and the read loop reset, only the handlers of accepted connections start, and workers and readers only on their own stream |
| PipelineTheorems.LedgerGrows | client/worker.go:29-60 | over any further run queue and executed jobs only grow, and the executed jobs of an ended worker are final |
| PipelineTheorems.LiveSocketsAreRegistered | proxy/socket_manager.go:35-98 | every socket whose reader has not ended is in the map under its own id; one whose reader has ended is closed |
| PipelineTheorems.StopAllStopsEverything | proxy/socket_manager.go:89-98 | when StopAll is about to give its lock back every reader ever started has ended with its connection closed |
| PipelineTheorems.OneLiveSocketPerStream | proxy/socket_manager.go:45-48 | in every reachable state at most one socket of a stream id has a reader that has not ended, so a start for a taken id never makes a second |
| PipelineTheorems.HeardFromBytes | client/awsclient.go:377-380 | whatever the frames and the failures, the read loop hears a prefix of the messages that the bytes spell |
| PipelineTheorems.EndToEndDelivery | client/awsclient.go:364-458 | from the byte stream to the local socket: prefix delivery for every cutting, failure and interleaving |
| Workers.Worker.constructor | client/worker.go:17-32 | an empty queue and a full cancel token |
| Workers.Worker.Exec | client/worker.go:58-60 | the job is enqueued exactly when the buffer has room |
| Workers.Worker.Drain | client/worker.go:34-45 | the goroutine after its cancellation: some more jobs in order, then the end |
| Workers.Worker.Stop | client/worker.go:63-72 | the worker ends, cancelled exactly once however often it is stopped |
| Workers.WorkerManager.Start | client/workermanager.go:16-26 | a fresh worker is registered, in place of any other |
| Workers.WorkerManager.Exec | client/workermanager.go:30-42 | found exactly when registered; only the worker of the stream is given the job |
| Workers.WorkerManager.Stop | client/workermanager.go:45-61 | the worker has ended and is no longer registered; nothing else changes |
| Workers.WorkerManager.GetAll | client/workermanager.go:64-76 | the registered workers, each once |
| Workers.WorkerManager.StopAll | client/workermanager.go:79-86 | all registered workers have ended and stay registered |
| PipelineTheorems.StopRemovesAStoppedWorker | client/workermanager.go:50-60 | under every schedule a stopper deletes exactly the worker registered under its stream, whose cancel channel is closed and which, until stopAll begins, has ended after one cancellation; then it unlocks |
| Sockets.TracePassesOnWhatIsRead | proxy/socket.go:73-102 | a run of the reader passes on exactly the bytes of the reads that succeed, in order; bytes that come with an error are dropped |
| Sockets.TraceEnds | proxy/socket.go:73-102 | one call for each read, with its bytes and the answer it got; all but the last were accepted; the run ends with its only OnReadError, because the next read failed, or right after the one OnReadData that was refused |
| Sockets.TraceGoesOn | proxy/socket.go:73-102 | as long as reads succeed and are accepted the reader goes on |
| Sockets.LocalSocket.Suck | proxy/socket.go:73-102 | the loop makes exactly these calls, for any number of reads before the connection is closed, after which reads fail |
| Sockets.LocalSocket.RunReader | proxy/socket.go:57-69 | after the loop the connection is closed and the reader has ended, having passed on what was read before |
| Sockets.LocalSocket.Stop | proxy/socket.go:139-147 | the connection is closed first, so that reads not made by then fail, and the reader has ended; one that had ended has passed on nothing more |
| Sockets.LocalSocketManager.StartSocket | proxy/socket_manager.go:35-55 | a new socket is registered, or the call is refused with nothing changed exactly when the id is taken |
| Sockets.LocalSocketManager.Write | proxy/socket_manager.go:58-71 | only the socket of the stream is written to; the call fails exactly when there is none or its connection fails |
| Sockets.LocalSocketManager.StopSocket | proxy/socket_manager.go:76-86 | the socket of the stream has ended and is gone; no other has ended by it |
| Sockets.LocalSocketManager.StopAll | proxy/socket_manager.go:89-98 | every socket has ended with its connection closed, and the map is empty |
| RelayPairing.SectionKeepsStep | misc/server/peerconmanager.go:38-79 | step by step through both locked sections, how far the two peers of the tunnel are associated |
| RelayPairing.StepKeepsInv | misc/server/peerconmanager.go:20-82 | every step of every connection, live or replaced, keeps lock, registry, pairing and closes consistent |
| RelayPairing.RunKeepsInv | misc/server/peerconmanager.go:20-82 | every run keeps them |
| RelayPairing.PairedOutsideLockedSections | misc/server/peerconmanager.go:38-79 | outside locked sections two registered opposite peers point at each other and a lone one at the nil writer |
| RelayPairing.OnlyOppositePeers | misc/server/peerconnection.go:182-198 | at every moment every connection ever created points at the nil writer or a connection of the same tunnel and opposite mode, and at most one close was attempted on it |
| RelayOrder.RunKeepsOrder | misc/server/peerconnection.go:54-180 | every run keeps queues, wires and logs of forwarding consistent |
| RelayOrder.WireOrder | misc/server/peerconnection.go:54-66 | a peer was sent nothing, or SERVICE_IDS and then a prefix of its queue order |
| RelayOrder.PositionsAreASpan | misc/server/peerconmanager.go:54-79 | a target that is left is never taken up again, so the messages forwarded to it are consecutive |
| RelayOrder.ContiguousSlice | misc/server/peerconnection.go:124-156 | what one sender put into the queue of one target is a contiguous slice of what it read, in order |
| RelayClosing.ReplacedAreClosed | misc/server/peerconmanager.go:43-64 | in every reachable state a connection that has been registered, has not begun to deregister and is not the one under its key is closed |
| RelayClosing.OneOpenPerPeer | misc/server/peerconmanager.go:38-64 | of the connections that run for the same peer at most one is open |
| RelayClosing.FinishedAreClosed | misc/server/peerconnection.go:64-107 | past run, a connection whose loops were started is closed, its channel is closed and both loops have ended; before, its channel is open |
| RelayProgress.BlockedIffWaits | misc/server/peerconnection.go:54-180 | connect, run, a reader or a writer that has something to do can move if and only if it waits for no other |
| RelayProgress.WaitsGoUp | misc/server/peerconmanager.go:38-79 | every wait but that of a jammed reader goes strictly up the rank manager's lock, locked section or run, reader, writer, to a goroutine that has something to do |
| RelayProgress.ProgressUnlessJammed | misc/server/peerconnection.go:54-180 | in every reachable state a chain of waits leads from whoever has something to do to one that can move, or to a reader that is sending into a full open channel whose writer is not running |
| RelayProgress.LockIsNeverReleased | misc/server/peerconmanager.go:66-79 | once a connection whose writer was never started waits, under the manager's lock, for a peer whose reader is sending into its full channel, the lock stays held in every continuation |
| RelayProgress.LockUpIsReachable | misc/server/peerconnection.go:56-70 | a witness: such a state is reached from the start when SERVICE_IDS cannot be written to a peer that was sent eleven messages |
| RelayPairing.MainKeepsOpposite | misc/server/peerconnection.go:182-187 | every association that connect makes, in either locked section, is with a connection of the same tunnel and the opposite mode or with the nil writer |
| RelayManager.PeerConnection.Close | misc/server/peerconnection.go:189-216 | closed, with an attempt exactly when it was not closed before |
| RelayManager.PeerConManager.Register | misc/server/peerconmanager.go:38-64 | a registered connection of the key is closed and replaced, keeping its target; all registered peers are paired |
| RelayManager.PeerConManager.Deregister | misc/server/peerconmanager.go:68-79 | removed and its peer left alone exactly when it is the registered one; otherwise nothing changes |
| RelayManager.PeerConManager.GroupByTunnel | misc/server/peerconmanager.go:110-116 | the grouping loop puts every registered connection into the group of its tunnel |
| RelayManager.GroupsPartition | misc/server/peerconmanager.go:110-116 | the groups are a partition of the registered connections |
| RelayManager.PeerConManager.CloseExpiredConnection | misc/server/peerconmanager.go:105-137 | exactly the registered connections not yet closed whose tunnel is expired or missing are closed; nothing else changes |
| RelayManager.PeerConManager.CloseAll | misc/server/peerconmanager.go:125-134 | all of a group are closed, with attempts exactly on those that were open |
| Table.DataTable.GetWithKey | misc/server/store_memory.go:129-137 | the element of the key, or none |
| Table.DataTable.List | misc/server/store_memory.go:139-157 | exactly the elements that satisfy the filter, each once |
| Table.DataTable.Add | misc/server/store_memory.go:159-174 | stored, or refused with nothing changed exactly when the key is taken |
| Table.DataTable.Update | misc/server/store_memory.go:176-199 | stored with the next revision exactly when the key is there with the revision of the value; a missing key and another revision are told apart, and nothing changes |
| Table.DataTable.Delete | misc/server/store_memory.go:201-207 | the key is gone and nothing else |
| TableRuns.RunKeepsInv | misc/server/store_memory.go:129-207 | in every interleaving what is stored is the last version of the life of its key, and revisions count versions modulo the size of a uint |
| TableRuns.CopyPassesIff | misc/server/store_memory.go:176-199 | an update with the revision of a copy from any life of its key succeeds if and only if the copy's life and place give the revision of the present life and place, modulo the size of a uint |
| TableRuns.StaleCopyPassesIff | misc/server/services_connect.go:103-123 | when all additions carry revision 1, as the server's do, a copy of any life passes if and only if its place and that of the present version differ by a multiple of the size of a uint |
| TableRuns.NoLostUpdates | misc/server/store_memory.go:176-199 | within one life it succeeds if and only if the versions stored since are such a multiple, so short of a wrap-around if and only if there are none; a failed update changes nothing |
| TableRuns.RevisionsOfALife | misc/server/store_memory.go:186-196 | two versions of a life carry the same revision if and only if their distance is a multiple of the size of a uint |
| TableRuns.OneSuccessPerRevision | misc/server/store_memory.go:176-199 | after a successful update and any turns without a delete of its key, another update that carries the same revision succeeds if and only if the successes are a multiple of the size of a uint, so short of a wrap-around never |
| TableRuns.RevisionCountsSuccesses | misc/server/store_memory.go:186-196 | the stored revision is the initial one plus the number of successful updates |
| TableRuns.LivesAreNotToldApart | misc/server/store_memory.go:176-207 | a witness: a copy from before a delete passes for one of the element added afterwards |
| StreamIDs.StreamIDGen.Generate | proxy/idgen.go:37-55 | the id splits into the next counter and the time of day, and never wraps around |
| StreamIDs.GenerateAll | proxy/idgen.go:37-55 | any number of calls give the ids of the specification |
| StreamIDs.IdAt | proxy/idgen.go:42-53 | the id of the i-th call in closed form |
| StreamIDs.DigitsAreHoursMinutesSeconds | proxy/idgen.go:49 | two decimal digits each for hours, minutes and seconds, so that later times of a day give greater numbers |
| StreamIDs.IdsInRange | proxy/idgen.go:10-55 | ids lie in 1000000..2147235959, within 32 bits |
| StreamIDs.EqualIdsIff | proxy/idgen.go:37-55 | two calls give the same id if and only if 2147 divides their distance and the times of day are equal |
| StreamIDs.CallsOfASecond | proxy/idgen.go:49-50 | on a clock that does not go back the calls of one second are consecutive |
| StreamIDs.UniqueIff | proxy/idgen.go:13-21 | within a day all ids are distinct if and only if no second has more than 2147 calls |
| Strings.JoinOfSplit | proxy/serviceconfig.go:28 | joining the parts of a split gives the string back |
| Strings.PartsAreWithout | proxy/serviceconfig.go:85 | no part of a split contains the separator |
| Strings.SplitOfJoin | proxy/serviceconfig.go:85 | splitting joined parts gives the parts back |
| Strings.TrimSpaceTrims | proxy/serviceconfig.go:43 | trimming cuts white space off both ends until there is none left there, and nothing else |
| Each.EachOneByOne | proxy/serviceconfig.go:88-121 | the loop succeeds if and only if each single input does |
| Each.FirstErrorWins | proxy/serviceconfig.go:88-121 | the outcome is an error if and only if it is that of the first input that fails |
| ServiceConfigs.ParseServiceConfig | proxy/serviceconfig.go:83-124 | the loop that fills the array gives the configurations of all services, or the first error |
| ServiceConfigs.PortsAreNumbers | proxy/serviceconfig.go:68-72 | the ports are exactly the numbers up to 65535 in decimal notation, with any number of zeros in front |
| ServiceConfigs.PortsHaveSixteenBits | proxy/serviceconfig.go:51-74 | a number alone is tcp on that port of localhost if it is at most 65535, and an invalid port otherwise |
| ServiceConfigs.FullForm | proxy/serviceconfig.go:26-77 | what "network://host:port" means for all parts with any white space around them: unix, the trimmed parts, or an invalid port |
| ServiceConfigs.ThreePartsAreRefused | proxy/serviceconfig.go:37-40 | a second "://" and a second colon are refused as an invalid address |
| ServiceConfigs.ServiceForms | proxy/serviceconfig.go:91-121 | the forms of a service: trimmed id and URL, no id, and a second "=" refused |
| ServiceConfigs.ParsedURL | proxy/serviceconfig.go:26-77 | every result, for any string, has a trimmed network and an address that is a unix path or a trimmed host and a port |
| ServiceConfigs.URLsResolve | proxy/serviceconfig.go:26-77 | such endpoints are exactly the results of ParseURL, and each, printed, parses to itself |
| ServiceConfigs.ParsedCleanURL | proxy/serviceconfig.go:109-112 | for the URL of a service string the parts are moreover free of commas and equals signs, and a unix path has no white space at its end |
| ServiceConfigs.ShortForms | proxy/serviceconfig.go:19-25 | "host:port" means tcp, "port" means tcp on localhost |
| ServiceConfigs.ResultsAreTheNormalOnes | proxy/serviceconfig.go:83-124 | a list of configurations is the result of some input if and only if it is non-empty and all of them are normal |
| ServiceConfigs.NormalFormRoundTrip | proxy/serviceconfig.go:83-124 | printing what was accepted and parsing again gives exactly the same configurations |
| ServiceConfigs.AddressesEndInAPort | proxy/serviceconfig.go:67-74 | every address that is not a unix path ends in a colon and a number of at most 65535 in decimal notation |
| ServerIDs.GenerateID | misc/server/id.go:36-52 | an id of the given length that spells the draws, or an error exactly when a draw fails |
| ServerIDs.TunnelIDRecoveredIff | misc/server/id.go:17-28 | the tunnel id comes back out of an id if and only if it has no separator in it |
| ServerIDs.NewConnectionID | misc/server/id.go:104-114 | the tunnel id, the separator and the spelt draws, or an error exactly when a draw fails |
| ServerIDs.EqualIdsIff | misc/server/id.go:36-52 | ids made for the same tunnel are equal if and only if their draws are |
| ServerIDs.IndexAgreement | misc/server/store_memory.go:79-96 | for generated tunnel ids the prefix of an id equals a search id if and only if the tunnel id does |
| ServerIDs.ConnectionStore.Connect | misc/server/services_connect.go:104-123 | a connection with a new id, revision 1 and its tunnel is added, failing exactly when a draw fails or the id is taken; ids keep agreeing with the tunnel field |
| ServerIDs.ConnectionStore.Disconnect | misc/server/services_connect.go:145-161 | the connection keeps its id and tunnel, gets the next revision, and ids keep agreeing with the tunnel field |
| ServerIDs.ConnectionStore.UpdateConnection | misc/server/store_memory.go:104-108 | ids keep agreeing with the tunnel field exactly when those of the new value agree or it is refused |
| ServerIDs.ConnectionStore.DeleteConnection | misc/server/store_memory.go:110-114 | the connection is gone, and ids keep agreeing with the tunnel field |
| ServerIDs.ConnectionStore.GetConnections | misc/server/store_memory.go:79-96 | exactly the connections whose tunnel field is the non-empty search id, and all for the empty one |

## Left out

- PipelineDelivery.PrefixDelivery: not claimed in source mode, where DATA can arrive between SendStreamStart and StartSocket (proxy/localproxy.go:304-316), nor for a stream id that is started twice in a session.
- PipelineProgress.DeadlockFreedom: one session only. stopAll leaves its workers in the map (client/workermanager.go:79-86), and start replaces a worker without stopping it (client/workermanager.go:21-23); what that means for a following session is not modelled.
- PipelineTheorems.ExecJoinsLatestLiveWorker: "latest" is the order of the calls of start; after stopAll the map still holds ended workers, so nothing is claimed of a later session.
- PipelineStops.ResetsAreFollowedByStop: workerManager.stop only starts a goroutine, so that the worker ends is not a matter of safety; that the goroutine can go on is PipelineProgress.DeadlockFreedom, and what it does PipelineTheorems.StopRemovesAStoppedWorker.
- PipelineStops.StopAllReachesWorkers: stopAll does not wait for a worker whose cancel channel another stop has closed (client/worker.go:65-71), so its end is not claimed.
- PipelineOutbound.OutboundDelivery: the service id that each message carries is not recorded, and of several sockets under one id only the order within each is stated (ReadersSendWhatTheyRead).
- RelayOrder.ContiguousSlice: a send on a channel that `run` has closed ends the process. The model has that state and stops in it; that it is never reached is not claimed, because `run` closes the channel before the other side is associated anew (misc/server/peerconnection.go:64-70, misc/server/peerconmanager.go:66-79).
- ServerIDs.ConnectionStore.Disconnect: get and update are one call, so the conflict of an update in between does not occur; updates at any time are UpdateConnection, and their interleavings are in TableRuns.
- RelayProgress.ProgressUnlessJammed: a jam by itself may end, when run goes on to start the writer; only the jam that LockedUp describes is shown to last. A lock of a single connection is taken as soon as no reader holds it, so writers pending on it are not modelled.
- Sockets.LocalSocket.Stop: the wait for the goroutine is modelled by running the goroutine to its end; waiting as such is in the pipeline.
- Workers.Worker.Exec: it returns while the channel is full and says so; blocking as such is in the pipeline.
- Workers.WorkerManager.Exec: likewise.
- Workers.Worker.Stop: as for LocalSocket.Stop; concurrent callers are in the pipeline.
- RelayManager.PeerConnection.Close: whether writing the close frame or closing the websocket fails is I/O and only logged; the method records the attempt.
- RelayManager.PeerConManager.CloseExpiredConnection: the clock is a value per tunnel; the sweep holds the manager's lock, so a connection being registered meanwhile is not part of it.
- StreamIDs.UniqueIff: one day. The time field starts over at midnight.
- ServerIDs.GenerateID: draws are arbitrary numbers below 62; how random they are is not modelled.
- Sockets.LocalSocketManager.StartSocket: starting the reader is RunReader; when it runs is in the pipeline.
- A critical section in which nothing can block is one step of the pipeline or the relay.
- Protobuf unmarshalling: the framing proofs assume that decoding an encoded message gives it back; only lengths are concrete.
- Listeners: one message listener, as the local proxy installs it; OnServiceIDs and the start of the local servers add only branches.
- Dialling, TLS, headers, ping and pong, logging, the command line, HTTP handlers: plumbing without a property of its own; they are nondeterministic answers where they matter.
- connectError, the Validate methods and the describe, list and debug services: each is settled by reading one branch. Only the two known modes reach the relay.
- Peer counters and client tokens of TunnelConnect: shared by reference and changed before UpdateTunnel, so the revisions of the table do not govern them.
- sendToPeer of the connection manager: the debug service queues a message of its own with it; a further producer, so the queue order of WireOrder would contain its messages too.
- TCPServer: its accept loop is the operating system's behaviour.
- The Unicode table of white space: a parameter of the parser.
