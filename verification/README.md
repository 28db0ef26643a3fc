# Verified model of a threaded chat client and server

The repository is a chat client and server in C, built from threads that talk through bounded message
queues: a connection thread and its network watcher at each end, a client module, a server module and an
auth worker in the server, and one state machine in the remote client. This project models those threads,
the data structures they share and the protocols between them, and proves what holds over every run.

Code that changes things in place is modelled by classes whose methods are proved against functions of the
old state; the protocols are state machines over those functions, so that a run is any interleaving of the
threads. Apart from what is left out, a step is one action that the queues and mutexes make atomic. The one
object with neither, a client's record of credentials, is read by the auth worker over two steps, so that
other threads' steps come in between. A null pointer, a missing message and a refused call are values, not
preconditions. Where the code asserts, reads through a null pointer or frees what another thread is reading,
the run ends; whether it can get there is then a theorem.

## How the files fit together

- `ChatEvent`, `WireFormat`, `ChatEventIo`, `EventStream`: the event record, its 72-byte header and text on
  the wire, the reader and the writer over their buffers, and whole streams cut into reads in any way.
- `MessageQueue`: the flat byte ring between threads, as a bounded FIFO.
- `NetworkWatcher`, `ChatConnection`, `WatchProtocol`: the two threads of a connection, each as code, and
  the protocol of watch, cancel, re-arm, flush and close between them. `CloseProtocol` is about the closes
  that lose an event, and those that cannot finish.
- `SharedPtr`, `ClientList`: counted references in explicit memory, with the recursive release, and the
  doubly linked list made of them.
- `ServerWorld`: the server's threads while open, with every reference that travels between them.
  `ServerReferences`, `ServerTransactions`, `ServerSteps`, `ServerReferenceSteps`, `ServerTransactionSteps`
  and `ServerPinning` hold the invariants, one operation at a time; `ServerRuns` holds the theorems.
  `ServerOrphans` is about transactions nobody will finish, `ServerCredentials` about who has
  credentials and whose are decided on, `ServerReading` about the worker's reading of them, `ServerFaults` and
  `ServerFaultRuns` about how a peer makes the server go wrong, `ServerPatience` about clients that wait for
  their answers, `Verdicts` about the way of a verdict to its client, `Broadcasts` about who is told what, and
  `Departures` about the way out. `ChatClients` and `ServerThreads` are the same steps as code.
- `ChatAuth`, `ChatClient`, `ClientSession`, `Login`: the users table and the auth worker, the remote client,
  the server's record of it, and the login between them, end to end, over a connection that delivers.
  `LoginStall` is the login over the connection as it is written.
- `ChatServer`, `ClientsShutdown`: closing down, with its fan-out and fan-in.

## Where the code departs from its intent

The model follows the code. Each departure below is a theorem with its exact condition, or an assumption
named under "Left out".

- A writer always offers its buffer from the first byte, so an event is intact exactly when it is written in
  one piece (`WireFormat.OnlyWholeWritesAreIntact`).
- Of several events completed by one read only the last is handed on (`WireFormat.HandedOnEverything`,
  `WireFormat.HandedOnIffSpread`).
- A connection stops writing with something left to write exactly in the cases of `WatchProtocol.StopsEarly`;
  `LoneEventIsHeldBack` and `CompletionBeatsCancel` are runs in which it does, and `MuteForever` says that
  nothing but another call gets it out.
- A CLOSE that is not forced loses an accepted event exactly when it finds the connection reading with an
  event in the writer, or the peer has gone (`CloseProtocol.CloseLoses`, `CloseDropsTheEvent`).
- A CLOSE never finishes exactly when it finds a connection whose completion beat its cancel
  (`CloseProtocol.CloseSticks`, `FinishesExactly`, `StuckForever`; `WedgedCloseIsStuck` is a run that ends so).
  The client module closes only with the last of its connections (`ClientsShutdown.ClosesWithTheLast`), so
  that the server's own shutdown then waits for it for ever.
- A login stalls at its first prompt. The connection never writes a lone event
  (`WatchProtocol.LoneEventNeverSent`), and the first prompt is one, so that no client is ever asked for its
  name (`LoginStall.LoginStallsAtFirstPrompt`). What `Login` proves is about a connection that delivers.
- Apart from what is left out, the open server's steps go wrong in exactly three ways
  (`ServerFaults.FaultsExactly`). A name or password submitted once its client has been told that it is logged
  in is looked up through credentials that are gone. The finishing of a null transaction fails an assert. And
  a submission handled while the worker is reading its client's credentials frees or replaces what is read.
  `ServerFaultRuns.SubmittingWhenActive`, `ServerFaultRuns.SubmittingTwice` and
  `ServerFaultRuns.SubmittingWhileRead` are runs that come to each.
- A string of exactly the buffer's size is cut and reported as a success (`ChatEvent.PopulateKeepsText`,
  `ChatEvent.PopulateReports`).
- The functions that announce an arrival and a departure end without returning a value, and their callers
  assert that it was a success (`server/chat_clients/src/chat_clients_internal.c:354-431`); it is taken to be.
- After skipping an oversize event the reader is left beyond the end of its buffer
  (`ChatEventIo.EventReader.ReadFromFd`).
- A client that leaves twice is announced to nobody: the second leave takes it for one outside the chat
  (`Departures.LeaverIsAnnounced`).
- A password that is submitted after a name is left with the next name if that one is rejected, though a name
  given in place of a password clears it (`ClientSession.NameTaken`, `ClientSession.PasswordOutlivesName`). A
  client that waits never leaves one (`Login.NameComesAlone`).
- A password submission leaves the client in a state in which it may submit again, and the second
  transaction's address overwrites the first's, which is then never freed. That is the only way in which a
  transaction can be lost (`ServerOrphans.OrphanedExactlyBy`). Where no client's submission is handled with
  an answer outstanding for it, none is lost and no null one finished (`ServerPatience.PatienceFinishesAll`),
  and only the first of those three ways is left (`ServerPatience.PatienceLeavesOneFault`).

## Model

| member | source | states |
|---|---|---|
| ChatEvent.CString | common/common_types/src/common_types.c:107 | what "%s" prints of a buffer: the bytes before its first zero |
| ChatEvent.PrintStringToBuffer | common/common_types/src/common_types.c:92-135 | the buffer holds the cut string, a zero and its old bytes; the status and the printed length, with the comparison the code makes |
| ChatEvent.PrintedReadsBack | common/common_types/src/common_types.c:107-126 | the string reads back whole if and only if the buffer has room for its terminator; nothing behind the terminator is touched |
| ChatEvent.EventBuffer.Populate | common/chat_event/src/chat_event.c:20-56 | fills the record field by field, and on a failure only up to it |
| ChatEvent.EventBuffer.CopyFrom | common/chat_event/src/chat_event.c:10-17 | a copy is a populate from the source's own strings; the source is untouched |
| ChatEvent.PopulateKeepsText | common/chat_event/src/chat_event.c:31-53 | a well-formed event with the given strings comes out if and only if both fit with their terminators |
| ChatEvent.PopulateReports | common/chat_event/src/chat_event.c:20-53 | a failure is reported if and only if a string is longer than its buffer, and leaves the length, and for a name the text; a success cuts a string off if and only if one fills its whole buffer |
| ChatEvent.CopyIsIdentity | common/chat_event/src/chat_event.c:10-17 | copying changes nothing that a receiver may look at |
| WireFormat.ShortOrder | common/chat_event_io/src/chat_event_io_fsm_writer.c:68 | the 16-bit network order has the high byte first, and reading it back gives the number |
| WireFormat.LongOrder | common/chat_event_io/src/chat_event_io_fsm_writer.c:62 | the 32-bit network order has the highest byte first, and reading it back gives the number |
| WireFormat.LayoutOf | common/chat_event_io/src/chat_event_io_fsm_writer.c:62-71 | byte by byte: type in 0 to 3 and length in 70 and 71, high byte first, name in 4 to 68, a zero, and the text from 72 |
| WireFormat.DecodedAt | common/chat_event_io/src/chat_event_io.c:113-129 | the same positions and orders of what is read out |
| WireFormat.DecodeEncode | common/chat_event_io/src/chat_event_io.c:113-129 | extraction undoes the writer's layout, whatever follows on the stream |
| WireFormat.ParseEncodeAll | common/chat_event_io/src/chat_event_io.c:88-138 | a stream of encoded events parses to exactly those events |
| WireFormat.ParseResumes | common/chat_event_io/src/chat_event_io.c:126-137 | parsing may stop anywhere and carry its rest over |
| WireFormat.ParsePrefix | common/chat_event_io/src/chat_event_io.c:88-138 | consumed bytes are the encodings of the events taken out and what is still in the buffer |
| WireFormat.ChunkIndependent | common/chat_event_io/src/chat_event_io_fsm_reader.c:16-64 | any splitting into reads yields the parse of the whole stream |
| WireFormat.StreamRoundTrip | common/chat_event_io/src/chat_event_io_fsm_reader.c:16-64 | a stream of encoded events arrives whole and in order however it is cut |
| WireFormat.HandedOnEverything | common/chat_connection/src/chat_connection_fsm.c:36-53 | nothing received is dropped if and only if no read completes two events |
| WireFormat.HandedOnIffSpread | common/chat_connection/src/chat_connection_fsm.c:36-53 | of a stream of encoded events every one is handed on if and only if no chunk holds the last bytes of two of them |
| WireFormat.NewestHandedOn | common/chat_connection/src/chat_connection_fsm.c:36-53 | the newest event received is always handed on, as the last |
| WireFormat.OnlyWholeWritesAreIntact | common/chat_event_io/src/chat_event_io_fsm_writer.c:25-45 | all events of a length reach the wire intact if and only if they are written in one piece |
| ChatEventIo.EventReader.DoRead | common/chat_event_io/src/chat_event_io_fsm_reader.c:16-64 | appends what read() returned and reports whether an event is complete, oversize or neither |
| ChatEventIo.GivesUpExactly | common/chat_event_io/src/chat_event_io_fsm_reader.c:38-64 | a header is given up as oversize if and only if nothing that may still come into the buffer would complete its event; a full buffer is never waited on |
| ChatEventIo.EventReader.DoFlush | common/chat_event_io/src/chat_event_io_fsm_reader.c:67-101 | skips part of an oversize event |
| ChatEventIo.EventReader.ReadFromFd | common/chat_event_io/src/chat_event_io_fsm_reader.c:104-208 | both reader states and their transitions; after skipping, the count stays beyond the buffer |
| ChatEventIo.EventReader.ExtractReadEvent | common/chat_event_io/src/chat_event_io.c:88-138 | takes the first complete event out of the buffer, each field from its bytes, moves the rest down, and says whether another is complete; a skipping reader has none |
| ChatEventIo.EventWriter.Populate | common/chat_event_io/src/chat_event_io_fsm_writer.c:58-75 | the buffer starts with the event's encoding, stated byte by byte; a text over 1024 bytes is refused; a busy writer loses its event and keeps its count of written bytes |
| ChatEventIo.EventWriter.WriteToFd | common/chat_event_io/src/chat_event_io_fsm_writer.c:16-47 | one write takes bytes from the start of the buffer and counts them as progress, or fails and changes nothing |
| ChatEventIo.WriteEvent | common/chat_event_io/src/chat_event_io_fsm_writer.c:93-117 | an event written in pieces; in one piece, the wire carries its encoding |
| ChatEventIo.DrainEvents | common/chat_connection/src/chat_connection_fsm.c:36-53 | the extraction loop takes out the parse of the buffer, and the one event it hands on is the last |
| ChatEventIo.ReadReady | common/chat_connection/src/chat_connection_fsm.c:16-55 | one read and the extraction loop, in either reader state and with a full buffer: the batch is the parse of what arrived, and its last event is handed on |
| EventStream.ReceiveAll | common/chat_connection/src/chat_connection_fsm.c:16-55 | read after read, the buffers of the code take out exactly the parse of everything that arrived |
| EventStream.EncodedNeverOversize | common/chat_event_io/src/chat_event_io_fsm_reader.c:52-56 | a stream of writable events never sends the reader skipping |
| EventStream.EndToEnd | common/chat_event_io/src/chat_event_io.c:113-129 | texts populated, copied, written whole and cut anyhow come out with the same types, names and texts in order |
| MessageQueue.SlotsDisjoint | common/message_queue/src/message_queue.c:82-92 | slots do not overlap |
| MessageQueue.RingAppends | common/message_queue/src/message_queue.c:82-95 | writing the slot behind the last message appends it and disturbs no other |
| MessageQueue.RingDropsFirst | common/message_queue/src/message_queue.c:195-200 | advancing the front drops exactly the oldest |
| MessageQueue.MessageQueue.Put | common/message_queue/src/message_queue.c:57-102 | appends, or changes nothing when full or given too much |
| MessageQueue.MessageQueue.Peek | common/message_queue/src/message_queue.c:151-171 | the oldest message, and no change |
| MessageQueue.MessageQueue.Get | common/message_queue/src/message_queue.c:174-207 | takes the oldest message off |
| MessageQueue.MessageQueue.GetCount | common/message_queue/src/message_queue.c:134-148 | how many are queued, at most the capacity |
| MessageQueue.RunRefinesFifo | common/message_queue/src/message_queue.c:57-207 | over any run of full-size operations the ring is a bounded FIFO |
| MessageQueue.FirstInFirstOut | common/message_queue/src/message_queue.c:57-207 | over any run of puts and gets, what was taken and what waits are what was accepted, in that order, within the capacity |
| MessageQueue.BurstFills | common/message_queue/src/message_queue.c:57-97 | of a burst of puts exactly the first are kept, up to the capacity |
| NetworkWatcher.Watcher.StartWatch | common/network_watcher/src/network_watcher.c:108-149 | empties the pipe, then queues the watch; a watch for nothing is refused |
| NetworkWatcher.Watcher.Close | common/network_watcher/src/network_watcher.c:179-203 | interrupts first, then queues the stop |
| NetworkWatcher.Watcher.OpenProcessing | common/network_watcher/src/network_watcher_fsm.c:54-123 | one reply for a watch, in which the pipe wins and only requested modes are reported; none for a stop |
| NetworkWatcher.Watcher.ThreadEntry | common/network_watcher/src/network_watcher_fsm.c:147-172 | every watch up to the stop is answered once and in order, the stop last |
| ChatConnection.WriteReadyConserves | common/chat_connection/src/chat_connection_fsm.c:57-104 | the writing loop loses, duplicates and reorders nothing and overwrites no half-written event |
| ChatConnection.WriteReadyProgresses | common/chat_connection/src/chat_connection_fsm.c:57-104 | it strictly shrinks what is left to write |
| ChatConnection.WriteReadyLeaves | common/chat_connection/src/chat_connection_fsm.c:57-104 | which events a wake sends and what it leaves, from the sizes of the events and of the writes alone |
| ChatConnection.WriteReadySends | common/chat_connection/src/chat_connection_fsm.c:57-104 | what it sends are the events written whole, in order, and the next keeps exactly the bytes its write has taken |
| ChatConnection.ClosesExactly | common/chat_connection/src/chat_connection_fsm.c:107-433 | a live connection starts to close if and only if it is made to at once, a CLOSE finds it only reading, a read finds its peer gone, with or without anything pending, or a reply finds it flushing with nothing left |
| ChatConnection.MovesExactly | common/chat_connection/src/chat_connection_fsm.c:107-433 | every other change of state, each with its exact cause |
| ChatConnection.AsksExactly | common/chat_connection/src/chat_connection_fsm.c:107-433 | when it asks for which watch and when it interrupts one: it listens unless it is flushing, and watches for writing behind a queue |
| ChatConnection.TakesInExactly | common/chat_connection/src/chat_connection_fsm.c:133-147 | an event is taken in, behind all others, exactly while the connection listens |
| ChatConnection.HandleConserves | common/chat_connection/src/chat_connection_fsm.c:107-433 | no handler loses, duplicates or reorders an accepted event |
| ChatConnection.FlushingHandles | common/chat_connection/src/chat_connection_fsm.c:357-433 | a flushing connection takes nothing new, closes only when nothing is left, and otherwise makes progress |
| ChatConnection.HandleWritesOnlyWhenReady | common/chat_connection/src/chat_connection_fsm.c:107-433 | nothing is written but on a write-ready completion |
| ChatConnection.ChatConnection.WriteReadyLoop | common/chat_connection/src/chat_connection_fsm.c:57-104 | the do-while loop computes the recursive writing function |
| ChatConnection.ChatConnection.ReadingProcessing | common/chat_connection/src/chat_connection_fsm.c:107-168 | state, writer, queue and the call on the watcher, for each message |
| ChatConnection.ChatConnection.ReadingWritingProcessing | common/chat_connection/src/chat_connection_fsm.c:171-259 | the same in READING_WRITING, with the re-arming test as the code makes it |
| ChatConnection.ChatConnection.CancellingProcessing | common/chat_connection/src/chat_connection_fsm.c:262-354 | the same in CANCELLING, where a completion does not re-arm |
| ChatConnection.ChatConnection.FlushingProcessing | common/chat_connection/src/chat_connection_fsm.c:357-433 | the same in FLUSHING |
| ChatConnection.ChatConnection.ClosingProcessing | common/chat_connection/src/chat_connection_fsm.c:436-451 | only the watcher's notice ends CLOSING |
| ChatConnection.ChatConnection.DispatchMessage | common/chat_connection/src/chat_connection_fsm.c:454-493 | one turn of the thread is one step of the protocol's machine |
| WatchProtocol.StepKeepsInv | common/chat_connection/src/chat_connection_fsm.c:107-433 | every step of either thread or of a caller keeps the joint invariant |
| WatchProtocol.SingleWatch | common/network_watcher/src/network_watcher.c:108-203 | in every reachable state at most one watch is outstanding, counting every command queued, exactly one and no interrupt in the two open states; the queue holds at most one watch and behind it at most one stop |
| WatchProtocol.DeadBranches | common/chat_connection/src/chat_connection_fsm.c:303-316 | the branches marked as unreachable, and the no-op else, are never taken |
| WatchProtocol.OutgoingConserved | common/chat_connection/src/chat_connection_fsm.c:57-104 | accepted events are those written, the one in the writer and those queued, in that order |
| WatchProtocol.WatcherNotStuck | common/network_watcher/src/network_watcher_fsm.c:92-120 | once a close is queued the watcher always has a step to take until it halts, whatever watch is ahead |
| WatchProtocol.WatcherHalts | common/network_watcher/src/network_watcher_fsm.c:92-120 | each of its steps brings the halt one closer, and nobody defers it |
| WatchProtocol.CloseReachesHalt | common/network_watcher/src/network_watcher_fsm.c:147-172 | on any schedule it halts with at most its sixth step |
| WatchProtocol.ConnectionExitsOnce | common/chat_connection/src/chat_connection_fsm.c:512-536 | the connection then needs a bounded number of its own steps, and reports CLOSED exactly once |
| WatchProtocol.FlushBeforeClose | common/chat_connection/src/chat_connection_fsm.c:357-433 | unless forced, a flushing connection closes only with every accepted event written |
| WatchProtocol.FlushProgresses | common/chat_connection/src/chat_connection_fsm.c:357-416 | the work left never grows while flushing and shrinks with every write-ready wake |
| WatchProtocol.MuteStays | common/chat_connection/src/chat_connection_fsm.c:107-433 | a connection without a watch for writing writes nothing and stays so until a new event or close |
| WatchProtocol.StopsEarly | common/chat_connection/src/chat_connection_fsm.c:171-302 | writing stops, without a close, with something left to write if and only if a completion arrives while cancelling, or one without write readiness, or the writes it allows end within the last pending event |
| WatchProtocol.MuteForever | common/chat_connection/src/chat_connection_fsm.c:107-433 | over any run without a further event or close, what is unsent stays unsent |
| WatchProtocol.LoneEventIsHeldBack | common/chat_connection/src/chat_connection_fsm.c:82-101 | a run in which a single event stays in the writer |
| WatchProtocol.LoneEventNeverSent | common/chat_connection/src/chat_connection_fsm.c:57-104 | in no run, on any schedule, does a connection that is given one event and not closed write any of it |
| WatchProtocol.CompletionBeatsCancel | common/chat_connection/src/chat_connection_fsm.c:271-302 | a run in which a completion that races the cancel leaves no watch at all |
| CloseProtocol.ReadingHasNoQueue | common/chat_connection/src/chat_connection_fsm.c:191-259 | in every reachable state a connection that only reads has nothing queued, though it may have an event in the writer |
| CloseProtocol.ClosesWhen | common/chat_connection/src/chat_connection_fsm.c:107-433 | over every run, the same exact condition for starting to close |
| CloseProtocol.CloseLoses | common/chat_connection/src/chat_connection_fsm.c:107-433 | an unforced close loses an accepted event if and only if it is a CLOSE handled while reading with a busy writer, or follows the peer's own close with something left once this wake's writes are done |
| CloseProtocol.LostForGood | common/chat_connection/src/chat_connection_fsm.c:436-451 | what a closing connection has not written is never written |
| CloseProtocol.CloseDropsTheEvent | common/chat_connection/src/chat_connection_fsm.c:107-168 | a run in which a CLOSE drops the only event of a connection |
| CloseProtocol.StuckForever | common/chat_connection/src/chat_connection_fsm.c:357-433 | a flushing connection without a watch outstanding never closes and never reports, over any run in which the close is not forced |
| CloseProtocol.WedgedCloseIsStuck | common/chat_connection/src/chat_connection_fsm.c:262-354 | such a state is reachable by one CLOSE after a completion has beaten the cancel |
| CloseProtocol.CanFinish | common/chat_connection/src/chat_connection_fsm.c:357-433 | with a watch outstanding there is a run that closes behind a full flush without force, from wherever the watch is |
| CloseProtocol.FinishesExactly | common/chat_connection/src/chat_connection_fsm.c:357-433 | a flushing connection can close without force if and only if a watch is outstanding |
| CloseProtocol.CloseSticks | common/chat_connection/src/chat_connection_fsm.c:262-354 | a CLOSE becomes one that cannot finish if and only if it is handled while cancelling with no watch outstanding |
| SharedPtr.CreatedCounted | common/shared_ptr/src/shared_ptr.c:19-44 | creating keeps counts equal to holders |
| SharedPtr.SharedCounted | common/shared_ptr/src/shared_ptr.c:53-72 | sharing keeps counts equal to holders |
| SharedPtr.MovedCounted | server/chat_clients/src/chat_clients_fsm.c:74 | passing a reference on without counting keeps counts equal to holders |
| SharedPtr.Released | common/shared_ptr/src/shared_ptr.c:81-113 | the recursive release terminates, empties only that slot and those inside freed records, and frees a record only when its count reaches zero |
| SharedPtr.ReleasedHealthy | common/shared_ptr/src/shared_ptr.c:91-112 | afterwards nothing without a holder survives and nothing held is freed |
| SharedPtr.ReleasedOfMany | common/shared_ptr/src/shared_ptr.c:88-92 | releasing one reference of several only counts down |
| SharedPtr.Memory.Create | common/shared_ptr/src/shared_ptr.c:19-44 | a new record with one holder |
| SharedPtr.Memory.Share | common/shared_ptr/src/shared_ptr.c:53-72 | one more holder; sharing null gives null |
| SharedPtr.Memory.Release | common/shared_ptr/src/shared_ptr.c:81-113 | the recursive method computes the release |
| ClientList.AppendedLinked | server/chat_clients/src/chat_clients_fsm.c:62-76 | appending refines appending to a sequence, in both directions of the links |
| ClientList.UnlinkedLinked | server/chat_clients/src/chat_clients_internal.c:505-526 | unlinking a head, tail, middle or only client refines removing it from the sequence |
| ClientList.UnlinkedKeeps | server/chat_clients/src/chat_clients_internal.c:505-526 | what an unlinked client keeps links to is still listed |
| ClientList.UnlinkedFrame | server/chat_clients/src/chat_clients_internal.c:505-526 | no reference but the list's own is touched |
| ClientList.ReleaseKeepsLinks | common/shared_ptr/src/shared_ptr.c:81-113 | releasing a reference that is not the list's own frees no listed client and leaves the list linked |
| ClientList.ClientList.Append | server/chat_clients/src/chat_clients_fsm.c:62-76 | the list grows by the new client and counts stay right |
| ClientList.ClientList.Bypass | server/chat_clients/src/chat_clients_internal.c:505-514 | both neighbours point past the client |
| ClientList.ClientList.Unlink | server/chat_clients/src/chat_clients_internal.c:505-526 | the relinking frees nothing and leaves every count right |
| ClientList.ClientList.ClientClose | server/chat_clients/src/chat_clients_internal.c:499-530 | unlinks the client and releases the notice's reference |
| ServerReferenceSteps.StepIsSafe | server/chat_clients/src/chat_clients_fsm.c:48-190 | no step that does not go wrong follows a dangling pointer, to a client, to a record of credentials or to a transaction |
| ServerReferenceSteps.StepKeepsReferences | server/chat_clients/src/chat_clients_fsm.c:48-190 | every step of the open server keeps counts, list, stale links and notices in order |
| ServerReferences.UnlinkKeepsStale | server/chat_clients/src/chat_clients_internal.c:505-526 | stale links go only to clients listed still or unlinked later |
| ServerTransactionSteps.StepKeepsTransactions | server/chat_auth/src/chat_auth_fsm.c:24-78 | every step keeps transactions queued once until processed and finishable through one address |
| ServerTransactions.TransactionProcessed | server/chat_auth/src/chat_auth_fsm.c:24-78 | processing takes the transaction off the queue, and frees it if it had been finished already |
| ServerTransactions.TransactionFinished | server/chat_auth/src/chat_auth.c:222-263 | finishing cancels an unprocessed transaction and frees a done one; it never meets a cancelled one |
| ServerPinning.AdvisedPinned | server/chat_clients/src/chat_clients_fsm.c:91-170 | an answered client needs nothing in flight any more, and everybody else keeps theirs |
| ServerRuns.StepKeepsInv | server/chat_server/src/chat_server_fsm.c:49-175 | every step is safe and keeps all the invariants of the open server together |
| ServerRuns.CountsAreHolders | server/chat_clients/src/chat_clients_fsm.c:48-190 | in every reachable state each count is the number of holders, in the list, the records, the connections and whatever is queued, and is positive |
| ServerRuns.NoUseAfterFree | server/chat_clients/src/chat_clients_fsm.c:91-187 | apart from what is left out, any step that can be taken follows no dangling pointer and leads on to a reachable state, unless it goes wrong in one of the three ways characterised below |
| ServerCredentials.CredentialsOfReachable | server/chat_clients/src/chat_clients_fsm.c:130-154 | in every reachable state a client has its credentials if and only if it has not been told that it is logged in |
| ServerCredentials.AdmittedExactly | server/chat_clients/src/chat_clients_fsm.c:130-154 | who has been told: exactly those an AUTHENTICATED event has been handled for since their record was created |
| ServerFaults.FaultsExactly | server/chat_clients/src/chat_clients_internal.c:93-273 | for any number of clients and whatever they send, apart from what is left out, a step goes wrong if and only if it handles a submission of a client that has been told before that it is logged in, or one that starts a login for the very client whose credentials the worker is reading, or finishes a null transaction |
| ServerReading.InterferesExactly | server/chat_clients/src/chat_clients_internal.c:148-165 | the record that the next submission rewrites is the one being read if and only if the worker's verdict is for the submitting client, which has not been admitted yet |
| ServerReading.ReadStays | server/chat_auth/src/chat_auth_fsm.c:26-78 | a step that does not go wrong leaves the worker reading the same record by the same message and transaction, and neither frees nor rewrites it |
| ServerReading.ReadStaysThroughout | server/chat_auth/src/chat_auth_internal.c:110-234 | so over any run, from when the worker starts to when it decides, what it reads stays as it was |
| ServerFaults.NullFinishQueued | server/chat_clients/src/chat_clients_fsm.c:162-167 | a null transaction is sent to be finished if and only if an auth event meets a client whose transaction is null |
| ServerFaultRuns.LaterSubmissionFaults | server/chat_clients/src/chat_clients_internal.c:107-108 | in any reachable world with nothing queued for the client module, a further name or password from a connected client that has been told it is logged in stops the server when handled |
| ServerFaultRuns.SubmittingWhenActive | server/chat_clients/src/chat_clients_internal.c:203-204 | such a world is reachable: a client logs in with a new name and then submits again |
| ServerFaultRuns.SubmittingTwice | server/chat_server/src/chat_server_fsm.c:67-72 | a reachable world in which the server is about to finish a null transaction, and has lost another: a client submits its password twice before the first is answered |
| ServerFaultRuns.SubmittingWhileRead | server/chat_clients/src/chat_clients_internal.c:248-260 | a reachable world in which the worker is reading a client's credentials and that client's next name or password is about to replace them, where either thread may go first |
| ServerPatience.StepKeepsAnswers | server/chat_clients/src/chat_clients_internal.c:244-260 | any step that takes no submission of a client with an answer outstanding keeps at most one answer due to each client, and its transaction's address with it |
| ServerPatience.PatienceOverwritesNone | server/chat_clients/src/chat_clients_internal.c:253-259 | in runs of such steps, with any number of clients, no transaction's address is ever overwritten |
| ServerPatience.PatienceFinishesAll | server/chat_auth/src/chat_auth.c:222-263 | in such runs no transaction is lost, none is finished before it is done, and no null one is sent to be finished |
| ServerPatience.PatienceNeverInterferes | server/chat_clients/src/chat_clients_internal.c:148-175 | in any reachable world a submission of a client with no answer outstanding rewrites no record that is being read |
| ServerPatience.PatienceLeavesOneFault | server/chat_clients/src/chat_clients_internal.c:103-108 | in such runs a step goes wrong if and only if it handles a submission of a client that has been told that it is logged in |
| ServerCredentials.DecidesOnOwn | server/chat_auth/src/chat_auth_fsm.c:26-78 | in every reachable state the credentials the worker decides on next are a live record, that of the client the verdict goes to unless it has been admitted since, and never another client's |
| ServerRuns.ListIsLinked | server/chat_clients/src/chat_clients_internal.c:499-530 | in every reachable state the list is linked both ways and holds live clients |
| ServerRuns.NoCycleSurvives | server/chat_clients/src/chat_clients_internal.c:533-560 | while any unlinked client is allocated, a message or transaction holds an unlinked client: stale links alone keep nothing alive |
| ServerRuns.NothingLeaksWhenQuiet | common/shared_ptr/src/shared_ptr.c:91-112 | with the queues drained exactly the listed clients are allocated |
| ServerRuns.LoginIsPinned | server/chat_clients/src/chat_clients_internal.c:160-175 | a client being logged in, or with a transaction, is held by something in flight, whatever its peer sends |
| ServerRuns.DestroysSafely | server/chat_clients/src/chat_clients_internal.c:533-560 | a destroyed client is not being logged in, has no transaction, and its connection has closed |
| ServerRuns.FreedBySecond | server/chat_auth/src/chat_auth.c:234-262 | a transaction is freed in exactly two cases: processed after it was finished, finished after it was processed |
| ServerRuns.ProcessedOnce | server/chat_auth/src/chat_auth_fsm.c:26-77 | it is processed once; its credentials' reference is given up, its consumer's passed on or given up |
| ServerOrphans.OrphanedExactlyBy | server/chat_clients/src/chat_clients_internal.c:246-260 | a transaction is lost if and only if its address is overwritten by a second submission |
| ServerOrphans.NeverFreed | server/chat_auth/src/chat_auth.c:193-211 | a lost transaction stays allocated in every continuation of the run |
| Verdicts.VerdictsArrive | server/chat_server/src/chat_server_fsm.c:129-175 | over any run, the verdicts that clients are told are those the worker has decided, for the same clients and in the same order, but for those still under way: none is lost, repeated, changed or sent to another client |
| Verdicts.MovesExactly | server/chat_clients/src/chat_clients_fsm.c:91-190 | nothing but a client's own messages changes its state, and what each verdict, submission and leave does is told state by state |
| Verdicts.StartsOut | server/chat_clients/src/chat_clients_fsm.c:48-89 | a new client is listed last, waits for the verdict on a login, and the server's queue has the message that starts it, with a reference to that client |
| Departures.EventsAreOfListed | server/chat_clients/src/chat_clients_cback.c:14-75 | in every reachable state a queued event is from a client that is still listed: its connection's notice comes after all of its events |
| Departures.LeaverIsAnnounced | server/chat_clients/src/chat_clients_internal.c:276-294 | over any run between a client's leave and its connection's notice, its departure is announced, to exactly the listed active others and to each once, if it was active when it left, and to nobody if it was not |
| Departures.LostIsAnnounced | server/chat_clients/src/chat_clients_internal.c:391-431 | a client whose connection closes while it is active is announced to the same without a leave |
| Broadcasts.TellExactly | server/chat_clients/src/chat_clients_internal.c:53-68 | the broadcast loop reaches the listed active clients other than its source, each once, and nobody else |
| Broadcasts.AnnouncedExactly | server/chat_clients/src/chat_clients_internal.c:32-70 | whatever the peers send, a step announces a message, an arrival or a departure if and only if its source's state allows it, to exactly the listed active clients but the source |
| Broadcasts.OnlyAdmittedTakePart | server/chat_clients/src/chat_clients_internal.c:354-431 | in every run only clients told that they are logged in are announced to, and only theirs are the messages and departures announced |
| ChatClients.ChatClients.Announce | server/chat_clients/src/chat_clients_internal.c:372-387 | the loop along the next chain queues those announcements in list order |
| ChatClients.ChatClients.OutroduceUser | server/chat_clients/src/chat_clients_internal.c:391-431 | a departure is announced for a client in the chat or leaving it, and for no other |
| ChatClients.ChatClients.Admit | server/chat_clients/src/chat_clients_fsm.c:130-154 | an authenticated client becomes active, gives up its credentials and is announced to the others |
| ChatClients.ChatClients.AddClient | server/chat_clients/src/chat_clients_internal.c:434-482 | creating a client, its credentials and its connection, and linking it in, is the machine's opening |
| ChatClients.ChatClients.StartAuthTransaction | server/chat_server/src/chat_server_cback.c:26-38 | the callback's two shares go into the message |
| ChatClients.ChatClients.AuthEvent | server/chat_clients/src/chat_clients_fsm.c:91-170 | an auth event's effect on client, credentials and transaction, and whom it announces |
| ChatClients.ChatClients.IncomingEvent | server/chat_clients/src/chat_clients_internal.c:32-332 | a submission's, a leave's or a message's effect on the references, and whom it announces |
| ChatClients.ChatClients.CloseClient | server/chat_clients/src/chat_clients_fsm.c:180-190 | a close notice announces the departure, takes the client off the list and is released |
| ChatClients.ChatClients.HandleNext | server/chat_clients/src/chat_clients_fsm.c:29-190 | the open client module's code does exactly the machine's step, to memory, clients and queues, and announces what the machine's step does |
| ChatClients.ChatClients.Deliver | server/chat_clients/src/chat_clients_cback.c:27-45 | a connection's event is queued with a share of its reference |
| ChatClients.ChatClients.Closed | server/chat_clients/src/chat_clients_cback.c:60-75 | the last callback queues its notice and gives up the connection's reference |
| ServerThreads.ServerThreads.ServerHandleNext | server/chat_server/src/chat_server_fsm.c:49-175 | the server's code does exactly the machine's step |
| ServerThreads.ServerThreads.AuthStartNext | server/chat_auth/src/chat_auth_fsm.c:26-42 | with the transaction's mutex taken and its state looked at, the worker goes on to the credentials: the machine's first step of the two |
| ServerThreads.ServerThreads.AuthHandleNext | server/chat_auth/src/chat_auth_fsm.c:30-78 | the rest of the worker's code does exactly the machine's second step, with the verdict that the table gives on what the record behind its message holds |
| ChatAuth.AuthenticatedKnows | server/chat_auth/src/chat_auth_internal.c:110-234 | authenticated if and only if the given password is the one stored once it is over; no stored password changes, and a new row is the caller's |
| ChatAuth.TableIsSound | server/chat_auth/src/chat_auth_internal.c:137-220 | over any sequence of decisions there are never two rows for a name, and a name's password never changes |
| ChatAuth.StoredIsFirst | server/chat_auth/src/chat_auth_internal.c:29-33 | the stored password is that of the first row for the name |
| ChatAuth.VerdictsExactly | server/chat_auth/src/chat_auth_internal.c:110-234 | each of the six verdicts if and only if: no name, a name too long, unknown or known without a password, the first row's password or another |
| ChatAuth.AddsExactly | server/chat_auth/src/chat_auth_internal.c:191-218 | a row is added if and only if the name fits and is unknown and a password is given, and is those two |
| ChatAuth.Auth.SelectFirst | server/chat_auth/src/chat_auth_internal.c:143-157 | the search finds the first row for a name if there is one |
| ChatAuth.Auth.AuthUser | server/chat_auth/src/chat_auth_internal.c:110-234 | the decision, the new table and the name printed for the caller |
| ChatAuth.Auth.SubmitCredentials | server/chat_auth/src/chat_auth.c:191-212 | a new transaction is queued and its address handed out |
| ChatAuth.Auth.FinishTransaction | server/chat_auth/src/chat_auth.c:222-263 | cancels, ignores or frees, by the transaction's state; a null address is refused |
| ChatAuth.Auth.ProcessNext | server/chat_auth/src/chat_auth_fsm.c:24-78 | a cancelled transaction is dropped without a verdict; any other is judged by what its message's reference leads to, done and parts with its consumer |
| ChatClient.ClosesOnce | client/chat_client/src/chat_client_fsm.c:21-375 | over any messages the connection is closed at most once, exactly if a leave was sent, which is then the last thing sent |
| ChatClient.InputSends | client/chat_client/src/chat_client_fsm.c:279-296 | input is sent as it is, as the name or the password asked for or as chat once joined, and otherwise not; only an answer to a prompt changes the state |
| ChatClient.EventMoves | client/chat_client/src/chat_client_internal.c:54-222 | which of the server's events changes the client, from which states, to which, and what it answers |
| ChatClient.EndsExactly | client/chat_client/src/chat_client_fsm.c:131-166 | how it leaves, is disconnected, and is closed by the other of the two |
| ChatClient.ChatClient.HandleIncomingEvent | client/chat_client/src/chat_client_internal.c:197-222 | the handler table's effect on state, name and what is sent |
| ChatClient.ChatClient.AuthEntryInput | client/chat_client/src/chat_client_fsm.c:84-130 | input at a prompt is sent as what was asked for, and the client goes on to verifying |
| ChatClient.ChatClient.DispatchMessage | client/chat_client/src/chat_client_fsm.c:378-430 | one message, in any state |
| ClientSession.NameTaken | server/chat_clients/src/chat_clients_internal.c:110-186 | when a name is taken, and that it is left alone in the credentials if and only if no password was there or it was a password that was asked for |
| ClientSession.PasswordTaken | server/chat_clients/src/chat_clients_internal.c:206-273 | when a password is taken, next to the name and with the state as it was |
| ClientSession.OthersTaken | server/chat_clients/src/chat_clients_internal.c:73-90 | a request is answered with the known name, and a leave is told from being logged in |
| ClientSession.VerdictTold | server/chat_clients/src/chat_clients_fsm.c:103-169 | the prompt and the state for each verdict, and what a welcome keeps and lets go of |
| ClientSession.PasswordOutlivesName | server/chat_clients/src/chat_clients_internal.c:148-175 | a password given after a name that is then rejected is left with the next name |
| ClientSession.ClientRecord.HandleUsernameSubmit | server/chat_clients/src/chat_clients_internal.c:93-186 | every branch, with the fall-through that clears the password |
| ClientSession.ClientRecord.HandlePasswordSubmit | server/chat_clients/src/chat_clients_internal.c:189-273 | every branch, with the state left as it was |
| ClientSession.ClientRecord.ProcessEvent | server/chat_clients/src/chat_clients_internal.c:304-332 | the handler table; state, logins started and records rewritten are as the server's machine has them |
| ClientSession.ClientRecord.HandleAuthEvent | server/chat_clients/src/chat_clients_fsm.c:103-169 | state, name, prompt, credentials and the transaction handed back, for each step |
| Login.StepKeepsPhase | server/chat_server/src/chat_server_fsm.c:129-175 | every step of client, network, server or worker keeps the handshake's one token in place or moves it on |
| Login.OneToken | client/chat_client/src/chat_client_internal.c:54-153 | in every reachable state exactly one handshake message or open prompt exists until the client has joined, and none after |
| Login.OneTransaction | server/chat_clients/src/chat_clients_fsm.c:162-168 | at most one auth transaction exists for the client, and a finish message names it, done |
| Login.NoPromptIgnored | client/chat_client/src/chat_client_internal.c:54-153 | no prompt finds the client in a state that ignores it |
| Login.NoSubmissionRefused | server/chat_clients/src/chat_clients_internal.c:177-184 | the branches that answer that a submission cannot be processed now are never taken |
| Login.NameComesAlone | server/chat_clients/src/chat_clients_internal.c:148-175 | for a client that waits, every name is submitted without a password |
| Login.NameGoesToTheFirst | server/chat_auth/src/chat_auth_internal.c:169-232 | if another client registers a new name while this one's password for it is being verified, this one is rejected unless the passwords are the same; otherwise it is authenticated and its row is added |
| Login.CredentialsUndisturbed | server/chat_clients/src/chat_clients_internal.c:148-165 | while credentials are being verified nothing can write to them or release them |
| Login.NoFault | server/chat_clients/src/chat_clients_internal.c:107-108 | no released credentials are read, no null or freed transaction finished |
| Login.IdentityAgrees | client/chat_client/src/chat_client_internal.c:79-95 | a joined client's name is the server's name for it and the one its user entered, and the password stored for it is the one its user entered |
| Login.ServerKnowsWhom | server/chat_clients/src/chat_clients_fsm.c:130-150 | the same of the server's name as soon as the client is active there |
| Login.RunKeepsTable | server/chat_auth/src/chat_auth_internal.c:137-220 | over every run the table only grows and stays sound, whoever logs in meanwhile |
| Login.HandlingProgresses | client/chat_client/src/chat_client_fsm.c:84-130 | handling any message leaves strictly less to handle |
| Login.NeverStuck | server/chat_clients/src/chat_clients_fsm.c:91-170 | given a connection that delivers, once nothing is left to handle the client is at a prompt that the server waits for, or has joined, and no transaction is left |
| Login.UserCanJoin | client/chat_client/src/chat_client_internal.c:79-95 | given a connection that delivers, against any table some run joins under any name that fits, with its stored password or a new one |
| LoginStall.LoginStallsAtFirstPrompt | common/chat_connection/src/chat_connection_fsm.c:57-104 | over the connection as written no login gets past its first prompt: in every run of the two together nothing is written to the client and it stays as it was when it connected |
| ChatServer.ChatServer.OpenProcessing | server/chat_server/src/chat_server_fsm.c:22-195 | which dependants are told to close, in order, and what is marked closed |
| ChatServer.ChatServer.CheckClosed | server/chat_server/src/chat_server_fsm.c:198-208 | true if and only if no dependant is open |
| ChatServer.ChatServer.ClosingProcessing | server/chat_server/src/chat_server_fsm.c:211-260 | reports are noted, and the last of them closes the server |
| ChatServer.ChatServer.DispatchMessage | server/chat_server/src/chat_server_fsm.c:263-291 | one message is one step of the shutdown machine |
| ChatServer.LeavesOpen | server/chat_server/src/chat_server_fsm.c:35-128 | on leaving the open state each dependant still open is told to close exactly once |
| ChatServer.LeavesOpenExactly | server/chat_server/src/chat_server_fsm.c:35-195 | the open server starts to close if and only if it handles a CLOSE, the listener's error or a report from one of the three; by then everyone else has been told once, in the order of the code |
| ChatServer.KeepsListening | server/chat_server/src/chat_server_fsm.c:86-101 | as long as it is open a watch is unanswered or its answer on the way, and every connection reported is passed on once |
| ChatServer.EachClosedOnce | server/chat_server/src/chat_server_fsm.c:35-128 | in every reachable state no dependant has been told twice, and all still open have been once the server is not |
| ChatServer.ClosedIffAllReported | server/chat_server/src/chat_server_fsm.c:198-260 | the server is closed if and only if it has heard from all three |
| ChatServer.ShutdownCompletes | server/chat_server/src/chat_server_fsm.c:211-260 | once all three have stopped and the queue is drained the server is closed, in any order of events |
| ChatServer.NeverCancelledWhileOpen | server/chat_server/src/chat_server_fsm.c:189-193 | the open server's assert is never reached by a cancelled watch: the listener answers one as cancelled only after an interrupt, and only leaving the open state sends one |
| ClientsShutdown.EveryoneOnce | server/chat_clients/src/chat_clients_fsm.c:202-214 | a close sends each listed client one announcement and then one close, and nobody else anything |
| ClientsShutdown.ClosesWithTheLast | server/chat_clients/src/chat_clients_fsm.c:227-255 | in whatever order the notices come, the module closes with the last listed client's and not before |
| ClientsShutdown.ClosingClients.Close | server/chat_clients/src/chat_clients_fsm.c:191-216 | the walk along the links makes those calls; an empty list closes at once |
| ClientsShutdown.ClosingClients.ClosingProcessing | server/chat_clients/src/chat_clients_fsm.c:227-255 | a notice unlinks its client, and the module closes if and only if the list is then empty |

## Left out

- Allocation failure, failing reads, writes and polls, SQL failure and a full queue in a callback: the code asserts on most of them or recovers incompletely; a run ends there.
- Creating and opening the modules, and the failure paths of it, some of which release a reference twice: runs start from modules that are open.
- The queues between modules are unbounded sequences in the protocols; only the watcher's command queue is proved to stay within its size. The connection's event queue has no bound in the model either.
- Use counts are changed without synchronisation in the code; sharing and releasing are atomic here. Single words that two threads share without a lock, such as the address of its transaction in a client's record, are read and written whole.
- A handler of the client module is one step. One that overlaps the worker's reading because it started first is the same interference as one that starts after the reading has, which a neighbouring run has.
- A connection's last callback queues its notice and gives up its own reference in one step; in the code the client module can handle the notice between the two.
- Integer widths where they do not matter: `size_t` sizes and counts are unbounded, wire fields are not.
- Sockets, descriptors, timers, signals and the terminal interface; read, write and poll are nondeterministic answers.
- A socket error or hang-up reported by poll is a completion without modes, as in the code; what follows it is not distinguished.
- Event types beyond the handler tables: a received type is assumed to be in range before a handler is looked up.
- ChatConnection.ChatConnection.DispatchMessage: takes the outcome of its writes and of its one read as parameters; it does not own the reader's and the writer's buffers, which are verified on their own, and forwards no events of its own, which `ChatEventIo.ReadReady` does.
- Memory is an explicit map from slots to pointers rather than Dafny objects; addresses of freed records may be used again.
- ServerFaultRuns.SubmittingWhenActive: the run assumes a connection that delivers, as all of the server's machine does; whether the client has been shown the prompt it answers is not part of that machine.
- ChatEvent.EventBuffer.CopyFrom: the source's text ends within its buffer; a received event whose data holds no zero byte is read beyond it by the code.
- ChatEventIo.EventReader.DoRead: a collecting reader's count is within its buffer; after a skip it is not, and the code's next read offers a length that has wrapped around.
- ChatEventIo.EventReader.ReadFromFd: as for `DoRead`, the call after a skip has ended is not modelled.
- EventStream.ReceiveAll: streams in which no event announces more than 1024 bytes of text, which is every stream of encoded events (`EventStream.EncodedNeverOversize`).
- NetworkWatcher.Watcher.OpenProcessing: poll does not fail; the code answers a failure with an error that its users ignore or assert on.
- NetworkWatcher.Watcher.ThreadEntry: runs over the commands queued when it starts; that others queue and interrupt meanwhile is in `WatchProtocol`.
- ChatClients.ChatClients.IncomingEvent: the references, the client's state and who is told; texts and answers are in `ClientSession.ClientRecord.ProcessEvent`.
- ClientSession.ClientRecord.HandleUsernameSubmit: allocation does not fail; the print cannot, because the length was recomputed from the text when the event was copied on arrival.
- ClientSession.ClientRecord.HandlePasswordSubmit: as for the name.
- ClientSession.ClientRecord.ProcessEvent: what concerns the client itself; the chat message it passes on is in `ChatClients.ChatClients.IncomingEvent`.
- ClientSession.ClientRecord.HandleAuthEvent: the arrival it announces is in `ChatClients.ChatClients.Admit`; the CLOSED step, which the server sends only when queueing for the worker fails, is not modelled.
- ServerFaults.FaultsExactly: of the open server's machine only. Outside it the code also stops at a connection that has been reset, by the assert on a failed read (`common/chat_connection/src/chat_connection_fsm.c:26-31`), at a received text without a terminator, by the assert on its copy (`server/chat_clients/src/chat_clients_cback.c:37-39`) unless it is read beyond its end first, at a type beyond the handler table (`server/chat_clients/src/chat_clients_internal.c:329`), and at a full queue.
- ServerRuns.NoUseAfterFree: of the machine's pointers, as for `ServerFaults.FaultsExactly`; the texts in a record of credentials are not slots of their own, and their freeing while they are read is the third of its cases.
- ServerReferenceSteps.StepIsSafe: the same.
- ServerThreads.ServerThreads.AuthHandleNext: the texts in the records of credentials are a parameter, one for every record; which record it is, is not, and that it holds the same from start to end is `ServerReading.ReadStaysThroughout`.
- ChatAuth.Auth.AuthUser: reads the name and the password once, and the code several times; they are the same by `ServerReading.ReadStaysThroughout`, in runs where nothing goes wrong.
- ChatAuth.Auth.ProcessNext: as for `AuthUser`.
- ChatEventIo.EventWriter.Populate: the byte between the name and the length is taken to be zero, which the code never sets; no receiver looks at it.
- Closing clients with a login under way: the client module ignores what is still queued for it then, and the references it carries are never released.
- Login.OneToken: assumes that the connection delivers everything in order and that the client does not leave before it has joined; one client's handshake is followed while others use the table. The same goes for the other theorems of `Login`.
- Login.NeverStuck: assumes a connection that delivers whatever is queued, which the code's is not; over that one, `LoginStall.LoginStallsAtFirstPrompt`.
- Login.UserCanJoin: assumes a connection that delivers whatever is queued, which the code's is not; over that one no user can join.
- EventStream.EndToEnd: assumes whole writes, without which no event is sure to be intact (`WireFormat.OnlyWholeWritesAreIntact`).
- Logging in twice under one name is not prevented by the code, and nothing is claimed about it.
- The bytes of a password are compared as strings; the store's own encoding is not part of this model.
