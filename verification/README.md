# Verified model of the display consumer

The Android side of the container display talks to a producer process over one control socket and five shared
endpoints: a data socket, an eventfd that announces frames, a fence socket, a shared word with the selected buffer, and
an audio socket. The connection has two states. In *fallback* new endpoints have been announced and their FDS_READY is
awaited; in a *session* frames, input events and service replies flow. Any failure ends the session, replaces all five
endpoints and frees what the services had allocated.

The model has two layers.

**The context and its calls** (`Kernel`, `Endpoints`, `Renewal`, `Agreement`, `Ledger`, `Context`, `Calls`, `Runs`,
`Promises`, `Pacing`, `FirstFrame`, `Outcomes`, `SharedWord`, `Records`, `Recovery`, `DisplayContext`, `WindowTrace`,
`RenderLoop`). `DisplayContext.DisplayCtx` is the library's context with its fields updated in place. How each syscall
of a call comes out is an input of the call (`Kernel.Answers`), so every method says what it does in each case; every
new descriptor may get any free number. `close` requires an open descriptor and freeing an allocation requires one not
freed yet, so a second close or a second free would not verify. Each method is proved to take the step that `Context`
and `Calls` give on values; `Runs` proves what any sequence of those steps keeps, mixed with any moves of a producer
that answers each hello at most once and sends one message per announced frame; `Promises` states what that means,
`Outcomes` what each call comes to for the producer who reads the stream.

**The threads** (`Sessions`, `Teardown`, `Transitions`, `Adjacency`, `HalfReply`, `Undisciplined`, `Handshake`,
`Lifecycle`, `Instances`, `Restart`, `Hush`, `Progress`, `EventStop`, `SessionEvents`, `EventRuns`, `Settled`,
`Tables`, `Unanswered`). `Sessions` is a step relation over the render thread, the event threads it starts, any number
of input threads and a lifecycle thread: one step is one lock operation, one read of a shared flag or one transfer. The
theorems hold in every state of every run from any freshly connected context; `Instances` strings connections together
from nativeCreate on.

Around them: `SocketUtils` (transfers under partial counts and EINTR), `Wire` (the packed layouts), `InputFraming` and
`OutputFraming` (the two directions of the data stream), `Layouts` (both, byte by byte), `EventLoop` (the event
thread's loop over a socket), `Collect` (enumerating the window's buffers), `WriteGate` (the 32-bit mask), `Containers`
(the stored container list), `Options`.

Where the code and its comments disagree the model follows the code:

- `display_consumer.c:41-46` and `:241-243` say that no input event can fall between the two sends of a reply and that no
  request races the re-arming of the gate. The code enforces neither. `Undisciplined.RequestRacesTheFlip` is a run with
  such a race; `Adjacency.TwoPartSendsAdjacent` gives the exact condition for the halves to stay adjacent,
  `Adjacency.DisciplineKeepsAdjacency` three rules that suffice, `Undisciplined.EachRuleNeeded` a run without each of them.
  The gate can also open in a session that has answered nothing: `Unanswered.DroppedButRecorded`.
- `display_consumer.c:452-467` takes a failed `recvmsg` for a frame without a fence; its message stays and goes to the
  next frame. `Pacing.OwnFenceIff` gives the exact condition, `FirstFrame.OtherFrameFence` an instance.
- `native_consumer.c:289-304` leaves a clipboard payload in the stream when there is no memory or it is late; what is
  read next is then not a message. `OutputFraming.HandledIsPrefixIffInStep` gives the exact condition.
- `native_consumer.c:1046` zeroes the descriptor slots, which `cleanup_dmabufs` takes for open ones.
  `Collect.BalancedIff` gives the exact condition, `Collect.FirstFailureClosesZero` an instance.
- `display_consumer.c:41-48` takes the reply with descriptors for the only writer of two parts. The table is another
  (`:206-219`), sent without `data_lock`: `Tables.InputPartsTable` is a run in which an input event parts it,
  `Tables.TableInTwoStreams` one in which its second part goes to the next connection's socket.
- `display_consumer.c:242-243` says that the event thread is stopped while in fallback and restarted by the exit callback.
  Both callbacks are made outside the locks, so either can be late: `EventStop.FallbackStopsEvents`,
  `EventStop.SetAgainIff` and `SessionEvents.SessionHasEvents` give the conditions, `EventRuns.RunsInFallback` a run with
  an event thread in fallback, `EventRuns.SessionWithoutEvents` a session without one.
- `enter_fallback` ignores failures while it opens the new endpoints, and does nothing when called again.
  `Recovery.FallbackEndsIff`: after one such failure no session follows.
- `display_consumer.c:254-256` makes the exit callback even when the push has already fallen back and made the other
  one; so callbacks are matched with flips, not with each other.

`dafny verify dfyconfig.toml` checks the whole project.

## Model

| member | source | states |
|---|---|---|
| Containers.SaveLoadRoundTrip | app/src/main/java/com/fauzan/containermanager/MainActivity.kt:44-58 | For every list of containers, saving and loading gives it back if and only if no field contains ',' or ';'. |
| Containers.LoadIsStable | app/src/main/java/com/fauzan/containermanager/MainActivity.kt:44-58 | For every stored string, malformed or not, saving what was loaded and loading again changes nothing. |
| Containers.LoadedFieldsClean | app/src/main/java/com/fauzan/containermanager/MainActivity.kt:50-58 | No loaded field contains a separator, whatever was stored. |
| Containers.LoadsThreeFields | app/src/main/java/com/fauzan/containermanager/MainActivity.kt:50-58 | A stored string loads, unchanged and in order, exactly its records with two commas, and so three fields; no other record is loaded. |
| SocketUtils.SendAll | app/src/main/cpp/common/socket_utils.c:135-149 | For every script of partial counts, EINTR and refusals: terminates, the stream grows by exactly the bytes moved, in order, and the result is 0 exactly when that is the whole buffer. |
| SocketUtils.RecvAll | app/src/main/cpp/common/socket_utils.c:151-165 | The receiving counterpart: the bytes received leave the front of the stream, fill the front of the buffer in order, and the rest of the buffer is untouched. |
| SocketUtils.ShortMeansRefused | app/src/main/cpp/common/socket_utils.c:139-165 | A transfer falls short exactly when its last answer was an error other than EINTR, or when there was nothing more to move. |
| EventLoop.DeliveringSame | app/src/main/cpp/common/socket_utils.c:151-165 | Where nothing is queued, an error and the end of the stream are the same to recv_all; nothing else of the kernel's answers has changed. |
| SocketUtils.NeverRefusedMovesAll | app/src/main/cpp/common/socket_utils.c:139-147 | A script without refusals moves everything there is, however it is chunked. |
| SocketUtils.SendThenRecv | app/src/main/cpp/common/socket_utils.c:135-165 | Sending a buffer under any chunking and receiving it under any other gives the same bytes. |
| Wire.HeaderRoundTrip | app/src/main/cpp/common/protocol.h:29-33 | The 8-byte packed header and its two words determine each other, both ways. |
| Wire.EventRoundTrip | app/src/main/cpp/common/protocol.h:108-183 | The 20-byte packed events and their five words determine each other, both ways. |
| Wire.BufInfosRoundTrip | app/src/main/cpp/common/protocol.h:42-49 | Any table of 28-byte buffer records and its bytes determine each other, both ways. |
| Wire.HeaderLayout | app/src/main/cpp/common/protocol.h:29-33 | The type is the little-endian word at byte 0, the size the one at byte 4. |
| Wire.EventLayout | app/src/main/cpp/common/protocol.h:108-183 | The type of an event is the little-endian word at byte 0, its words those at 4, 8, 12 and 16. |
| Wire.BufInfoLayout | app/src/main/cpp/common/protocol.h:42-49 | Record i of a table starts at byte 28 * i: stride, width, height and format at 0, 4, 8 and 12, the 64-bit modifier at 16, the offset at 24, all little-endian. |
| InputFraming.ReadWrite | app/src/main/cpp/libdisplay_consumer/display_consumer.c:201-221 | Each message, as its writer puts it on the socket with its descriptors, is read back by the rules of the layouts, whatever follows it. |
| InputFraming.WriteRead | app/src/main/cpp/common/protocol.h:29-49 | What the rules read from any stream is a well-formed message, and writing it gives back exactly the cells read. |
| InputFraming.UniquelyDecodable | app/src/main/cpp/libdisplay_consumer/display_consumer.c:470-525 | A stream of bytes and descriptors reads as a list of messages if and only if it is what writing that list gives; so no stream has two readings. |
| Layouts.PlainLayout | app/src/main/cpp/libdisplay_consumer/display_consumer.c:475-478 | push_input_event puts 28 bytes on the socket: type 102 and size 20, the event at byte 8, no descriptors. |
| Layouts.PayloadLayout | app/src/main/cpp/libdisplay_consumer/display_consumer.c:502-509 | With a payload: the same header and event, and the payload from byte 28 on. |
| Layouts.ResourceLayout | app/src/main/cpp/libdisplay_consumer/display_consumer.c:633-646 | A reply with descriptors is 36 bytes: type 102, size 20, the event, then type 104, size 0 at byte 28, whose first byte brings the descriptors; no other byte brings any. |
| Layouts.TableLayout | app/src/main/cpp/libdisplay_consumer/display_consumer.c:206-219 | A table is type 200 with 28 times the number of records as its size, the descriptors with its first byte, and the records from byte 8 on. |
| Layouts.OutputLayout | app/src/main/cpp/common/protocol.h:29-33 | An output event is type 103 and size 20, the event at byte 8, its payload from byte 28 on. |
| Layouts.AcceptsOutput | app/src/main/cpp/libdisplay_consumer/display_consumer.c:549-560 | Of 28 readable bytes poll_output_event accepts exactly those with type 103 and size 20, and stores the event found at byte 8; any others end the session. |
| Layouts.RoundEndsIff | app/src/main/cpp/native_consumer.c:271-318 | A round of the event thread ends the session if and only if poll reports the end of the connection, for the event or for a clipboard payload, or the header is not type 103 and size 20, or the reply to an event of type 2 does not get out. |
| OutputFraming.HandlesExactlyTheList | app/src/main/cpp/native_consumer.c:271-318 | For every list of output events and any timeouts between them, each readable round handles the next event with its payload, in order, and nothing is left over. |
| OutputFraming.WrongHeaderFallsBack | app/src/main/cpp/libdisplay_consumer/display_consumer.c:552-557 | A header of another type or size ends the session; nothing is handled from it or after it. |
| OutputFraming.HandledIsPrefixIffInStep | app/src/main/cpp/native_consumer.c:289-304 | What is handled is a prefix of the list sent, for every list and every point at which the stream ends, if and only if no round that leaves a payload behind (no memory, or too late) is followed by another read. |
| OutputFraming.MisreadRun | app/src/main/cpp/native_consumer.c:290-294 | The other half by example: for every sequence of rounds that does read on, a list of events one of whose payloads is handled as an event. |
| EventLoop.EventThread.PollOutputEvent | app/src/main/cpp/libdisplay_consumer/display_consumer.c:526-561 | Over a socket with partial reads and EINTR, does to the connection and returns what the decoding on values says, for each outcome of poll. |
| EventLoop.EventThread.PollOutputEventExtendData | app/src/main/cpp/libdisplay_consumer/display_consumer.c:562-579 | The same for the payload read. |
| EventLoop.EventThread.Dispatch | app/src/main/cpp/native_consumer.c:277-317 | One pass of the loop body is one step of the decoding. |
| EventLoop.EventThread.RunLoop | app/src/main/cpp/native_consumer.c:271-318 | The whole loop refines the decoding on values, for every script of poll results, chunk sizes, allocation failures and replies. |
| Collect.GatherCollects | app/src/main/cpp/native_consumer.c:142-193 | For any window and any dup, the entries kept have distinct buffers and distinct descriptors, each new to the process and a duplicate of the first descriptor of its buffer's handle; the process has no other new descriptor. |
| Collect.GatherReturns | app/src/main/cpp/native_consumer.c:142-193 | At most 4 * target dequeues are made, and every dequeued buffer is queued or cancelled exactly once before the next dequeue. |
| Collect.GatherSees | app/src/main/cpp/native_consumer.c:142-193 | What the window sees: the buffers it gives up to the last dequeue, in order, each queued back if it has a handle and cancelled if not, and as many fences closed as it gives; the last dequeue is the one that reaches the target, uses up the attempts or gives nothing. |
| Collect.GatherGiven | app/src/main/cpp/native_consumer.c:159-193 | Every entry kept is a dequeue of the window, as the window gave it. |
| Collect.CollectsIff | app/src/main/cpp/native_consumer.c:142-202 | As long as no dup fails, the collection succeeds if and only if the first 4 * target dequeues, up to one that gives nothing, give that many different buffers with a handle. |
| Collect.ConsumerState.FindBuffer | app/src/main/cpp/native_consumer.c:163-170 | The search finds a buffer if and only if it is in one of the slots filled so far. |
| Collect.ConsumerState.CollectDmabufs | app/src/main/cpp/native_consumer.c:134-207 | The loop over the arrays refines the gathering on values: on success the slots hold its entries, and slot by slot the duplicate, the buffer and a record with stride 4 * stride, the buffer's width and height, format 1, modifier 0 and offset 0; on failure every duplicate made is closed and its slot is -1; slots not filled are untouched. |
| Collect.ConsumerState.CleanupDmabufs | app/src/main/cpp/native_consumer.c:209-218 | Closes exactly the non-negative slots below the count, and forgets them. |
| Collect.ConsumerState.CollectThenCleanup | app/src/main/cpp/native_consumer.c:730-774 | The descriptors of the process after a collection and the cleanup that follows it, whichever way the collection ended. |
| Collect.CloseDups | app/src/main/cpp/native_consumer.c:195-202 | Closing the duplicates of the entries leaves the process with the descriptors it had before the collection. |
| Collect.BalancedIff | app/src/main/cpp/native_consumer.c:195-218 | Collection and cleanup give back exactly the descriptors the process had if and only if the collection succeeded or no slot it left unfilled holds the number of an open descriptor. |
| Collect.FirstFailureClosesZero | app/src/main/cpp/native_consumer.c:1046 | The slots start as zeros, so the cleanup after a first, failed collection closes descriptor 0, which the collection never made. |
| WriteGate.RecordAdds | app/src/main/cpp/libdisplay_consumer/display_consumer.c:121 | Setting bit i adds exactly index i to the 32-bit mask. |
| WriteGate.AllSentTest | app/src/main/cpp/libdisplay_consumer/display_consumer.c:122-123 | `(mask & ((1u << n) - 1)) == (1u << n) - 1` holds exactly when every index below n is in the mask, for every n below 32. |
| WriteGate.GateRefinesSet | app/src/main/cpp/libdisplay_consumer/display_consumer.c:119-126 | The 32-bit test asks whether the set of recorded services has every service. |
| WriteGate.RecordStands | app/src/main/cpp/libdisplay_consumer/display_consumer.c:119-126 | After the update, data_needs_lock is still true exactly when there are 32 services or more, or there is one that has not been recorded. |
| WriteGate.ArmStands | app/src/main/cpp/libdisplay_consumer/display_consumer.c:67-71 | Arming forgets every record and closes the gate unless there is no service. |
| Teardown.LocksStep | app/src/main/cpp/libdisplay_consumer/display_consumer.c:29-39 | Each step of any thread keeps both locks held exactly by the thread whose program counter says so. |
| Transitions.SingleTeardown | app/src/main/cpp/libdisplay_consumer/display_consumer.c:226-297 | On every connection, for any threads calling enter_fallback and try_exit_fallback in any interleaving: flips alternate, exits are enters plus one while active, the endpoints and the resources of each session are torn down exactly once, in order, and the gate is armed once for each set of endpoints and once for each exit. |
| Transitions.WinnerCallsBack | app/src/main/cpp/libdisplay_consumer/display_consumer.c:254-297 | Every callback a thread makes or owes answers a flip that this thread won, and enter_fallback and both callbacks are reached with neither lock held. |
| Transitions.AlternatingCounts | app/src/main/cpp/libdisplay_consumer/display_consumer.c:226-297 | Alternation and the number of flips determine the numbers of exits and enters. |
| Adjacency.TwoPartSendsAdjacent | app/src/main/cpp/libdisplay_consumer/display_consumer.c:480-517 | On every socket of every run, up to its first failed send, each RESOURCE event with descriptors is followed at once by its own EXTEND_FDS message, if and only if no lock-free sender or table push transfers on that socket while data_lock's holder is between the two sends. |
| Adjacency.DisciplineKeepsAdjacency | app/src/main/cpp/libdisplay_consumer/display_consumer.c:624-649 | That never happens, in any interleaving, when three rules are kept: each service is requested at most once per session, no request is under way at the flip or begins during the table push, and a lock-free writer sends before the gate it sampled is armed again. |
| Adjacency.DisciplinedNeverWedged | app/src/main/cpp/libdisplay_consumer/display_consumer.c:41-46 | Under those three rules no unlocked transfer ever falls between the halves. |
| Undisciplined.EachRuleNeeded | app/src/main/cpp/libdisplay_consumer/display_consumer.c:41-46 | No rule can be spared: for each of the three there is a run that breaks it alone and in which something falls between a RESOURCE event and its descriptors. |
| Undisciplined.RequestRacesTheFlip | app/src/main/cpp/libdisplay_consumer/display_consumer.c:240-250 | A reachable state, no rule broken, in which the render thread is about to leave fallback and re-arm the gate while a request that has passed its check of `fallback` waits for data_lock. |
| HalfReply.GateDecides | app/src/main/cpp/libdisplay_consumer/display_consumer.c:480-490 | In any session reached with all halves adjacent, with a reply half sent and an input thread idle: that thread can part the halves by itself if and only if the gate is open. |
| HalfReply.ManyKeepTheGate | app/src/main/cpp/libdisplay_consumer/display_consumer.c:119-126 | With 32 services or more the gate is closed in every reachable state. |
| Handshake.ReadyAnswersLatestHello | app/src/main/cpp/libdisplay_consumer/display_consumer.c:226-292 | With a producer that answers each hello at most once, in every reachable state an FDS_READY on its way, in a thread's hands or behind the active state answers the latest hello, whose endpoints are in place. |
| Instances.OneEventThread | app/src/main/cpp/native_consumer.c:325-357 | From nativeCreate on, over any number of stops, starts and connections: threads created less threads joined is 1 or 0 as the handle is joinable or not; at most one event thread is live and it is the one behind the handle; no event thread joins; none is live at disconnect or while there is no context. What a fallback does to it is in EventStop. |
| EventStop.FallbackStopsEvents | app/src/main/cpp/native_consumer.c:832-888 | Over any number of connections: in fallback, once every fallback callback has been made, event_running is clear, unless the render thread has set it again since this fallback began. |
| EventStop.SetAgainIff | app/src/main/cpp/native_consumer.c:335-347 | In any reachable state in fallback with event_running clear: some continuation sets it before the next flip if and only if the render thread is past its own flip out of fallback, in the same call, and has not set it yet. |
| EventRuns.RunsInFallback | app/src/main/cpp/native_consumer.c:335-347 | A run of the other kind: an input thread ends the session while the render thread is in its exit callback; with all calls over and both callbacks made, the event thread runs in fallback. |
| EventRuns.SecondSession | app/src/main/cpp/native_consumer.c:335-357 | One session, a fallback entered by the render thread, and a second session: 2 event threads created, 1 joined, the first finished and the second live. |
| SessionEvents.SessionHasEvents | app/src/main/cpp/native_consumer.c:890-942 | In a session past its exit callback an event thread is live, unless since the session began a fallback callback has been made or the exit callback has given up starting one, or the context is being left. |
| SessionEvents.RunningIsLive | app/src/main/cpp/native_consumer.c:335-347 | Over any number of connections: unless the render thread is about to make the thread, event_running stands for an event thread behind the handle that has not left its loop. |
| EventRuns.SessionWithoutEvents | app/src/main/cpp/libdisplay_consumer/display_consumer.c:294-296 | A run of the exceptional kind: the next session begins before the last one's fallback callback is made, start_event_thread finds event_running set, and the late callback then stops the event thread; with all calls over, the session has none. |
| Settled.FallbackIsQuiet | app/src/main/cpp/libdisplay_consumer/display_consumer.c:260-297 | In fallback with no call on the context under way, whatever calls are made until the next flip: nothing is sent or recorded, no endpoint is touched, no callback made, no event thread created. |
| Settled.FailedSendEnds | app/src/main/cpp/libdisplay_consumer/display_consumer.c:480-495 | From the moment a send on the socket in place fails until the next flip some thread is on its way into enter_fallback; so when no call is under way a session with a failed send is over. |
| Settled.ClosedIsFrozen | app/src/main/cpp/libdisplay_consumer/display_consumer.c:273-282 | Once the endpoints of a session have been closed, no step of any thread adds to what its data socket has carried. |
| Settled.SessionLeavesControl | app/src/main/cpp/libdisplay_consumer/display_consumer.c:226-238 | In a session nothing is taken from the control connection before the next flip, unless by a thread that saw the fallback before it. |
| Unanswered.DroppedButRecorded | app/src/main/cpp/libdisplay_consumer/display_consumer.c:111-126 | A run in which a request whose reply was dropped in fallback is recorded in the next session: the gate is open, and no socket has carried anything. |
| Unanswered.FailedButRecorded | app/src/main/cpp/libdisplay_consumer/display_consumer.c:111-126 | A run in which a reply fails, with its session, and the next session records the service: the gate is open, and its socket has carried nothing. |
| Tables.TablesFollowed | app/src/main/cpp/libdisplay_consumer/display_consumer.c:206-219 | Whenever the render thread is not between the two sends of a table, and no send on the socket in place has failed, each table on it has had its records sent. |
| Tables.InputPartsTable | app/src/main/cpp/libdisplay_consumer/display_consumer.c:248-254 | A run, with no request and no failure, in which an input event sent right after the flip goes between the header of the table and its records. |
| Tables.TableInTwoStreams | app/src/main/cpp/libdisplay_consumer/display_consumer.c:210-219 | A run in which the session ends between the two sends of the table, and the records go out on the socket of the next connection. |
| Instances.ConnectStarts | app/src/main/cpp/native_consumer.c:779-799 | Every connection begins in a state from which the theorems on one connection hold, whatever the handle has been through. |
| Restart.AnotherConnection | app/src/main/cpp/native_consumer.c:1202-1250 | From a connection, nativeStop, nativeStart and connecting lead to another, on the same handle. |
| Instances.NoDeadlock | app/src/main/cpp/libdisplay_consumer/display_consumer.c:29-39 | In every reachable state of an instance with a lifecycle call, or a call on the context, under way, some thread can move without a new call beginning. |
| Instances.HolderMoves | app/src/main/cpp/libdisplay_consumer/display_consumer.c:38-39 | The holder of data_lock, or else of state_lock, can take its next step. |
| Instances.JoinedMoves | app/src/main/cpp/native_consumer.c:325-357 | The event thread that a join waits for leaves its loop or goes on with its call, and waits for a lock at most, never for a thread. |
| Progress.CallsEnd | app/src/main/cpp/libdisplay_consumer/display_consumer.c:226-297 | Without new calls and messages every schedule is finite, with an explicit bound, and one that cannot go on leaves no lifecycle call and no call on the context unfinished. |
| Hush.DisconnectAlone | app/src/main/cpp/native_consumer.c:1280-1285 | If no JNI input call is under way when a lifecycle call begins and none begins before it is over, no other thread is in a call on the context at disconnect or afterwards. |
| Undisciplined.DisconnectUnderSend | app/src/main/cpp/native_consumer.c:1280-1285 | Without that, a run in which nativeStop reaches disconnect while an input thread is about to send on the context. |
| Endpoints.DropKeeps | app/src/main/cpp/libdisplay_consumer/display_consumer.c:276-282 | Closing and unmapping a context's endpoints leaves everybody else's descriptors and mappings as they were. |
| Endpoints.ShmOk | app/src/main/cpp/libdisplay_consumer/display_consumer.c:138-158 | Whichever of memfd_create, ftruncate and mmap fails, the fields still describe exactly what is open and mapped, and nobody else's descriptors have changed. |
| Endpoints.ConnectKept | app/src/main/cpp/libdisplay_consumer/display_consumer.c:169-197 | Keeping one end of each of the three new pairs adds exactly those three descriptors. |
| Renewal.HelloRenews | app/src/main/cpp/libdisplay_consumer/display_consumer.c:160-197 | Whichever of the three socketpair calls or the send fails, the new endpoints are unused, owned, and announced to the producer all together or not at all. |
| Renewal.PairsClosed | app/src/main/cpp/libdisplay_consumer/display_consumer.c:193-195 | With the producer's ends closed, of the three pairs exactly our ends remain. |
| Agreement.RenewedHandshake | app/src/main/cpp/libdisplay_consumer/display_consumer.c:260-297 | New endpoints restart the handshake: at most one answer can come, and it is for them. |
| Agreement.ReadyHandshake | app/src/main/cpp/libdisplay_consumer/display_consumer.c:235-249 | The FDS_READY that ends fallback answers the latest hello, whose endpoints are the ones in place. |
| Agreement.ProducerHandshake | app/src/main/cpp/libdisplay_consumer/display_consumer.c:226-249 | No move of the producer breaks that. |
| Agreement.RenewedFrames | app/src/main/cpp/libdisplay_consumer/display_consumer.c:276-289 | New endpoints share no channel with any earlier hello. |
| Agreement.RenewedPacing | app/src/main/cpp/libdisplay_consumer/display_consumer.c:269-289 | On new endpoints no frame is announced, received, pending or given up, and the data socket has carried nothing. |
| Agreement.FramePacing | app/src/main/cpp/libdisplay_consumer/display_consumer.c:437-467 | The message received ends the pending frame, and its fence is the next of the session's. |
| Agreement.FenceOfFrame | app/src/main/cpp/libdisplay_consumer/display_consumer.c:416-422 | With no frame given up, a message that has come for the pending frame is the one the producer sent for the frame announced last. |
| Agreement.WriteAppend | app/src/main/cpp/libdisplay_consumer/display_consumer.c:475-487 | A message sent whole extends the stream by exactly its cells. |
| Agreement.GroundedRenewed | app/src/main/cpp/libdisplay_consumer/display_consumer.c:260-292 | A fallback keeps descriptors, mapping, handshake and frames in order, from any state of a session, even one with a half-sent message. |
| Ledger.SlotReplaced | app/src/main/cpp/libdisplay_consumer/display_consumer.c:97-102 | A new allocation takes the slot and the previous one is freed; every allocation stays either freed or the single entry of its slot. |
| Ledger.SlotFreed | app/src/main/cpp/libdisplay_consumer/display_consumer.c:130-134 | Emptying a slot moves its allocation to the freed ones, and keeps the rest. |
| Ledger.MayFree | app/src/main/cpp/libdisplay_consumer/display_consumer.c:98-100 | What is in a slot was allocated and has not been freed yet. |
| Ledger.EmptyFreed | app/src/main/cpp/libdisplay_consumer/display_consumer.c:128-137 | With every slot empty, everything ever allocated has been freed. |
| Context.FellConsistent | app/src/main/cpp/libdisplay_consumer/display_consumer.c:260-297 | enter_fallback re-establishes everything that holds between calls from much less: it needs nothing of the session's stream or pacing. |
| Context.TriedExitGood | app/src/main/cpp/libdisplay_consumer/display_consumer.c:226-258 | try_exit_fallback keeps all of it, whether it reads nothing, another header, or FDS_READY, and whether or not the table then goes out. |
| Context.RequestedGood | app/src/main/cpp/libdisplay_consumer/display_consumer.c:90-127 | handle_resource_request keeps all of it, in fallback and in a session, with any allocation and any failure of the reply. |
| Context.BrokeOffConsistent | app/src/main/cpp/libdisplay_consumer/display_consumer.c:491-495 | A send that fails anywhere in a message ends the session and leaves everything in order. |
| Calls.SelectingGood | app/src/main/cpp/libdisplay_consumer/display_consumer.c:398-414 | select_dmabuf keeps all of it, for every index. |
| Calls.RefreshedGood | app/src/main/cpp/libdisplay_consumer/display_consumer.c:423-468 | refresh_done keeps all of it, on a timeout, a closed channel, a failed read or a message. |
| Calls.PushedInputGood | app/src/main/cpp/libdisplay_consumer/display_consumer.c:470-525 | The input pushes keep all of it. |
| Calls.PushedTableGood | app/src/main/cpp/libdisplay_consumer/display_consumer.c:383-396 | push_dmabufs keeps the stored table and the sent one in agreement, in fallback and in a session, which it ends. |
| Calls.RegisteredGoodIff | app/src/main/cpp/libdisplay_consumer/display_consumer.c:73-88 | Registering services keeps the ledger and the gate in order if and only if no slot holds an allocation and, when malloc fails, there were no services before. |
| Calls.ReadIffAnnounced | app/src/main/cpp/libdisplay_consumer/display_consumer.c:470-525 | What an input push sends is read by the producer as that message if and only if the event announces what follows it. |
| Runs.BegunGood | app/src/main/cpp/libdisplay_consumer/display_consumer.c:301-336 | A successful connect establishes all of it. |
| Runs.RunGood | app/src/main/cpp/libdisplay_consumer/display_consumer.c:301-525 | It holds after any sequence of calls and producer moves. |
| Promises.DescriptorsConserved | app/src/main/cpp/libdisplay_consumer/display_consumer.c:138-197 | In every state of every run, with any syscalls failing, the open descriptors are everybody else's and the context's non-negative fields, no two of which are equal; the mapping obeys the same rule. |
| Promises.SessionAgreed | app/src/main/cpp/libdisplay_consumer/display_consumer.c:160-197 | In a session all five endpoints are valid, shm is mapped, and the producer holds the matching ends from the latest hello, which it has answered. |
| Promises.TableShared | app/src/main/cpp/libdisplay_consumer/display_consumer.c:201-221 | In a session the producer reads back exactly the messages sent; the first is the stored table, if there is one, and there is no other table. |
| Promises.GateOpens | app/src/main/cpp/libdisplay_consumer/display_consumer.c:41-48 | The gate is open exactly when every service has been recorded in this session (or there is none), and then the stream carries a reply for each. |
| Promises.NothingLeaks | app/src/main/cpp/libdisplay_consumer/display_consumer.c:260-297 | A fallback leaves no slot filled, and everything allocated until then has been freed, nothing twice. |
| Promises.LateFenceStaysOut | app/src/main/cpp/libdisplay_consumer/display_consumer.c:276-289 | A fence sent for an earlier hello does not reach the session. |
| Outcomes.SelectHeard | app/src/main/cpp/libdisplay_consumer/display_consumer.c:406-413 | In a session select_dmabuf returns 0 exactly for the indices of the table the producer has read; then the index is in the shared word, one more frame is announced and pending; otherwise -1 and nothing is done. |
| Outcomes.InputHeard | app/src/main/cpp/libdisplay_consumer/display_consumer.c:470-525 | In a session an input event of n bytes: if the send can move n, 0 is returned and the producer reads the earlier messages and this one; otherwise -1 and the session is over; without memory -1 and nothing sent. In fallback 0 and nothing sent. |
| Outcomes.RequestHeard | app/src/main/cpp/libdisplay_consumer/display_consumer.c:90-127 | A request of a registered service in a session: the first slot of that type takes the new allocation, what it held is freed, and, exactly when the sends can move the reply, the session stays on and the producer reads the earlier messages and one reply of type 11 with the service, the number of descriptors allocated, and those very descriptors if there are any; the service is then recorded. |
| Outcomes.RequestUnheard | app/src/main/cpp/libdisplay_consumer/display_consumer.c:90-127 | In fallback the service is asked and its slot filled, but nothing is sent or recorded; for an unknown service nothing happens at all. |
| Outcomes.ReadyBegins | app/src/main/cpp/libdisplay_consumer/display_consumer.c:226-257 | An FDS_READY that poll reports is read and the session begins: the producer reads the stored table and nothing else, unless the sends cannot move it and the session is over again; the callbacks are made accordingly. |
| Outcomes.OtherStays | app/src/main/cpp/libdisplay_consumer/display_consumer.c:231-238 | Without one the context stays in fallback: another header reported is read, and nothing else happens. |
| Outcomes.TableHeard | app/src/main/cpp/libdisplay_consumer/display_consumer.c:383-396 | push_dmabufs in a session always ends it; 0 is returned exactly when the sends can move the table, and then the producer reads it whole after the earlier messages. |
| Outcomes.TableStored | app/src/main/cpp/libdisplay_consumer/display_consumer.c:383-390 | Whatever happens, the stored table is the first eight buffers of the call. |
| Outcomes.CutOff | app/src/main/cpp/libdisplay_consumer/display_consumer.c:484-495 | A message that does not go out whole leaves a proper beginning of it, of exactly the bytes the sends could move, at the end of a stream that is over. |
| SharedWord.WordInTable | app/src/main/cpp/libdisplay_consumer/display_consumer.c:138-158 | In every state of every run, during a session: the shared word is an index of the table the producer has read, or 0, and 0 as long as no frame has been announced; no index of an earlier session is left in it. |
| Records.GateCountsRequests | app/src/main/cpp/libdisplay_consumer/display_consumer.c:116-126 | In every state of every run: writers go without data_lock exactly when there is no service, or there are fewer than 32 and each has been requested since the session began. |
| Recovery.ComesBackIff | app/src/main/cpp/libdisplay_consumer/display_consumer.c:226-297 | In any good state in fallback, some calls and producer moves lead to a session if and only if some delivered hello is unanswered or an FDS_READY is waiting to be read. |
| Recovery.FallbackEndsIff | app/src/main/cpp/libdisplay_consumer/display_consumer.c:260-297 | After enter_fallback a session can follow if and only if eventfd, memfd_create, ftruncate, mmap, all three socketpairs and the hello have succeeded; after any failure nothing leads out of fallback, for it is never tried again. |
| Pacing.FramesCounted | app/src/main/cpp/libdisplay_consumer/display_consumer.c:398-468 | In every state of every run, frames announced less messages received in the session are the pending frame and those given up: the ones selected over, and the ones whose message could not be read. |
| Pacing.LoopPaced | app/src/main/cpp/native_consumer.c:945-1014 | When each frame is waited for before the next is selected and no read of the fence channel fails, with any other calls and producer moves in between, signals sent less messages received is exactly 1 or 0 as buffer_pending is true or false. |
| Pacing.LoopFences | app/src/main/cpp/libdisplay_consumer/display_consumer.c:416-468 | Then every completed frame is handed the message the producer sent for it: the k-th frame of the session the k-th fence. |
| Pacing.OwnFenceIff | app/src/main/cpp/libdisplay_consumer/display_consumer.c:437-467 | Of any completed frame: its fence is the next of the session's, and it is the frame's own if and only if the session has given up no frame. |
| FirstFrame.OtherFrameFence | app/src/main/cpp/libdisplay_consumer/display_consumer.c:437-467 | One failed recvmsg after poll has reported the message, and the next frame is handed the previous frame's fence. |
| FirstFrame.FirstFrameRuns | app/src/main/cpp/libdisplay_consumer/display_consumer.c:301-468 | Sessions and frames are reachable: from a fresh process, some run connects, stores a table, leaves fallback, selects a buffer and hands back whatever fence the producer sends for it. |
| DisplayContext.DisplayCtx.AllocateServices | app/src/main/cpp/libdisplay_consumer/display_consumer.c:73-88 | Every slot starts unallocated and the gate is armed; when malloc fails there are no services and the gate stays as it is. Whatever the slots held is forgotten. |
| DisplayContext.DisplayCtx.FreeResources | app/src/main/cpp/libdisplay_consumer/display_consumer.c:128-137 | Empties every slot; each allocation is freed once, and only if it was not freed before. |
| DisplayContext.DisplayCtx.CreateShm | app/src/main/cpp/libdisplay_consumer/display_consumer.c:138-158 | memfd and mapping in place and the word 0, exactly when all of memfd_create, ftruncate and mmap succeed; otherwise neither. |
| DisplayContext.DisplayCtx.OpenPairs | app/src/main/cpp/libdisplay_consumer/display_consumer.c:169-185 | Three pairs of new descriptors, exactly when three socketpair calls succeed; otherwise none left open. |
| DisplayContext.DisplayCtx.SendHelloFds | app/src/main/cpp/libdisplay_consumer/display_consumer.c:160-197 | Our three ends kept, the producer's closed; a hello with all five endpoints is delivered exactly when the pairs and the send succeed and eventfd and memfd are there. |
| DisplayContext.DisplayCtx.CloseEnds | app/src/main/cpp/libdisplay_consumer/display_consumer.c:276-282 | Every endpoint closed once and unmapped, the fields cleared. |
| DisplayContext.DisplayCtx.TearDown | app/src/main/cpp/libdisplay_consumer/display_consumer.c:269-282 | The session's resources, pending frame, descriptors and mapping are gone. |
| DisplayContext.DisplayCtx.OpenEnds | app/src/main/cpp/libdisplay_consumer/display_consumer.c:284-289 | Each endpoint is there exactly when the syscalls it takes succeed; nothing half open; all announced, exactly when every syscall succeeds, or none. |
| DisplayContext.DisplayCtx.EnterFallback | app/src/main/cpp/libdisplay_consumer/display_consumer.c:260-297 | Nothing in fallback; otherwise the session is torn down, as many new endpoints opened as the syscalls allow, and the callback made once. |
| DisplayContext.DisplayCtx.TryExitFallback | app/src/main/cpp/libdisplay_consumer/display_consumer.c:226-258 | True exactly when in fallback poll reports an FDS_READY; then it is read, the flip made, the table pushed and the callback made, even if the push has fallen back again. Another header reported is read and dropped; otherwise nothing changes. |
| DisplayContext.DisplayCtx.PushDmabufsInternal | app/src/main/cpp/libdisplay_consumer/display_consumer.c:201-221 | The table goes out whole exactly when both sends can move their part; otherwise the session ends and the result is -1. |
| DisplayContext.DisplayCtx.PushDmabufs | app/src/main/cpp/libdisplay_consumer/display_consumer.c:383-396 | At most MAX_BUFS records are stored, no session survives it, and the result is -1 exactly when the table has not gone out whole. |
| DisplayContext.DisplayCtx.SelectDmabuf | app/src/main/cpp/libdisplay_consumer/display_consumer.c:398-414 | Tries to leave fallback first; then 0 in fallback, -1 for an index outside the table, or the index published, a signal sent and a frame pending. |
| DisplayContext.DisplayCtx.RefreshDone | app/src/main/cpp/libdisplay_consumer/display_consumer.c:423-468 | -1 when nothing is pending; nothing in time or the end of the stream ends the session; a failed read gives the frame up; otherwise the frame is over and the session's next fence is returned. |
| DisplayContext.DisplayCtx.SendBoth | app/src/main/cpp/libdisplay_consumer/display_consumer.c:638-648 | Two sends in a row put both parts on the stream exactly when each can move its part; otherwise the session ends with exactly what they could move on it. |
| DisplayContext.DisplayCtx.PushInputEvent | app/src/main/cpp/libdisplay_consumer/display_consumer.c:470-496 | Any event: nothing in fallback; otherwise header and event go out whole, exactly when the send can move them, or the session ends and the result is -1. |
| DisplayContext.DisplayCtx.PushInputEventWithLength | app/src/main/cpp/libdisplay_consumer/display_consumer.c:497-525 | The same with any payload behind it; without memory nothing is sent and the result is -1. |
| DisplayContext.DisplayCtx.PushInputEventWithFds | app/src/main/cpp/libdisplay_consumer/display_consumer.c:624-649 | Nothing in fallback; otherwise the event and, if there are any, its descriptors go out, or the session ends. |
| DisplayContext.DisplayCtx.FindService | app/src/main/cpp/libdisplay_consumer/display_consumer.c:91-106 | The loop finds the first service of the type, if there is one. |
| DisplayContext.DisplayCtx.HandleResourceRequest | app/src/main/cpp/libdisplay_consumer/display_consumer.c:90-127 | With what the service's allocator gives: the slot takes it, what was there is freed, the reply is sent and the service recorded if the session is still there; nothing for an unknown type. |
| DisplayContext.DisplayCtx.Connect | app/src/main/cpp/libdisplay_consumer/display_consumer.c:301-350 | 0 exactly when there is a control connection and every syscall succeeds: a context in fallback that has said hello. Otherwise every descriptor, the control connection too, and the mapping are gone. |
| DisplayContext.DisplayCtx.Disconnect | app/src/main/cpp/libdisplay_consumer/display_consumer.c:352-367 | No descriptor, mapping or allocation of the context remains; everybody else's are untouched. |
| RenderLoop.DrawFrame | app/src/main/cpp/native_consumer.c:982-1012 | One buffer, from any good state with nothing pending: select_dmabuf, whatever the producer does meanwhile, and refresh_done, each as the calls say; without a slot, or with an error from the first, the buffer is queued with -1. |
| RenderLoop.DrewRight | app/src/main/cpp/native_consumer.c:982-1012 | Of any such pass: a frame is waited for exactly when there is a session and the slot is one of the table's, and then the index is in shm; the fence is -1 or the session's next, which is its own frame's if and only if the session has given up no frame; nothing is pending afterwards; a frame is given up exactly when its message could not be read. |
| RenderLoop.FindSlot | app/src/main/cpp/native_consumer.c:982-988 | The loop finds the first slot with the buffer, if there is one. |
| WindowTrace.TraceGivesBack | app/src/main/cpp/native_consumer.c:964-1012 | Of the trace of any passes: the buffers dequeued are the window's, in order; each is followed, past the closing of its acquire fence if it has one, by its one queueing; the fences queued are those of the passes that had a buffer, in order. |
| RenderLoop.PushCollected | app/src/main/cpp/native_consumer.c:806 | do_connect stores the table of the buffers collected. |
| RenderLoop.RecordOfBuffer | app/src/main/cpp/native_consumer.c:982-997 | The index announced for a buffer is, in the table the producer has read, a record with stride 4 * stride, the buffer's width and height, format 1, modifier 0 and offset 0, and the duplicate of its descriptor. |
| RenderLoop.RenderThread | app/src/main/cpp/native_consumer.c:945-1018 | Over any window and any producer: the buffers dequeued are the window's, in order, each queued back once, before the next, past the closing of its fence, with the fence of its own pass; each pass starts where the last ended and announces the buffer it was given exactly when there is a session and the buffer has been collected; the frames the session has given up are exactly the failed reads since it began. |

## Left out

- Concurrency of the calls in `DisplayCtx`: they run one at a time there, so its locks and the choice of locked or lock-free send do not appear; the interleavings are the subject of `Sessions`.
- Each of `select_dmabuf` and `refresh_done` is one call even though the source reads `shm_ptr`, `fence_fd` and `buffer_pending` without a lock.
- Descriptor-number reuse in `Sessions`: there a socket is named by its generation, so a lock-free writer with an old number fails; `Kernel` does reuse numbers.
- `free_resource` callbacks are assumed to return and not to re-enter the library.
- DisplayContext.DisplayCtx.SendHelloFds: the 8-byte hello is delivered whole with its descriptors or not at all, as one `sendmsg` of that size is; a short count is a failure here as in the source.
- DisplayContext.DisplayCtx.TryExitFallback: a control header is read whole once `poll` has reported it; a header cut off in the middle is not modelled, and control messages carry no payload.
- OutputFraming.HandlesExactlyTheList: clipboard sizes of 2^32-1, whose buffer size overflows in the source, are excluded.
- EventLoop.EventThread.RunLoop: an AF_UNIX stream socket delivers what is queued before it reports an error, so a `recv` error other than EINTR counts where nothing is queued; Java callbacks are the fact that an event was handled.
- DisplayContext.DisplayCtx.HandleResourceRequest: an allocator returns fewer than 2^31 descriptors, so that their number survives the conversion to `int`.
- RenderLoop.RenderThread: an acquire fence that comes with a failed dequeue, which the source does not close, is not modelled.
- DisplayContext.DisplayCtx.RefreshDone: the received fence descriptor belongs to the caller; it is a token here and not an entry of the descriptor table.
- Instances.OneEventThread: one lifecycle thread; `nativeStop` and `nativeDestroy` release `s->lock` while joining the render thread, so two at once are excluded, and so is `nativeStart` on an instance that has not been stopped, which disconnects without joining. The event thread leaves its loop only when told to, and creating the render thread succeeds.
- Instances.ConnectStarts: a context is connected only when no input thread is still in a call on a freed one; `Hush.DisconnectAlone` says what callers must do for that.
- Instances.NoDeadlock: I/O steps complete. `s->lock` has no step: only lifecycle calls take it, of which there is one at a time.
- `WriteGate` has no model of `num_services < 0`.
- `set_screen_info`, `get_data_fd`, `get_audio_fd`, callback registration: single stores, loads or sends.
- `recv_fds`, `connect_unix`, `fd_helper.c`, `recv_fd_via_root_helper`: they yield a connected control descriptor or -1.
- Foreground scheduling, JNI, clipboard and activity objects, audio and camera, Compose UI, scripts: foreign calls or user interface.
- `boot.c`: a straight line of mounts without state to reason about.
- The five descriptor fields and `shm_ptr` are one record field of `DisplayCtx`, the services, resources and gate another; each is assigned whole where the source assigns a member.
- Failure of the first `calloc` of a context, and of `nativeCreate`.
