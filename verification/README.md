# Medusa event pipeline: a verified model

Medusa's agent collects `ACEvent` records (driver messages, named-pipe messages, module scans), puts
them on `EventChannel` and ships them over a WebSocket that reconnects after every failure; the
backend accepts any number of agents, decodes the records into one channel `Recv` and broadcasts text
commands back. This project models that pipeline and the code it rests on, and proves what holds of
it in every run and for every input.

| part | files |
|---|---|
| reconnecting client (`HydraWS`) as a step system | `WsClient`, `WsClientRuns`, `WsClientSafety`, `WsClientHistory`, `WsClientOrder`, `WsClientOvertake`, `WsClientFifo`, `WsClientShutdown`, `WsClientClose`, `WsClientDrain`, `WsClientOutlet`, `WsClientReconnect`, `WsClientCommands`, `WsClientRecovery`, `WsClientBackoff` |
| the same client as an object over bounded channels, updated in place | `WsClientObject` |
| backend server (`HydraWSServer`) | `WsServer`, `WsServerSafety`, `WsServerMembers`, `WsServerProgress`, `WsServerObject` |
| client, network and server together | `EndToEnd` |
| byte image of `ACEvent`, text buffers | `EventImage`, `TextCodec`, `Events` |
| event sources | `PipeFraming`, `PortReceiver`, `DllScan`, `Channels` |
| reconnect delays | `Backoff` |
| handle guard of the driver | `HandleGuard` |
| shared facts | `Sequences`, `Wrappers` |

**How concurrency is modelled.** A state holds the shared fields and one program counter per
goroutine; an action is one atomic step of one goroutine or of its environment; `Runs(s, schedule)`
says that every action is enabled when its turn comes, and `Reachable` quantifies over all schedules
from the initial state. Sessions, connections and handlers are unbounded. History fields (what went
through each channel, which position each frame had) are only written, never read by a guard. The
object files give the same sections as methods of a class whose channels are rings of slots; each
keeps the object valid and makes exactly the step of the step function on the abstract state, and
`Execute` runs any schedule on the object. Sequential code is imperative
and proved against functions whose properties are separate lemmas.

**What turned out to be false of the code**, with the exact condition proved in each case:

- Order is not kept in every run. A writer reads `h.conn` only after it is scheduled
  (`MedusaUserlandAgent/WebSocketWorker.go:237-239`), so one that starts after its session's teardown captures the next
  session's connection; `LateCaptureReorders` is such a run. The condition is a guard on the capture:
  there is no connection, or no other live writer holds it. `FifoAcrossReconnects` proves order for every
  run whose captures meet it, and `GuardIsExact` that a run meets it throughout if and only if at no point
  of the run a continuation without a further capture loses the order.
- `Close` need not return. Module scans run inside the read loops and send to `EventChannel` without
  looking at the context, and once the pump has quit nobody empties that channel. `CloseReturnsIff`: after
  the cancel and the pump's end, `Close` can return if and only if the channel has room for what all
  scans in progress, in all sessions, have left to send; `CancelledCloseReturnsIff` gives the condition for every
  cancelled state, pump alive or not. `TwoScansReachable` reaches states where it has
  not, with one large scan or with two that would each fit; `ShutdownHaltsIff` says in which state the
  winding down halts.
- The `int32` packing of file names is not lossless: it reads back exactly when every rune kept is
  below 0x10000 (`RoundTrip32Iff`), and so does a module scan (`ScanRoundTripIff`); `Read32Packed` says what is
  read otherwise. Names the driver copies into the cells as wide characters come back as every other unit of
  themselves, so they survive only when at most one unit long (`DriverNameHalved`).

Two things the code leaves to its callers, which comply: `Receiver.Loop` ignores how long a
message was, and forwards only what it was sent if and only if every message is whole
(`NoStaleBytesIff`), as all of the driver's are (`MedusaKernelDriver/NotifyRoutine.c:41,78,115`,
`MedusaKernelDriver/Callback.c:55`); and the buffer that `MedusaUserlandAgent/structs.go:95` promises to be zero-terminated
is so if and only if it has a cell (`TerminatedIff`), as all three callers' buffers have.

## Model

| member | source | states |
|---|---|---|
| WsClientSafety.WaitGroupCountsGoroutines | MedusaUserlandAgent/WebSocketWorker.go:75-188 | In every reachable state the WaitGroup counter equals the live pump, run and session goroutines plus the three just announced; `Add(3)` happens only while it is positive; zero means everything has returned |
| WsClientSafety.ClosedChannelSafety | MedusaUserlandAgent/WebSocketWorker.go:86-98 | No send on `sendCh` after it is closed, no second close and no negative WaitGroup counter ever panics: once `sendCh` is closed no pump is left to send to it and no writer to receive its zero frame, and only the environment can still act |
| WsClientSafety.SingleOpenConnection | MedusaUserlandAgent/WebSocketWorker.go:176-215 | At most one dialed connection is open, and it is `h.conn` or the local of `connect`; none is open while run sleeps, dials or has returned, also when `Close` races a dial |
| WsClientSafety.StepKeepsInv | MedusaUserlandAgent/WebSocketWorker.go:86-279 | Every step of every goroutine keeps the shape of connections and sessions, the exact count, and the order cancel, wait, close |
| WsClientSafety.NoneLive | MedusaUserlandAgent/WebSocketWorker.go:162-165 | The live count is zero exactly when all three goroutines of every session are gone |
| WsClientReconnect.RunWakesIff | MedusaUserlandAgent/WebSocketWorker.go:167-174 | In every reachable state in which run waits, its only step is to wake, and it is enabled if and only if the context is cancelled or the reader, the writer or the pinger of the current session has returned |
| WsClientReconnect.RunWaitsForLoops | MedusaUserlandAgent/WebSocketWorker.go:167-174 | While all three loops of the current session are in progress and nothing is cancelled, run has no step |
| WsClientReconnect.LoopEndReconnects | MedusaUserlandAgent/WebSocketWorker.go:163-187 | A failed read, write or ping of the current session, or a loop that finds no connection, leads run by wake, teardown and test back to the dial with no connection open, at once or after any steps of the other goroutines; cancelled in between, run returns |
| WsClientReconnect.OnlyTheseEndLoops | MedusaUserlandAgent/WebSocketWorker.go:217-279 | Before the cancel a loop of a session ends by nothing but these steps |
| WsClientReconnect.AnyOperationMayFail | MedusaUserlandAgent/WebSocketWorker.go:225-230 | A read in progress, a frame being written and a ping may each fail at any moment, whether or not anyone closed the connection |
| WsClientReconnect.CloseCutsConnection | MedusaUserlandAgent/WebSocketWorker.go:88-94 | The locked section of `Close` leaves `h.conn` nil and no connection open but a dial that has just succeeded |
| WsClientCommands.MessagesHandledInOrder | MedusaUserlandAgent/main.go:97-104 | In every run the messages of a connection are read in the order of arrival, none skipped or repeated, and as many scans begin as messages read that are exactly "scanDLL" |
| WsClientCommands.ScanSendsAll | MedusaUserlandAgent/DLLScanner.go:122-136 | A scan that returns has sent exactly its events, in order, whatever others sent in between, and its reader goes on with the same connection |
| WsClientHistory.Conservation | MedusaUserlandAgent/WebSocketWorker.go:124-257 | With no premise on scheduling: dequeued plus queued is the enqueue log as a sequence; each dequeued position is on exactly one wire once, held, or lost; losses are at most one frame per session started and one event in the pump, the latter only after cancel |
| WsClientHistory.WrittenAtMostOnce | MedusaUserlandAgent/WebSocketWorker.go:243-256 | The frames written on all connections are included, with multiplicities, in the frames dequeued |
| WsClientHistory.EventsAtMostOnce | MedusaUserlandAgent/WebSocketWorker.go:124-257 | For any number of reconnects the events on the wires are included, with multiplicities, in the events sent to `EventChannel` |
| WsClientHistory.StepKeepsAccounted | MedusaUserlandAgent/WebSocketWorker.go:236-257 | Every step keeps the multiset balance of written, held and lost positions against the dequeue log |
| WsClientHistory.WiresArePicks | MedusaUserlandAgent/WebSocketWorker.go:236-257 | What is on the wires is, frame by frame, what was dequeued at the recorded positions |
| WsClientFifo.FifoAcrossReconnects | MedusaUserlandAgent/WebSocketWorker.go:144-257 | In every run in which each capture of a connection finds none or one that no other live writer holds, the frames on all wires in session order are a subsequence of the frames enqueued, and their events a subsequence of the events emitted, although stale writers still take frames |
| WsClientFifo.CaptureClearIff | MedusaUserlandAgent/WebSocketWorker.go:237-241 | A capture keeps a clear state clear if and only if it meets the guard: `h.conn` is nil, or no writer can still write on an open connection |
| WsClientFifo.GuardIsExact | MedusaUserlandAgent/WebSocketWorker.go:236-257 | All captures of a run meet the guard if and only if at no point of the run a continuation without a further capture loses the order |
| WsClientFifo.FifoUnderTimelyCapture | MedusaUserlandAgent/WebSocketWorker.go:176-241 | The same for every schedule in which each writer captures its connection before its session's teardown |
| WsClientOrder.StepKeepsOrder | MedusaUserlandAgent/WebSocketWorker.go:236-257 | Without a premise: one writer's frames are in order on its wire, what it holds is newer, and a writer bound to a newer connection dequeued nothing before the older wires were final |
| WsClientOrder.SortedWiresIncrease | MedusaUserlandAgent/WebSocketWorker.go:144-188 | Wires ordered within and between connections concatenate to one strictly increasing list of positions |
| WsClientOrder.SortedIsFifo | MedusaUserlandAgent/WebSocketWorker.go:144-257 | Ordered wires mean that the frames on them, in session order, are a subsequence of the frames enqueued, and their events of the events emitted |
| WsClientOvertake.SafeIffClear | MedusaUserlandAgent/WebSocketWorker.go:236-257 | From a state with ordered wires, all continuations without a further capture keep the order if and only if at most one live writer holds the open connection and its frame is newer than all on that wire; while the pump can supply frames the continuations make no `SendJSON` call either, which nothing in the repository makes |
| WsClientOvertake.BreakOrder | MedusaUserlandAgent/WebSocketWorker.go:236-257 | From every other state there is such a continuation that breaks the order, with events from the pump as long as it lives and only after that with a frame from `SendJSON` |
| WsClientOvertake.RunKeepsOrdered | MedusaUserlandAgent/WebSocketWorker.go:236-257 | Without a further capture a clear, ordered state stays clear and ordered through any run |
| WsClientFifo.LateCaptureReorders | MedusaUserlandAgent/WebSocketWorker.go:237-241 | A concrete run from the start in which a writer captures late and two events reach the wire swapped, so FIFO is not unconditional |
| WsClientShutdown.ShutdownBound | MedusaUserlandAgent/WebSocketWorker.go:86-196 | After cancel every run contains at most the measure's number of winding-down steps, and at most one more session opens, none unless a dial was under way |
| WsClientShutdown.CancelledStepRank | MedusaUserlandAgent/WebSocketWorker.go:124-279 | After cancel no step raises the measure over run, pump and session goroutines, and each winding-down step lowers it |
| WsClientShutdown.LastPhaseStep | MedusaUserlandAgent/WebSocketWorker.go:217-234 | With run gone every shutdown step (winding down, reading a buffered message, a scan's send or return) uses up what remains; only a scan that starts adds to it |
| WsClientShutdown.LastPhaseBound | MedusaUserlandAgent/WebSocketWorker.go:217-279 | In every run of that phase the shutdown steps are at most what remained plus the scans begun in it, and no more messages are read than the phase began with |
| WsClientClose.ShutdownProgress | MedusaUserlandAgent/WebSocketWorker.go:144-279 | Until the counter is zero some shutdown step is enabled, also with scans in progress, unless only scans are left and `EventChannel` is full; a write or read it relies on failing is one on a closed connection |
| WsClientClose.ShutdownHaltsIff | MedusaUserlandAgent/WebSocketWorker.go:86-279 | With the counter above zero no shutdown step is enabled if and only if run, pump, writers and pingers are gone, each reader left is in a scan with events to send, and `EventChannel` is full |
| WsClientClose.CloseReturns | MedusaUserlandAgent/WebSocketWorker.go:86-98 | With the counter at zero `Close` returns from wherever it is, `sendCh` is closed once, nothing runs |
| WsClientClose.CloseReturnsIff | MedusaUserlandAgent/WebSocketWorker.go:86-98 | After the cancel and the pump's end some continuation lets `Close` return if and only if `EventChannel` has room for every event that all scans in progress, taken together, have left to send |
| WsClientClose.RoomLetsCloseReturn | MedusaUserlandAgent/WebSocketWorker.go:86-196 | With that room every cancelled state, pump alive or not, has a continuation in which all scans return, the counter reaches zero and `Close` returns |
| WsClientClose.ScanReturnsIff | MedusaUserlandAgent/DLLScanner.go:117-137 | Once the pump is gone, one reader's scan, favoured over all others, can return if and only if `EventChannel` has room for what it alone has left |
| WsClientClose.OverfullBlocksClose | MedusaUserlandAgent/WebSocketWorker.go:95-97 | When the scans together exceed the room, on no continuation does the counter reach zero or `Close` return |
| WsClientClose.TwoScansReachable | MedusaUserlandAgent/WebSocketWorker.go:144-234 | Any two scans, the second begun after a reconnect, can both be in progress after the cancel and the pump's end, so the blocked state is reachable also with scans that would each fit |
| WsClientDrain.StageBound | MedusaUserlandAgent/WebSocketWorker.go:124-257 | With a live writer on an open connection and a live pump, stage steps in any order are at most the load in number, lose nothing, and leave the writer able to go on |
| WsClientDrain.StageProgress | MedusaUserlandAgent/WebSocketWorker.go:217-257 | While anything is queued or a producer is blocked, a stage step is enabled |
| WsClientDrain.StageLowersLoad | MedusaUserlandAgent/WebSocketWorker.go:124-257 | Every stage step lowers the weighted load |
| WsClientDrain.BackPressureDrains | MedusaUserlandAgent/DLLScanner.go:117-137 | A scan of any number of modules completes although it is produced from the read loop: stage steps alone empty every channel, and with a sole writer each dequeued frame ends on a wire exactly once save those lost before |
| WsClientOutlet.CancelledCloseReturnsIff | MedusaUserlandAgent/WebSocketWorker.go:86-279 | In every cancelled state `Close` can return if and only if the pump lives and some writer can write or can still capture a connection to write on, or the scans in progress have no more left than the slack: the room of `EventChannel` and, while the pump lives, its hand, the room of `sendCh` and one frame for each waiting writer |
| WsClientOutlet.StepTight | MedusaUserlandAgent/WebSocketWorker.go:124-257 | Without such a writer no step of any goroutine gains slack over what scans have left or gains an outlet, and the steps that move an event on waste none |
| WsClientRecovery.FlowRestored | MedusaUserlandAgent/WebSocketWorker.go:144-215 | From every reachable state before the cancel a continuation through teardown, dial and capture leads to a live writer on an open connection, losing nothing |
| WsClientRecovery.NeverJammedForGood | MedusaUserlandAgent/WebSocketWorker.go:124-257 | So no state before the cancel is jammed for good: some continuation ends every scan and empties every channel, also when the writer died while an older reader is blocked in a scan |
| WsClientBackoff.AttemptCountsFailures | MedusaUserlandAgent/WebSocketWorker.go:144-156 | In every run the attempt counter equals the dials that failed since the last connection |
| WsClientBackoff.RunSleepBounds | MedusaUserlandAgent/WebSocketWorker.go:144-156 | In every run k dials failed in a row have slept at least S(k) and less than S(k) + k jitters |
| WsClientBackoff.DefaultSleepBounds | MedusaUserlandAgent/WebSocketWorker.go:71-73 | Under the defaults k dials failed in a row have slept (2^k - 1) half seconds, from the seventh on thirty seconds more each, and less than a quarter second each on top |
| WsClientBackoff.OneSleepPerFailure | MedusaUserlandAgent/WebSocketWorker.go:152-154 | In every run each failed dial is slept off exactly once before the next |
| Channels.BoundedChannel.Send | MedusaUserlandAgent/main.go:38 | A send into a ring of slots with room appends to what the channel holds |
| Channels.BoundedChannel.Receive | MedusaUserlandAgent/WebSocketWorker.go:244-245 | A receive takes the oldest element and leaves the rest in order |
| WsClientObject.HydraWS.Perform | MedusaUserlandAgent/WebSocketWorker.go:86-279 | Every atomic section of every goroutine, on the fields and the two channel rings, keeps the object valid and makes exactly the step of the step system |
| WsClientObject.Execute | MedusaUserlandAgent/WebSocketWorker.go:50-279 | Under any schedule the object ends where the step system says, with an exact counter, no panic, and no stray open connection |
| WsServerSafety.LockDiscipline | MedusaBackend/WSServer.go:57-120 | In every interleaving no lock is released unheld, the map is written only under the exclusive lock with no reader inside and walked only under the read lock, and each member has a handler between its insert and its deferred delete |
| WsServerMembers.MembershipIff | MedusaBackend/WSServer.go:63-70 | In every reachable state a connection is in `conns` if and only if its handler is between insert and deferred delete and it is open, but for one the broadcaster has closed and is about to delete; a handler that has ended leaves its connection closed |
| WsServerSafety.RemovedStaysOut | MedusaBackend/WSServer.go:117-120 | A connection removed from the map never returns, on any continuation |
| WsServerSafety.BroadcastContiguity | MedusaBackend/WSServer.go:57-84 | The commands written to one connection are a contiguous segment of the command log without repeats, although the lock is let go in mid-walk; between command walks a connection that ever got one has got the latest |
| WsServerMembers.WalkReachesAll | MedusaBackend/WSServer.go:58-73 | When a walk ends, every connection registered and open when it began that still is has got the command, whatever was inserted, dropped or deleted meanwhile |
| WsServerMembers.CommandsTakenInOrder | MedusaBackend/WSServer.go:57 | In every run the commands taken and those waiting make up the commands sent to `SendText`, in order |
| WsServerMembers.ChannelsAreBounded | MedusaBackend/WSServer.go:30-44 | `SendText` and `Recv` never hold more than the 1024 of `main`, a handler waits exactly while `Recv` is full, and the broadcaster stops only when the server was cancelled |
| WsServerMembers.DroppedOnlyWhenCancelled | MedusaBackend/WSServer.go:133-137 | An event read off a connection is dropped only when the server was cancelled |
| WsServerSafety.RecvInterleavesConnections | MedusaBackend/WSServer.go:122-138 | `Recv` is an interleaving of connections: each contributed, in order, its binary messages of exactly the event size, short of at most one; text and wrong sizes never surface |
| WsServerSafety.ConnectionContribution | MedusaBackend/WSServer.go:122-138 | The same for one connection, as a split: what is pending is the event its handler offers or the one it dropped on shutdown |
| WsServerSafety.StepKeepsInv | MedusaBackend/WSServer.go:54-138 | Every step of handlers and broadcaster keeps lock, connection set, delivery and `Recv` bookkeeping |
| WsServerProgress.HoldStep | MedusaBackend/WSServer.go:58-79 | While the lock is held, each step of its holder uses up its rank and nobody else changes rank or lock |
| WsServerProgress.HolderCanStep | MedusaBackend/WSServer.go:58-79 | Whoever holds the lock has a step that waits for nothing |
| WsServerProgress.HoldIsBounded | MedusaBackend/WSServer.go:58-79 | In any run the lock is free after at most the rank's number of holder steps, so the trade of read for write lock cannot deadlock |
| WsServerObject.HydraWSServer.ReceiveRecv | MedusaBackend/Main.go:22 | The consumer receives from the ring, in order, what was sent to `Recv` |
| WsServerObject.HydraWSServer.Perform | MedusaBackend/WSServer.go:54-138 | Every atomic section of handlers and broadcaster, on the fields and the rings of `SendText` and `Recv`, keeps the object valid and makes exactly the step of the step system |
| WsServerObject.Execute | MedusaBackend/WSServer.go:46-139 | Under any schedule the object ends where the step system says, with no misuse of lock or map |
| EndToEnd.ContributionIsPrefix | MedusaBackend/WSServer.go:122-138 | What a connection contributed to `Recv` decodes to a prefix of the events written on it, byte padding and text frames included |
| EndToEnd.AgentPartIsContributions | MedusaBackend/WSServer.go:133-138 | `Recv` holds the contributions of the agent's connections with the same multiplicities |
| EndToEnd.EndToEndAtMostOnce | MedusaUserlandAgent/WebSocketWorker.go:124-257 | Over any reconnects and interleavings at both ends, and whichever connections a handler ever accepted, the events received from the agent are included, with multiplicities, in those it emitted |
| EndToEnd.EndToEndOrder | MedusaUserlandAgent/WebSocketWorker.go:236-257 | For every client run whose captures meet the guard, what was received, connection by connection, is a subsequence of what was emitted |
| EventImage.FieldsDisjoint | MedusaBackend/Event.go:19-30 | For every list of fields: each is aligned, inside the struct, and ends before every later one starts |
| EventImage.EventLayout | MedusaBackend/Event.go:19-30 | The ten fields' extents, and the size 3648 with four padding bytes before `ImageBase` and four after `ImageSize` |
| EventImage.CoveredIffNotPadding | MedusaBackend/Event.go:19-30 | A byte belongs to a field exactly when it is not one of the eight padding bytes |
| EventImage.FetchStored | MedusaBackend/WSServer.go:131-132 | For every layout, reading fields from memory they were stored in gives them back |
| EventImage.StoreFetched | MedusaBackend/WSServer.go:131-132 | For every layout, storing what was read restores each field byte and leaves padding as the background has it |
| EventImage.DecodeImage | MedusaBackend/WSServer.go:122-132 | Every event survives the trip through its bytes, whatever the padding holds |
| EventImage.ImageDecode | MedusaBackend/WSServer.go:122-132 | Re-encoding a decoded image agrees with it off the padding |
| EventImage.SameEventIff | MedusaBackend/WSServer.go:122-132 | Two images decode alike if and only if they agree off the padding |
| EventImage.NumbersFromBytes | MedusaBackend/Event.go:19-30 | Each numeric field of a decoded event from the bytes at its own offset, least significant first, signed where declared so |
| EventImage.TextsFromBytes | MedusaBackend/Event.go:19-30 | Each cell of the three text fields from the bytes at its own offset |
| EventImage.EvToBytes | MedusaUserlandAgent/WebSocketWorker.go:116-122 | A fresh slice with every byte of the event, decoding to the same event |
| EventImage.CopyInto | MedusaBackend/WSServer.go:131-132 | The receiving copy makes the event variable the first 3648 bytes of the source |
| TextCodec.StringZInto16 | MedusaUserlandAgent/structs.go:96-123 | In place, for uint16 cells: the UTF-16 units cut to n - 1 and zeros after, cell by cell |
| TextCodec.StringZInto32 | MedusaUserlandAgent/structs.go:96-123 | In place, for int32 cells: one rune per cell cut to n - 1 and zeros after, cell by cell |
| TextCodec.StringZ260U16 | MedusaUserlandAgent/structs.go:127 | The 260-unit wrapper packs a fresh array |
| TextCodec.StringZ260I32 | MedusaUserlandAgent/structs.go:126 | The 260-cell wrapper packs a fresh array |
| TextCodec.StringZ1024U16 | MedusaUserlandAgent/structs.go:128 | The 1024-unit wrapper packs a fresh array |
| TextCodec.Utf16ToString | MedusaBackend/Event.go:33-39 | The scan for the terminator and the decoding equal the reading function |
| TextCodec.Int32ToString | MedusaBackend/Event.go:47-56 | The narrowing loop and the decoding equal the reading function |
| TextCodec.Read32Units | MedusaBackend/Event.go:47-56 | Reading any int32 cells is decoding the low halves of all those before the first zero cell |
| TextCodec.Read32IsRead16Iff | MedusaBackend/Event.go:47-56 | Reading int32 cells is reading their low halves as UTF-16 if and only if no cell before the terminator is a nonzero multiple of 0x10000 |
| TextCodec.DecodeEncode | MedusaBackend/Event.go:42-44 | UTF-16 decoding inverts encoding for every text, also in front of further units (RFC 2781, sections 2.1 and 2.2) |
| TextCodec.PairOf | MedusaUserlandAgent/structs.go:114 | A rune beyond the BMP and its surrogate pair determine each other by the formula of RFC 2781, section 2.1 |
| TextCodec.UnpairedIsReplaced | MedusaBackend/Event.go:42-44 | A low surrogate alone, or a high one with anything but a low one behind it, reads as U+FFFD after any text, and decoding resumes with the next unit |
| TextCodec.RoundTrip16 | MedusaUserlandAgent/structs.go:113-120 | For every text and n of at least 2: what is read back is the longest prefix that fits n - 1 units, followed by U+FFFD exactly when the cut splits a pair; the last cell is zero |
| TextCodec.RoundTrip32Iff | MedusaUserlandAgent/structs.go:104-112 | The int32 packing reads back what it kept if and only if every kept rune is below 0x10000 |
| TextCodec.Read32Packed | MedusaUserlandAgent/structs.go:104-112 | What any packed text reads back as: its kept runes cut to 16 bits and decoded, which gives just the cut runes if and only if none of them is a surrogate |
| TextCodec.DriverNameHalved | MedusaKernelDriver/NotifyRoutine.c:28 | A name copied as wide characters into the int cells reads back as every other unit; without surrogates it survives if and only if it is at most one unit long |
| TextCodec.UncombinedIsBmp | MedusaBackend/Event.go:47-56 | A decoding as long as its input recombined no pair, so it lies in the BMP |
| TextCodec.TerminatedIff | MedusaUserlandAgent/structs.go:95-102 | A packed buffer ends in zero if and only if it has a cell; with fewer than two cells it reads back empty |
| DllScan.ExecuteDLLScan | MedusaUserlandAgent/DLLScanner.go:117-137 | Sends one event per module, in order; nothing when the snapshot failed |
| DllScan.ScanTypeIs | MedusaUserlandAgent/DLLScanner.go:126 | The type the events carry is the text "DLLScan" |
| DllScan.ScanReport | MedusaUserlandAgent/DLLScanner.go:122-136 | Each field of one module's event read back through the bytes, the path faithful exactly on the BMP |
| DllScan.ScanRoundTripIff | MedusaUserlandAgent/DLLScanner.go:122-136 | For NUL-free paths of at most 259 runes: decoding the emitted bytes gives back the exact module list, in order, of type "DLLScan", if and only if every path lies in the BMP |
| PipeFraming.Pipe.ReadFile | MedusaUserlandAgent/IPC.go:64 | One read of a message-mode pipe: whole message, part with more-data, broken, or failed |
| PipeFraming.Drain | MedusaUserlandAgent/IPC.go:96-107 | Reads on to the end of the message in ceil(rest / 16384) reads, or until the handle fails |
| PipeFraming.DrainReadsIsCeiling | MedusaUserlandAgent/IPC.go:96-107 | That count is the remainder over the buffer size, rounded up |
| PipeFraming.ReadOne | MedusaUserlandAgent/IPC.go:62-93 | One turn forwards a message of the event size, skips any other, stops on an empty one or an error, and leaves the rest of the delivery due |
| PipeFraming.ReadLoop | MedusaUserlandAgent/IPC.go:58-94 | For messages of any sizes: emits exactly those of the event size, in order, up to the first empty one as far as the handle lives, in the stated number of reads, leaving the rest unread |
| PipeFraming.HealthyDelivers | MedusaUserlandAgent/IPC.go:58-94 | With reads to spare, delivery is all event-size messages before the first empty one |
| PipeFraming.BreakingDeliversPrefix | MedusaUserlandAgent/IPC.go:65-79 | A handle that fails earlier delivers a prefix of what it would have delivered |
| PortReceiver.HeaderLayout | MedusaUserlandAgent/structs.go:13-16 | The message header takes 16 bytes |
| PortReceiver.Loop | MedusaUserlandAgent/main.go:41-75 | The reused buffer and the events sent, for any sequence of calls |
| PortReceiver.WholeEventsForwarded | MedusaUserlandAgent/main.go:47-74 | With whole messages exactly their payloads are forwarded, in order; failed calls forward nothing |
| PortReceiver.NoStaleBytesIff | MedusaUserlandAgent/main.go:45-64 | From no call on what is forwarded depends on what the buffer held before, if and only if every message is whole |
| PortReceiver.ShortMessageKeepsStaleBytes | MedusaUserlandAgent/main.go:45-64 | What a short message would forward, byte by byte: its own bytes, then what the buffer held behind them |
| Backoff.NextBackoff | MedusaUserlandAgent/WebSocketWorker.go:281-295 | The delay, with defaults for zero settings, capped doubling, and the clock modulo the jitter on top |
| Backoff.SleepBounds | MedusaUserlandAgent/WebSocketWorker.go:281-295 | For every attempt: base ≤ delay < cap + jitter |
| Backoff.JitterFollowsClock | MedusaUserlandAgent/WebSocketWorker.go:291-293 | Two delays of one attempt differ as the clocks do modulo the jitter, the jitter lies from zero to below its bound, and without a positive bound there is none |
| Backoff.EveryDelayOccurs | MedusaUserlandAgent/WebSocketWorker.go:291-293 | Every delay from the plain one to just below the jitter above it occurs at some clock reading |
| Backoff.ZeroMeansDefault | MedusaUserlandAgent/WebSocketWorker.go:282-289 | A base or cap of zero means half a second or thirty seconds |
| Backoff.PlainMonotone | MedusaUserlandAgent/WebSocketWorker.go:290 | Without jitter the delay never shrinks, and stays at the cap once there |
| Backoff.PlainSaturates | MedusaUserlandAgent/WebSocketWorker.go:290 | The cap is reached, whatever the base |
| Backoff.TotalSleepBounds | MedusaUserlandAgent/WebSocketWorker.go:152-153 | k failures in a row sleep at least the plain sum and less than k jitters more |
| Backoff.DefaultSum | MedusaUserlandAgent/WebSocketWorker.go:71-73 | Under the defaults that sum is (2^k - 1) half seconds up to k = 6, then thirty seconds each |
| Backoff.DefaultDelays | MedusaUserlandAgent/WebSocketWorker.go:281-295 | Under the defaults the delays that occur for an attempt are exactly those from the plain one to just below a quarter second above it |
| Backoff.FailInARow | MedusaUserlandAgent/WebSocketWorker.go:146-155 | The failing branch repeated: attempt counter and total sleep |
| HandleGuard.Driver.PortNotify | MedusaKernelDriver/Coms.c:67-93 | A version 1 context sets both PIDs, anything else leaves them; the client port is set either way |
| HandleGuard.Driver.CreateCallback | MedusaKernelDriver/Callback.c:14-60 | A user handle to the protected process keeps of the desired access exactly the bits 0x1000 and 0x100000 unless the caller is the agent, with one send; every other operation is untouched and unreported |
| HandleGuard.UndisturbedCallback | MedusaKernelDriver/Callback.c:14-60 | The interleaved form, left undisturbed, does what the routine does in one go |
| HandleGuard.UndisturbedConnect | MedusaKernelDriver/Coms.c:79-88 | The interleaved connect, left undisturbed, leaves the target and agent of its version 1 context and changes nothing otherwise |
| HandleGuard.GlobalsComeFromConnects | MedusaKernelDriver/Coms.c:53-88 | In every run the globals have held 99133799 and then, in order, the targets and agents of the version 1 contexts, the agents at most one exchange behind |
| HandleGuard.ProtectsIff | MedusaKernelDriver/Callback.c:22-30 | A target protects a process if and only if it agrees with its PID in the low 32 bits and is not 99133799 |
| HandleGuard.PidConversions | MedusaKernelDriver/Callback.c:28-33 | Widening a LONG to a HANDLE sign-extends it, narrowing keeps the low 32 bits, and the two cancel |
| HandleGuard.AccessProvenance | MedusaKernelDriver/Callback.c:19-40 | Over every interleaving with connects: an excess bit remains only if, while the callback ran, the globals did not protect the process or named the caller as the agent |
| HandleGuard.StrippingIsExact | MedusaKernelDriver/Callback.c:33-40 | Stripping adds no bit and takes no allowed one away |
| HandleGuard.StrippedBits | MedusaKernelDriver/Callback.c:2-8 | Stripping leaves no right to terminate, operate on, read or write memory, nor any other, but limited query and synchronize exactly as desired |
| HandleGuard.AllowedBitsKept | MedusaKernelDriver/Callback.c:33-40 | In every interleaving the access is the desired one, or of it exactly the bits 0x1000 and 0x100000 |
| HandleGuard.OneSendPerOperation | MedusaKernelDriver/Callback.c:42-58 | At most one send per operation, exactly one when protection held all the while, none for kernel handles and other objects |
| HandleGuard.ProtectionStands | MedusaKernelDriver/Callback.c:14-60 | While protection of p stands, an operation begun and finished in that stretch leaves another caller of the desired access exactly the bits 0x1000 and 0x100000, and is reported once |
| HandleGuard.GrantsNeverGrow | MedusaKernelDriver/Callback.c:14-60 | Over such a stretch the set of operations that left others an excess bit on p loses none and gains at most callbacks in flight at its start |

## Left out

- Goroutine loops of `MedusaUserlandAgent/WebSocketWorker.go` and `MedusaBackend/WSServer.go`: the object files have one method call per atomic section, chosen by a schedule, instead of running loops; blocking is a section that is not enabled, and sessions, connections and handlers stay values in fields.
- HTTP upgrade, dialing, TLS, proxies and compression: a dial succeeds or fails at will.
- Read and write deadlines, ping timers and pong handling: any read, write or ping may fail at any time, and a ping that succeeds changes nothing.
- gorilla/websocket's internals, among them its panic on concurrent writes (a ping and a data write, or two writers on one connection), and frames partly transmitted by a write that reports an error: a write is atomic and either appends the frame or loses it.
- `HydraWS.Close` called twice, or `SendJSON` called while or after `Close` closes the channel: the repository calls neither; the model lets `SendJSON` run only while the channel is open.
- Closing `EventChannel`: the pump's branch for it is modelled, but nobody in the repository closes the channel, and a producer that would send to it closed is not enabled.
- `HydraWSServer.Close` and its closing of `Recv`: `main` never reaches it; no claim is made about that channel being closed.
- Writer preference of `sync.RWMutex`: a reader may enter while a writer waits, which only adds interleavings; fairness between waiting goroutines is not claimed.
- Read limits: an oversized message is a read error like any other.
- EndToEnd.EndToEndAtMostOnce: takes the network as a link from each of the agent's connections to the server handler that accepted it, if one did, over which a prefix of what was written arrives.
- WsClientDrain.BackPressureDrains: gives a schedule of stage steps and, with StageBound, a bound on every such schedule; it does not claim that the Go scheduler is fair.
- PipeFraming.Pipe.ReadFile: a handle that fails once keeps failing; an error that goes away again is not modelled.
- The two `ACEvent` declarations and their decoders on the agent's side (`MedusaUserlandAgent/Event.go`): the same code as the backend's, which is modelled.
- Invalid UTF-8 in Go strings: a text is the sequence of runes that ranging over it yields.
- JSON marshalling and console output: library code; `DllScan.ToReport` is the record that is marshalled.
- The driver's process and image notifications themselves: only what becomes of the names they copy into `ImageFileName` is stated (DriverNameHalved).
- The event contents of a handle notice beyond caller and target, and whether `FpSendRaw` succeeds: constants and a logged status.
- Rounding in `nextBackoff`: exact integers; overflow of a configured duration near the int64 limit.
- `Start` and `server` of `MedusaUserlandAgent/IPC.go`, `GetProcessModules`, injection, ETW, registry, driver load and unload, hook DLL: foreign calls.
