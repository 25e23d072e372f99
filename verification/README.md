# The serial I/O engine and its callback protocol, verified

This project models the part of the serial-port addon in which many things
happen at once: Go goroutines that read and write one port under two channel
tokens ("conches"), the C++ tables of pending operations and callback slots,
the table of open ports, and the watcher that reports comm events. It proves
what that machinery promises, for every input, every outcome of the port and
the operating system, and every interleaving.

`dafny verify dfyconfig.toml` checks everything. The files are grouped by what
they model.

| files | model |
|---|---|
| `PortModel`, `SerialIO`, `ChunkSink` | `go-serial/serial.go`: the loops of one operation, as methods over an abstract port, clock and sink |
| `Chunking`, `Echo`, `SinkCalls` | what `BufferedRead` and the echo write are for, said without their loops, and what may be done with native batches |
| `Conches` | any number of operations on one port, interleaved call by call |
| `Manager` | `go-serial/manager.go`: handle ids |
| `Protocol`, `ProtocolSafety`, `ProtocolResults`, `ProtocolProgress` | `src/addon.cc` driven by `go-serial/api.go`: operations, completions, slots and chunk queues under all interleavings |
| `StreamPaths`, `EndToEnd` | from the sink calls of a `BufferedRead` through the protocol to JS |
| `AddonTables`, `Addon`, `AsyncApi`, `Texts` | the same functions as code over the tables, tied step by step to `Protocol`, and the exports around the port operations |
| `Events`, `EventSlots`, `EventSlotResults`, `EventLoop` | `go-serial/events_windows.go` and the events slot: open, watcher and closes under all interleavings, and the watcher loop as code |

How the parts fit together:

- Every operation of `SerialIO` is proved to make only call sequences that
  satisfy `Follows`, and to make them with its conches in hand, taken and
  returned as `Conduct` says. The tasks of `Conches` do exactly that
  (`EndedConduct`, `EveryConductRuns`), so what holds of every run there holds of
  the operations when they run concurrently.
- What an operation asks of the port is part of its contract: how much, for how
  long, and without a pause between its calls (`ReadAsks`, `WriteAsks`,
  `EchoAsks`, `StreamAsks`). Everything else the port could be asked for is
  outside its frame.
- `BufferedRead` keeps the running state `Fold` and is thereby shown to deliver
  `Chunks`, a definition by runs and cuts that knows nothing of batches, and that
  two laws determine (`ChunksAtGap`, `ChunksWithoutGap`).
- What `BufferedRead` calls on its sink is a path from no batch to no batch.
  `StreamPaths` shows that the runs of `Protocol` contain exactly such paths, and
  `EndToEnd` puts the two together: what JS is given are the chunks of what was
  read.
- The methods of `Addon.Registry` carry a protocol state and a run that leads to
  it, and their contracts say which protocol steps they append. So the results
  about all runs hold of every registry (`SettledOnce`, `OwnReplies`,
  `BufferKept`).
- The system calls of `EventLoop.Os` can be made only where the watcher of
  `EventSlots` makes them, and record its path; so the loop as code does what the
  watcher of the model may do, and reports what the results on the way demand.
- `PortManager` records its opens and removals; its counter and its table are
  proved to be where that sequence leads, so the results about id reuse are
  about the class.

What is assumed about the environment, and where it enters:

- The clock is monotone. Every port call may return early, late by at most an
  arbitrary `slack`, partially, with an error, or with a panic. `supply` (bytes
  the device will still deliver) is an arbitrary number that every finite run
  has; only termination uses it. A read or write that moves no byte takes at
  least one tick.
- A `Read` touches only the first `n` bytes of the buffer it is given. Bytes
  that come with an error are dropped by every caller, so conservation is about
  successful reads.
- `BlockingCall` returns success only when the queue has room. JS callbacks
  return normally. The id counters of the addon do not wrap.
- Each ThreadSafeFunction is a FIFO of its own; nothing is claimed about the
  order between two of them.
- Where a run is called strict, completion calls are the operations' own, or
  closes follow the report of their open; everything else holds without that.

Where code and comments disagree, the code is modelled: `acquire` gives up with
the context's own error, not with `errIOTimeout`
(`go-serial/serial.go:59-64`); the chunk callback copies the buffer and frees
it at once, while the comment above it speaks of a zero-copy buffer
(`src/addon.cc:550-552`, `src/addon.cc:575-580`).

Results that say what the code does not promise, with the exact condition:

- A close that comes in before the watcher is attached leaves the events slot
  behind (`EventSlotResults.EarlyCloseLeaksSlot`); the slot of a watched port is
  gone if and only if some close came in later (`SlotGoneIff`, `ReadsSlotIff`).
- Overlapping closes close the stop event once each (`DoubleCloseClosesTwice`,
  `StopEventClosedPerClose`).
- `Stop` may wait as long as the system keeps completing waits: the watcher ends
  if and only if a result comes that ends its loop (`StopMayWait`, `OverIff`,
  `WindsDown`).
- A completion call from elsewhere would end the life of a buffer in use
  (`ProtocolResults.SpuriousCallBreaksBufferLifetime`, `RegisteredIff`).
- 1002 open ports can defeat the id search, fewer cannot
  (`Manager.RoomBoundIsTight`, `RoomEnough`).
- `SetBaudRate` keeps the new rate in the mode when `SetMode` fails.

## Model

| member | source | states |
|---|---|---|
| Conches.StreamsAreSegments | go-serial/serial.go:95-153 | In every run, the bytes one operation read (or wrote) are one contiguous segment of everything the port returned (or accepted), for any number of concurrent tasks |
| Conches.NothingBetween | go-serial/serial.go:334-354 | Between two calls of one operation under a conch there is no call of another under it, and no mode change |
| Conches.TimeoutInForce | go-serial/serial.go:111-115 | The read timeout in force at each port read is the one the same task set in its immediately preceding call |
| Conches.TokenConservation | go-serial/serial.go:40-65 | Tokens in a channel plus holders is always one; a deferred send of a leaving task is never blocked; an ended task holds nothing |
| Conches.NoWaitCycle | go-serial/serial.go:328-345 | Chains of tasks waiting for each other's conches have at most two links and never close |
| Conches.Progress | go-serial/serial.go:137-149 | As long as a task has not ended, some task can take a step that is neither a timeout nor the clock |
| Conches.WaiterCanEnd | go-serial/serial.go:55-65 | From every reachable state a waiting task can let its deadline pass, give up, return what it holds and end, by its own steps alone and without touching the port |
| Conches.EverySequenceRuns | go-serial/serial.go:95-216 | From every reachable state in which the conches it needs are free, a new operation can make every call sequence its loop may produce: the interleaving model leaves no behaviour out, and operations on different conches do not keep each other out |
| Conches.EndedConduct | go-serial/serial.go:95-153 | In every run an operation that has ended has taken its conches in order, write before read, made all its calls with them in hand, and returned what it took |
| Conches.EveryConductRuns | go-serial/serial.go:334-354 | Whatever an operation's method may do, calls and conches, giving up included, a new task can do from every reachable state in which the conches it gets are free, while the others stay where they are |
| Conches.FindSegment | go-serial/serial.go:95-153 | Under mutual exclusion the bytes of one task can be located in the whole stream, at its end if the task had the last turn |
| Conches.ExclusiveStep | go-serial/serial.go:40-65 | Every step keeps the turns of the tasks under a conch from interleaving |
| Conches.TimeoutStep | go-serial/serial.go:111-115 | Every step keeps the timeout in force tied to the holder of the read conch |
| Conches.RunInv | go-serial/serial.go:40-65 | All of these invariants hold in every reachable state |
| SerialIO.PortHandle.constructor | go-serial/serial.go:32-45 | A new handle has both tokens in their channels |
| SerialIO.Conch.Acquire | go-serial/serial.go:55-65 | Takes the token or gives up after the deadline, either way when both are possible; failure leaves the token alone |
| SerialIO.Conch.Release | go-serial/serial.go:101-101 | The deferred send finds the channel empty |
| SerialIO.PortHandle.Poll | go-serial/serial.go:302-311 | Setting the timeout and reading leave exactly the calls of one poll, for that wait and all the room there is, the data in place, nothing else touched, within the time the wait allows |
| SerialIO.PortHandle.Read | go-serial/serial.go:95-129 | Every port read asks for all that is missing and may wait until the deadline, without a pause before it, and nothing is asked for after one that brought nothing; on success dst[..n] is exactly what the port returned, in order, and the rest is unchanged; a short count only after the deadline or after such a read that brought nothing; an error exactly when the last call failed, a panic when it panicked; the calls are made with the conch in hand, which is returned on every path, and giving up is after the deadline and not at a free conch with time left; nothing else is asked of the port; the time is bounded |
| SerialIO.PortHandle.ReadHeld | go-serial/serial.go:103-128 | The loop: what it asks for and until when, contents, early exits, error outcomes and the time it takes |
| SerialIO.PortHandle.ReadTwice | go-serial/serial.go:95-129 | What two successful Reads that follow each other leave in their buffers, put together, is what the port returned since, in order |
| SerialIO.PortHandle.Write | go-serial/serial.go:134-153 | What the port accepted is a prefix of data, all of it on success, exactly the reported count on a timeout; each try offers all that is left (one byte in echo mode), without a pause before it, and none follows one that came back after the deadline; a timeout is reported after the deadline and right after the last call; echo mode follows the stop-and-wait protocol; errors, panics and giving up as in Read; the calls are made with the conches in hand, write conch first, and both are returned on every path |
| SerialIO.PortHandle.WriteHeld | go-serial/serial.go:155-172 | The plain loop: what it offers and until when, prefix, exact count strictly below the total on a timeout; terminates though the port may accept nothing |
| SerialIO.PortHandle.EchoHeld | go-serial/serial.go:176-216 | The echo loop is a run of the stop-and-wait protocol; its timeout count is the number of bytes read back |
| SerialIO.PortHandle.SendByte | go-serial/serial.go:180-193 | Writes one byte until the port takes it, or gives up after the deadline |
| SerialIO.PortHandle.AwaitByte | go-serial/serial.go:195-213 | Reads until that byte comes back, whatever else comes, or gives up at the deadline |
| Echo.StopAndWait | go-serial/serial.go:176-216 | At every moment the accepted bytes are the confirmed bytes and at most the one in flight |
| Echo.ConfirmedBeforeNext | go-serial/serial.go:195-213 | Between two bytes that go out, the first one has been read back |
| Echo.EchoSeen | go-serial/serial.go:205-212 | The state leaves "waiting for byte c" only through a read of that byte |
| SerialIO.PortHandle.BufferedRead | go-serial/serial.go:252-326 | Delivers exactly the specified chunks of the successful reads on every exit, also when the sink panics; only a panic of the port costs the remainder of the open run; an error is reported exactly when the last port call failed, a panic exactly when it or the sink panicked, with no port call after it; every poll is for pollTimeout and all the room left in the batch, with nothing but emits between polls; every batch disposed of once, by sink calls that hold one at a time; the calls are made with the conch in hand; a nil return only after the allowed silence and at most one poll later, counted from a start that the wait for the token bounds; the initial timeout when the token was not to be had, without a port call |
| SerialIO.PortHandle.StreamHeld | go-serial/serial.go:263-276 | The loop with its deferred free: every buffer is emitted or freed once also on panics, a nil return is timely, and the outcome is that of the last call or of the sink |
| SerialIO.PortHandle.StreamLoop | go-serial/serial.go:294-326 | The read loop keeps batch, chunks and deadline in agreement with the calls made, and ends by bytes and time left |
| SerialIO.PortHandle.Iterate | go-serial/serial.go:302-325 | One iteration with time left: it goes on in agreement and nearer to its end, or leaves with everything delivered |
| SerialIO.PortHandle.TakeIn | go-serial/serial.go:313-324 | One successful read: the deadline is re-armed after data only and the batch stays in agreement |
| SerialIO.PortHandle.Absorb | go-serial/serial.go:313-324 | A gap or a full batch is handed over, anything else stays in the batch |
| SerialIO.PortHandle.FinalFlush | go-serial/serial.go:297-300 | The flush before a return delivers everything, and changes the outcome exactly when the sink panics |
| SerialIO.PortHandle.AfterFailure | go-serial/serial.go:302-311 | After a failed call everything read is delivered and the error is the outcome unless the sink panics; after a panicked one exactly the batch in progress is not |
| SerialIO.PortHandle.Flush | go-serial/serial.go:278-288 | The claim on the batch is given up before the handoff, also when emit or the allocation panics |
| SerialIO.PortHandle.DeliveredConserves | go-serial/serial.go:247-251 | The chunks concatenate to the bytes received; after a panic of the port less than a batch is missing at the end |
| SerialIO.GapKeepsTime | go-serial/serial.go:313-317 | An empty poll keeps the deadline and delays the next check by at most one poll and one emit |
| ChunkSinks.ChunkSink.Emit | go-serial/api.go:387-389 | Emit takes over an owed, non-empty buffer, with its contents at that moment |
| ChunkSinks.ChunkSink.Free | go-serial/api.go:391-393 | Free takes an owed buffer; nothing can be disposed of twice |
| ChunkSinks.ChunkSink.NewBatch | go-serial/api.go:379-385 | A new buffer of the given size is owed, and only when none is; a failed allocation panics and owes nothing |
| Chunking.FoldRefinesChunks | go-serial/serial.go:278-325 | The batching state, flushed, equals the chunks defined by runs and cuts; the batch in progress is never full |
| Chunking.FoldSplits | go-serial/serial.go:313-324 | At every moment what was sent and what is held are the chunks of what was read so far |
| Chunking.ChunksConserve | go-serial/serial.go:247-251 | Chunks lose, duplicate and reorder nothing; each holds between one byte and a full batch |
| Chunking.ChunksAtGap | go-serial/serial.go:313-317 | An empty read always ends a chunk: what comes before and behind it is chunked by itself |
| Chunking.ChunksWithoutGap | go-serial/serial.go:321-324 | Nothing else does: without an empty read the chunks are the cut of all the bytes in one |
| Chunking.FoldRefinesFull | go-serial/serial.go:265-276 | What has been sent at any moment are all chunks but a remainder of the open run |
| Chunking.FullMissesRest | go-serial/serial.go:265-276 | That remainder is at most one chunk, and less than a full one |
| Chunking.CutFlatten | go-serial/serial.go:321-324 | A cut run has full pieces and one non-empty remainder and concatenates to the run |
| Chunking.CutUnique | go-serial/serial.go:321-324 | There is only one such way to cut it |
| Chunking.CutGrows | go-serial/serial.go:321-324 | Full pieces already cut off stay as they are when the run grows |
| Chunking.ReceivedIsResults | go-serial/serial.go:307-311 | The bytes an operation received are those of its successful reads |
| SerialIO.PortHandle.SetBaudRate | go-serial/serial.go:334-354 | One SetMode with the resulting rate, made with both conches in hand, write conch first; the mode keeps the new rate even if SetMode fails; rate 0 keeps the old one; giving up after 30 seconds and without a call |
| Manager.PortManager.Open | go-serial/manager.go:17-51 | Issues the first free id in cyclic order, never a live one, within 1..2147483637, for a handle on that port, still open, with the rate it was opened with and both tokens; on failure the table is unchanged, the new port is closed once and at least 1002 ports are open; counter and table stay those of the recorded opens and removals |
| Manager.PortManager.NextId | go-serial/manager.go:28-47 | The search loop with its wrap and attempt limit is the search that is specified |
| Manager.PortManager.Remove | go-serial/manager.go:60-65 | Removes that id and nothing else |
| Manager.FindSpec | go-serial/manager.go:28-47 | Gives up if and only if the next 1002 ids are all live; otherwise every id before the issued one was live |
| Manager.RoomEnough | go-serial/manager.go:43-46 | With fewer than 1002 ports open the search cannot give up |
| Manager.RoomBoundIsTight | go-serial/manager.go:43-46 | 1002 open ports can defeat it, from any counter value |
| Manager.ProbeCycles | go-serial/manager.go:30-37 | The counter walks through 1..2147483637 in order and round again |
| Manager.ProbesDiffer | go-serial/manager.go:30-37 | It comes back to an id only after a full round |
| Manager.NoEarlyReuse | go-serial/manager.go:28-41 | Over any run of opens and removals two issues of one id are at least 2147483637 counter advances apart |
| Manager.StaleIdStaysDead | go-serial/manager.go:53-65 | A closed id resolves to nothing until the counter has gone all the way round |
| StreamPaths.RunIsPath | go-serial/serial.go:265-288 | In every run of the protocol a stream's goroutine has a claim on one batch at a time, and what counts as sent is what it handed over |
| StreamPaths.EveryPathRuns | go-serial/serial.go:265-288 | Every such sequence of sink calls has protocol steps that bring all it hands over to JS and end without a batch: the protocol leaves no behaviour of the loop out |
| EndToEnd.JsGetsChunks | src/addon.cc:558-589 | Whatever the other threads do, JS has been given a prefix of the chunks the read results are to be cut into, and when nothing is under way all of them, after a panic of the port all but the remainder, unless the queue refused one |
| EndToEnd.JsGetsBytes | go-serial/serial.go:247-251 | In bytes: a prefix of what the port returned, and in the end all of it |
| EndToEnd.JsGetsSomeChunks | src/addon.cc:558-589 | Whatever the queue refuses, JS has been given some of those chunks in their order, and at rest all but as many as were refused |
| EndToEnd.JsGetsSomeBytes | src/addon.cc:558-589 | In bytes: what the port returned, in order, without what was refused |
| StreamPaths.JsGetsInOrder | src/addon.cc:558-589 | Under any calls from anywhere: JS has been given a subsequence of what was handed over; every other chunk is under way, was refused or found no consumer |
| ProtocolResults.SettledAtMostOnce | src/addon.cc:458-503 | Under any completion calls from anywhere: enqueued once, deleted once, function and slot released once at most, and the callback is given what one of the calls carried: its error as an error and nothing else, its number, its JSON, or nothing |
| ProtocolResults.NoUseAfterDelete | src/addon.cc:472-503 | No step touches a deleted op, and a completion call does not touch its op after a successful enqueue |
| ProtocolResults.StringsFreedOnce | src/addon.cc:510-535 | Each string of a completion call is freed exactly once when the call has ended, never twice |
| ProtocolResults.BatchesFreedOnce | src/addon.cc:558-589 | No batch is freed twice, none that is still in use has been freed, and chunks leave the queue in order |
| ProtocolResults.MemoryBound | src/addon.cc:119-119 | A stream never holds more than 66 live native batches |
| ProtocolResults.BufferOutlivesGoroutine | src/addon.cc:97-103 | While a goroutine may be inside the port call, its op with the buffer reference is registered and not deleted |
| ProtocolResults.RegisteredIff | src/addon.cc:458-467 | Under any calls an op is registered and undeleted exactly as long as no completion call has taken it, and only a call for that op takes it |
| ProtocolResults.SlotOutlivesLoop | src/addon.cc:321-344 | While a BufferedRead loop runs its slot is present, no chunk finds its consumer gone, and every emitted chunk is delivered, queued or in flight, in order |
| ProtocolResults.ChunksArriveInOrder | src/addon.cc:558-589 | The contents handed over are those JS has been given, then those in the callback, the queue and on their way, unless one was refused |
| ProtocolResults.OwnReply | go-serial/api.go:95-113 | The callback is given what the operation's own goroutine reported, in its only completion call: a failure exactly when that reported an error, with its text |
| ProtocolResults.NothingLeftBehind | src/addon.cc:486-502 | At rest every op, function, slot and batch has been disposed of exactly once |
| ProtocolProgress.NeverStuck | src/addon.cc:571-583 | Before that some step of the existing work is enabled, full queues included, and brings rest nearer |
| ProtocolProgress.QuietReachable | src/addon.cc:486-502 | From every state the work under way can come to rest without a new operation, in at most as many steps as a measure of it says |
| ProtocolProgress.OpMoves | src/addon.cc:472-503 | The measure follows the steps of one operation |
| ProtocolResults.SpuriousCallBreaksBufferLifetime | src/addon.cc:458-467 | A completion from elsewhere, such as no caller makes, can delete the op of a goroutine that is still inside the port call; RegisteredIff says exactly when |
| ProtocolSafety.RunInv | src/addon.cc:458-503 | The ownership invariants of ops, completions, slots and batches hold in every reachable state |
| ProtocolSafety.ProducerKeeps | src/addon.cc:558-573 | Filling, emitting, looking up, queueing and freeing keep every batch accounted for once |
| ProtocolSafety.ConsumerKeeps | src/addon.cc:574-583 | So do the steps of the chunk callback |
| ProtocolSafety.ContentKept | src/addon.cc:571-583 | A batch keeps the contents it was handed over with until it has been copied |
| ProtocolSafety.CleanUpKeeps | src/addon.cc:494-502 | Disposing of a refused op keeps the ownership invariants |
| ProtocolSafety.OnSettleKeeps | src/addon.cc:475-492 | So do the steps of the completion callback on the loop thread |
| Addon.Registry.StartOp | src/addon.cc:76-103 | Registers a fresh op, with its buffer reference if it has one, for a stream with its slot first; this is the protocol's registration step |
| Addon.Registry.SettledOnce | src/addon.cc:458-503 | Of every registry, however it was used: an op's callback is queued or run at most once, its op deleted and its function released at most once, with what one call carried, errors as errors |
| Addon.Registry.OwnReplies | go-serial/api.go:95-113 | If only the operations' own goroutines called: the callback was given what that goroutine reported, in its only call, a failure exactly for an error |
| Addon.Registry.BufferKept | src/addon.cc:97-103 | Then the op of a goroutine inside its port call is in the table with its buffer reference, and the slot of its stream is present |
| Addon.Registry.RegisterTsfn | src/addon.cc:125-130 | An id that no slot has, with an empty queue behind it |
| Addon.Registry.ReleaseTsfn | src/addon.cc:132-144 | Removes the slot; an unknown id changes nothing |
| Addon.Registry.TakePending | src/addon.cc:458-467 | Removes and returns the op, nothing for an unknown id |
| Addon.Registry.ResolvePending | src/addon.cc:472-503 | Queues the op for its callback if the call on its function comes back well, and exactly then; else releases its stream slot |
| Addon.Registry.FillOp | src/addon.cc:512-532 | Both strings are freed once on every path and the op carries the reply they mean, an error before a result |
| Addon.Registry.Complete | src/addon.cc:510-535 | A whole call is one completion in the protocol; tables and queues change for a known id only, as the one call on its function comes back; both strings are freed |
| Addon.Registry.CompleteNum | src/addon.cc:540-548 | The same for a number |
| Addon.Registry.RunCallback | src/addon.cc:475-492 | Passes on what the message of the call that took the op says, an error as an error and nothing else; releases the stream slot and deletes the op |
| Addon.Registry.EmitChunk | src/addon.cc:558-589 | The buffer is queued exactly if the slot exists and the call on its function comes back well, else freed, never both; on a full queue that is after the loop thread has taken the oldest chunk; these are the protocol's steps, so queue and contents agree with it, and no queued buffer is freed or queued twice |
| Addon.Registry.RunChunkCallback | src/addon.cc:574-583 | Copies exactly the bytes of the oldest chunk, which is what the protocol has JS given, and frees its buffer, which has not been freed before and is in no queue any more |
| Addon.Registry.Take | go-serial/api.go:379-385 | Taking a batch is the protocol's allocation step |
| Addon.Registry.Drop | go-serial/api.go:391-393 | Freeing one that was not handed over is its freeing step |
| Addon.Registry.Stream | go-serial/serial.go:265-288 | A whole sequence of sink calls as a path of the protocol that ends without a batch, with every chunk delivered |
| AddonTables.KnownCall | src/addon.cc:458-503 | The steps of a completion of a registered op, accepted or refused, lead to the state with that op settled and all others alone |
| AddonTables.UnknownCall | src/addon.cc:512-521 | Those of an unknown id change no op, table or slot |
| AddonTables.CallbackRun | src/addon.cc:475-492 | The steps of the callback append the reply once and delete the op once |
| AddonTables.EndSound | src/addon.cc:458-503 | After a completion the tables, counters, completion queues and chunk queues still are those of a reachable protocol state |
| AddonTables.CallbackSound | src/addon.cc:475-492 | The same after a callback, which is given the queued reply |
| AddonTables.HandOffSound | src/addon.cc:558-573 | The same after a chunk has been handed over and queued, refused or found no consumer |
| AddonTables.QueuedOnce | src/addon.cc:558-573 | No batch is in a queue twice, in any reachable state; the registry's buffers are tied to batches, so none of them is either |
| AddonTables.DeliverySound | src/addon.cc:574-583 | The same after a chunk callback, which is given the contents of the oldest chunk |
| AsyncApi.Api.CompleteErr | go-serial/api.go:95-101 | Exactly one completion, with the error or with nothing |
| AsyncApi.Api.CompleteNum | go-serial/api.go:105-113 | Exactly one completion, with the error if there is one and the number otherwise |
| AsyncApi.Api.ReadAsync | go-serial/api.go:335-350 | One completion on every path, panics included, with the count or the error of what Read promises, which holds here too; a bad handle touches neither port nor buffer |
| AsyncApi.Api.WriteAsync | go-serial/api.go:355-368 | One completion on every path, with the outcome of what Write promises, which holds here too |
| AsyncApi.Api.RunRead | go-serial/api.go:344-349 | The goroutine of read: the whole of Read first, then its only completion |
| AsyncApi.Api.RunStream | go-serial/api.go:421-424 | One completion on every path, after the whole of BufferedRead; its sink calls are a path of the protocol, every native buffer is settled, and JS has been given the chunks |
| AsyncApi.Api.BufferedReadAsync | go-serial/api.go:411-425 | The same with 10 s, the given timeout, 50 ms and 8192 bytes; a bad handle is reported without touching the sink |
| AsyncApi.Api.BufferedReadExtAsync | go-serial/api.go:432-468 | The same with all of the caller's options; a bad handle or bad JSON is reported without touching sink or port |
| AsyncApi.Api.UpdateAsync | go-serial/api.go:473-492 | One completion on every path; unless the tokens could not be had, one SetMode with the new rate, or with the old one for 0, and its outcome is reported; bad handle or JSON change nothing |
| AsyncApi.Api.GetBaudRateAsync | go-serial/api.go:550-557 | Reports the rate or the bad handle |
| AsyncApi.Api.OpenAsync | go-serial/api.go:254-299 | One completion on every path: exactly when the library's open and the id search succeed the new id, which is that of the opened port with its rate; else an error with the table unchanged and the port closed |
| AsyncApi.Api.OpenThenAsk | go-serial/manager.go:49-49 | After an open, getBaudRate reports the rate that was asked for, and an update that names none sets exactly that rate again |
| AsyncApi.Api.CloseAsync | go-serial/api.go:302-326 | One completion on every path; the port is closed once, how that came out is reported, and the id is gone, but stays after a panic in the port's close |
| AsyncApi.Api.DrainAsync | go-serial/api.go:562-573 | One completion on every path, after one drain of the port, with an error exactly when that failed |
| AsyncApi.Api.FlushAsync | go-serial/api.go:576-587 | The same for input and output buffer, the second exactly if the first worked |
| AsyncApi.Api.SetAsync | go-serial/api.go:495-516 | The same for the lines given, in order and up to the first failure; bad handle or JSON touch no line |
| AsyncApi.Api.GetAsync | go-serial/api.go:519-547 | The same for the modem status |
| AsyncApi.Api.ListAsync | go-serial/api.go:170-200 | One completion on every path of the enumeration |
| SerialIO.PortHandle.ApplyControlLines | go-serial/serial.go:364-381 | Exactly the calls asked for, in order, up to the first that fails, whose outcome is reported; a break lasts 250 ms |
| AsyncApi.ReadOptsAre | go-serial/api.go:450-462 | Each option is what the caller gave for it, in nanoseconds, or its own default, and positive whatever the caller passes |
| AsyncApi.ErrorTells | go-serial/api.go:95-101 | Only a success is reported without an error, and the error tells what happened, with the written and the total count of a write timeout in that order |
| Texts.DecimalTells | go-serial/serial.go:167-167 | A count in such a text can be read back |
| EventLoop.Run | go-serial/events_windows.go:104-158 | For any number of iterations: what is emitted is exactly what the system's results demand, in order; the loop is done if and only if the last result is a failure of SetCommMask, CreateEvent or the wait itself, the stop event, or an event error with code 5, 6 or 995; the results are a path of the watcher of EventSlots; every event handle created is closed once |
| EventLoop.Turn | go-serial/events_windows.go:112-157 | The same for one iteration, from the watcher's next iteration to the one after it or to its end |
| EventLoop.OverAfterFinal | go-serial/events_windows.go:91-102 | On every path of the watcher it is over exactly after such a result, and none comes earlier |
| EventLoop.RunIsPath | go-serial/events_windows.go:104-158 | In every run of EventSlots the watcher moves along such a path |
| EventSlotResults.SlotReleasedOnce | go-serial/api.go:254-326 | Under any closes the slot is released at most once, and exactly when the open gave it back or a close that read its id has finished |
| EventSlotResults.SlotGoneIff | go-serial/api.go:310-323 | With the open reported and all closes finished, the slot of a watched port is gone if and only if some close read its id |
| EventSlotResults.ReadsSlotIff | go-serial/api.go:310-310 | A close reads the id exactly if the watcher is attached when it comes in |
| EventSlotResults.LeakIsForGood | go-serial/api.go:310-323 | A slot left behind stays: no close can come in any more |
| EventSlotResults.ClosedPortKeepsNoSlot | go-serial/api.go:310-323 | If every close follows the report of its open, none is left behind |
| EventSlotResults.EmitFindsSlot | src/addon.cc:604-618 | Under any closes every report of the watcher finds its slot |
| EventSlotResults.SilentAfterStop | go-serial/events_windows.go:74-82 | Once a Stop is past its wait, no continuation emits another report or opens another event |
| EventSlotResults.HandlesClosedOnce | go-serial/events_windows.go:112-144 | Each iteration's event is closed once, only the current one is open |
| EventSlotResults.StopEventOpenWhileWatched | go-serial/events_windows.go:74-82 | A live watcher never waits on a closed stop event |
| EventSlotResults.StopEventClosedPerClose | go-serial/events_windows.go:74-82 | When all closes have finished the stop event was closed once for every close that found a watcher; if every close follows the report of its open, once if and only if one close came in |
| EventSlotResults.DoubleCloseClosesTwice | go-serial/api.go:302-326 | Two overlapping closes close it twice |
| EventSlotResults.ReportsFreedOnce | src/addon.cc:604-639 | Every error string is freed once, when its report is delivered or refused; the queue stays within 16 |
| EventSlotResults.OverIff | go-serial/events_windows.go:104-158 | A live watcher is over if and only if the system has given a result that ends the loop, which is said in plain codes, signalled or not |
| EventSlotResults.WindsDown | go-serial/events_windows.go:123-152 | Then at most three more of its steps follow, whatever they are, and it is never stuck before them |
| EventSlotResults.StopMayWait | go-serial/events_windows.go:112-157 | For every n there is a run with the stop event signalled and a close waiting in which the watcher goes on for n more iterations |
| EventSlotResults.StopEnds | go-serial/events_windows.go:126-138 | If the system answers that way, a signalled watcher reaches its end in at most ten steps, from a full queue too |
| EventSlotResults.CloseCanFinish | go-serial/serial.go:81-90 | No reachable state shuts a close out: at most sixteen steps lead to its end, without another close or open, if the system gives the results they need |
| EventSlotResults.EarlyCloseLeaksSlot | go-serial/api.go:284-296 | An instance of what SlotGoneIff shuts out: a close before the watcher is attached leaves the slot behind |
| EventSlots.RunInv | go-serial/api.go:254-326 | Slot, watcher, handle and report invariants hold in every reachable state |
| EventSlots.WatchKeepsReports | src/addon.cc:604-639 | Every step of the watcher keeps each error string accounted for once |
| EventSlots.CloseKeepsSlot | go-serial/api.go:310-326 | Every step of any close keeps the slot's accounting |

## Left out

- The serial library, Win32, reflection into the port's private handle, N-API, V8 and libuv: they appear only as the abstract port, system results, FIFOs and release counts with the assumptions above.
- JSON, logging, `modeFromOpts`, the JavaScript wrappers, DLL binding and the build: no state of their own or library semantics. What an enumeration, a parse or an encoding gives is a parameter; the texts of errors are abstracted, but for the counts of a write timeout.
- `Close`, `Flush`, `Drain`, `ApplyControlLines` and modem status take no conch (`go-serial/serial.go:88-89`, `go-serial/serial.go:364-398`); they are not among the tasks of `Conches`, and the segment results are about the operations that take one. What `Close` does to the watcher and its slot is in `EventSlots`.
- Panics while a port is being opened or closed: on those paths the events slot is not released; `EventSlots` models the paths that return.
- Widths of the id counters of the addon (a 32-bit `int` would wrap after 2^31 registrations); the handle counter's wrap is modelled exactly.
- Addon.Registry.StartOp: the registry holds stream slots only; events slots live in the same C++ map and are modelled in `EventSlots`.
- Addon.Registry.TakePending: a PendingOp is a value here, so aliasing of the pointer is not captured; that it has one owner at a time is proved in `ProtocolSafety`.
- Addon.Registry.EmitChunk: while it waits for room, exactly one callback runs, and it is entered before the handoff; `Protocol` has every order.
- AsyncApi.Api.RunStream: the sink object is abstract; its calls are entered into the registry's protocol state when the loop is through, in the schedule in which the loop thread delivers every chunk at once. `EndToEnd` is about every schedule. Each export is one uninterrupted method; what other goroutines do meanwhile is in `Conches` and `Protocol`.
- AsyncApi.Api.BufferedReadAsync: the chunks reach JS in the schedule of RunStream.
- AsyncApi.Api.BufferedReadExtAsync: the same.
- AsyncApi.Api.OpenAsync: starting the watcher and releasing the events slot are in `EventSlots`.
- AsyncApi.Api.CloseAsync: stopping the watcher and releasing the events slot are in `EventSlots`.
- SerialIO.Conch.Acquire: in the class nobody else returns the token while one waits; waiting for other tasks is in `Conches`.
- SerialIO.PortHandle.StreamHeld: timing is stated with the bounds on call overhead and on how long one emit blocks; a blocking emit counts against the idle allowance, as in the code.
- EventLoop.Run: the loop is run for a given number of iterations, which is arbitrary; CancelIoEx after the stop event has no effect in the model.
- Order between two ThreadSafeFunctions, on which the comment at `src/addon.cc:486-487` relies.
