# Verification of the serial port binding

A Dafny 4.11 project that models the logic of this repository and proves what it promises.
`dafny verify dfyconfig.toml` checks all of it.

## What is modelled

**The connection protocol** between the JavaScript binding and the Rust reactor
(`src/reactor.rs`, `src/lib.rs`, `ts/lib/binding.ts`).  `Protocol.dfy` is a transition system with
28 actions, one for each step that the other thread can observe: the submission of a request is
split at the load of `pending_ops`, the inline `try_write`, the reservation, and `try_send`; a burst
is split at the lock, every follower, the unlock and the publication.  Both threads may be scheduled
in any order and the device may answer anything: any transfer between nothing and everything, an
error, or not at all.  `Run(schedule)` is the state after an arbitrary schedule, so a lemma about
`Run(schedule)` is a statement about every reachable state.  `ProtocolInvariant.dfy` defines the
invariants, `ProtocolSafety.dfy` proves that all 28 actions keep them, and `ProtocolTheorems.dfy`,
`ProtocolWrites.dfy`, `ProtocolReads.dfy` and `ProtocolClosing.dfy` draw the conclusions.

**The same protocol as imperative code.**  `Connection.dfy` (class `NativePort`), `BindingPort.dfy`
(class `BindingPort`) and `Reactor.dfy` (class `ReactorLoop`) follow the methods and loops of the
source.  Each class has a `Valid()` that says: the fields are those of `Run(history)`, where `history`
is the ghost list of the steps taken so far.  A method that keeps `Valid()` and extends the history is
therefore proved to be a run of the transition system, and everything proved about all runs holds for
the fields.  The contracts also say when a call succeeds, what the device was asked and why a write has
failed.  `write` and `writev` of the binding are driven through their awaits: they cut any buffers
into requests (`Writev.dfy`), submit one, and go on when its promise has been settled.  `Session.dfy`
puts both ends together, under any sequence of calls.  `Transfer.dfy` and `Workers.dfy` cover the
fairness of the transfer poller and the worker pool.

**The framers** (`ts/lib/parsers`): `ByteQueue.dfy`, `Matcher.dfy`, `Delimiter.dfy`, `Slip.dfy`,
`SlipRoundTrip.dfy`, `SlipFrames.dfy` and `PacketLength.dfy`.  The classes are written as the source writes them; each
is proved against a definition that only mentions the whole input, which is what makes the result
independent of the chunks.  `pushed` is the sequence of `push` calls.

**The stream life cycle** (`ts/lib/stream.ts`).  `Lifecycle.dfy` is a second transition system: open,
close, destroy, reads, writes and the port hooks act on the stream's own fields.  Listeners and
callbacks of the application run inside the stream's methods, so a method that calls one waits in a
frame, and in the meantime the application may call the stream again, return or throw.
`LifecycleSafety.dfy` proves the invariants over every run, `LifecycleTheorems.dfy` what becomes of the
close callbacks, `LifecycleData.dfy` what becomes of writes and of the data requested,
`LifecycleClosing.dfy` how closes and cancelled openings end, `LifecycleCalls.dfy` exactly which events
open, close, ask and deliver, and `LifecycleLate.dfy` that late events of replaced connections do not
interfere; `LifecycleExamples.dfy` holds the runs that
show why the conditions are needed.  `Stream.dfy` is the stream as a class whose waiting methods wait on
the real call stack; it is proved to reach the same states, so the results hold for its fields.

Most proofs start with `hide`, which keeps the solver to the definitions a step needs.

## Where the code does not do what one would expect

* **A byte can be skipped while the reactor is stopping.**  Between the end of `run_open`, which drops
  the command receiver, and the moment the drop guard sets `stop` and takes the port
  (`src/reactor.rs:49-60`, `src/reactor.rs:101`), a write can be taken inline in part, have its rest
  rejected because the receiver is gone, and be followed by another inline write.  The device then sees
  the second write without the end of the first.  The caller of the first write is told that it failed.
  `ProtocolTheorems.RejectedWriteLeavesGap` is such a run.  `ProtocolTheorems.PrefixBreaks` says exactly
  which step does it: an inline write that is taken in that window after an earlier write has been
  refused.  `ProtocolTheorems.CautiousWritesAreIntact` is the rule for callers: whoever submits nothing
  after a refused write never loses a byte in the middle.  `docs/architecture.md:29` does not mention
  the case.
* **A stream can stall when the read window shrinks.**  `startReading` counts its 32 slots by chunk and
  its bytes by length, and grants nothing as soon as either is spent (`ts/lib/binding.ts:297-300`).  After
  32 one-byte chunks of a 65536-byte window the slots are spent and 65504 bytes are left, so
  `startReading(65504)` succeeds, grants nothing, and the device is not read again.
  `ProtocolReads.ShrinkingStalls` is such a run, `ProtocolReads.StartIsHeard` the exact condition; a
  caller that never asks for less than before is always heard.
* **A write can be forgotten on an open stream.**  If an 'open' listener, or the last callback of a
  refused close, throws, `_resumeIO` is not called (`ts/lib/stream.ts:188-190`,
  `ts/lib/stream.ts:250-252`): the write that waited for the port is neither sent nor failed, and the data
  requested is not asked for.  `LifecycleExamples.ThrowForgetsWrite` is such a run,
  `LifecycleData.NeglectBegins` the exact condition.
* **A close callback can be overtaken.**  A 'close' listener that destroys the stream has the callback
  of `destroy` run at once, ahead of the close callbacks that are already lined up
  (`ts/lib/stream.ts:267-270`, `ts/lib/stream.ts:447`).  `LifecycleExamples.DestroyOvertakes` is such a
  run, `LifecycleTheorems.CallbacksRunInOrder` the exact condition.
* **A close callback can be lost.**  A listener or callback that throws takes all callbacks behind it
  with it.  `LifecycleExamples.ThrowLosesCallback`, `LifecycleTheorems.AllCallbacksRun`.
* **A close can get stuck.**  If an opening is cancelled while a write waits for it and the callback of
  that write throws, `port.close()` is never called (`ts/lib/stream.ts:176-179`).
  `LifecycleExamples.ThrowStopsClose` is such a run, `LifecycleClosing.CloseStops` the exact condition.
* **A cancelled opening can end up open**, in three ways.  Its port may refuse to close
  (`LifecycleExamples.RefusedCancelIsOpen`).  If an earlier port stopped being open without calling its
  `onClose` hook, it is still attached when `open` is called again, and its late hook ends the close
  that has cancelled the opening (`LifecycleExamples.CancelIsLost`).  And the handler of an earlier
  failed opening may be waiting for the callback of a write, which opens the port again and cancels
  that: the handler then takes the close for its own (`LifecycleExamples.CancelIsMistaken`).
  `LifecycleClosing.CancelledOpening` and `LifecycleClosing.CancelHolds` are the exact conditions.

## The transition system and its sources

| steps | source |
|---|---|
| `JsWrite`, `JsLoad`, `JsTryWrite` | src/lib.rs:257-281, src/lib.rs:327-357, ts/lib/binding.ts:331-348 |
| `JsControl`, `JsRead` | ts/lib/binding.ts:224-256, ts/lib/binding.ts:281-290 |
| `JsStartReading` | ts/lib/binding.ts:292-306 |
| `JsEnqueue`, `JsSend`, `Reject` | src/lib.rs:367-388 |
| `JsMicrotask`, `JsListenerReturns`, `JsListenerThrows` | ts/lib/binding.ts:114-135, ts/lib/binding.ts:154-172 |
| `JsCallback` | ts/lib/binding.ts:138-149, ts/lib/binding.ts:174-222 |
| `JsClose`, `JsCancelOpen` | ts/lib/binding.ts:267-279, src/lib.rs:361-363 |
| `RxOpen` | src/reactor.rs:90-102 |
| `RxReceive` | src/reactor.rs:207-229 |
| `RxComplete`, `RxPublishDone` | src/reactor.rs:137-184 |
| `RxWrite`, `RxRead` | src/reactor.rs:231-268 |
| `RxBurstLock`, `RxBurstRead`, `RxBurstEnd`, `RxPublish` | src/reactor.rs:285-390 |
| `RxFail`, `RxRelease`, `RxClose` | src/reactor.rs:49-75, src/reactor.rs:133-140 |

The life cycle:

| steps | source |
|---|---|
| `Open`, `Opened`, `OpenFailed`, frames `Announcing`, `Cancelling`, `FailedOpen` | ts/lib/stream.ts:149-210 |
| `Close`, `CloseSettled`, `CancelSettled` | ts/lib/stream.ts:222-241, ts/lib/stream.ts:177-184 |
| `FinishClose`, frame `Finishing` | ts/lib/stream.ts:255-271 |
| `CloseFailed`, frame `Failing`, `Resume` | ts/lib/stream.ts:212-220, ts/lib/stream.ts:243-253 |
| `OnClose`, `OnData` | ts/lib/stream.ts:162-173 |
| `Read`, `ReadResolved`, `ReadRejected` | ts/lib/stream.ts:312-353 |
| `HandOver`, `Write`, `WriteSettled`, `FailWaiting`, `SendWaiting` | ts/lib/stream.ts:206-218, ts/lib/stream.ts:281-298 |
| `Destroy`, frame `Destroying` | ts/lib/stream.ts:438-448 |

## Model

| member | source | states |
|---|---|---|
| `Protocol.NextPowerOfTwo` | src/reactor.rs:244-245 | the smallest power of two that is at least the argument |
| `ProtocolSafety.KeepStep` | src/reactor.rs:116-274 | every step of either thread keeps all ten groups of invariants |
| `ProtocolSafety.Safety` | src/reactor.rs:116-274 | every state that any schedule of the two threads reaches satisfies the invariants |
| `ProtocolInvariant.CallbackBound` | src/reactor.rs:34-41 | the callback queue holds at most 64 completions, 32 reads and two life-cycle events |
| `ProtocolTheorems.CreditsAreConserved` | ts/lib/binding.ts:292-306 | while open, `_readBytes` and `_readSlots` equal the reactor's window plus credits in the channel plus chunks in a burst, in callbacks, in the FIFO and in the batch being delivered, and never exceed one window |
| `ProtocolTheorems.CreditsAreValid` | src/reactor.rs:207-226 | "Invalid read credit" and "Read already pending" are unreachable in the reactor, and the window never goes below zero |
| `ProtocolTheorems.AccountIsCovered` | ts/lib/binding.ts:297-305 | as long as the port is open JavaScript's account covers every chunk in flight, even after the reactor has stopped, so it never goes negative |
| `ProtocolTheorems.ReadSizeBounds` | src/reactor.rs:243-245 | `window.size` is always a power of two between 64 and 65536 |
| `ProtocolTheorems.SizeFollowsRead` | src/reactor.rs:243-245 | a read that fills its buffer doubles the size up to 64 KiB; any other gives the least power of two from 64 to 64 KiB that holds it |
| `ProtocolTheorems.ReadCapacity` | src/reactor.rs:193-201 | every device read of the stream is offered at least one byte and at most the remaining byte credit: all of it, or as much as the adaptive size allows; the stream is read exactly as long as bytes and slots are left |
| `ProtocolTheorems.SubmissionsAreAdmitted` | src/lib.rs:367-388 | while the receiver lives neither the 64-operation limit nor the 96-slot channel is ever found exhausted |
| `ProtocolTheorems.CallbacksFit` | src/lib.rs:38-40 | the 128-slot callback queue never holds more than 98 events, so no event is lost |
| `ProtocolTheorems.EachRequestIsInOnePlace` | ts/lib/binding.ts:251-256 | each pending id is in exactly one of callback queue, completion being sent, backlog, explicit read and channel, and `pending_ops` counts exactly the ordered commands not yet popped |
| `ProtocolTheorems.SettledInOrder` | ts/lib/binding.ts:197-204 | ordered operations settle exactly once and in submission order |
| `ProtocolTheorems.WritesAreFaithful` | src/lib.rs:257-281 | no byte reaches the device twice, altered, or out of submission order |
| `ProtocolTheorems.PrefixBreaks` | src/lib.rs:327-357 | the accepted bytes stop being a prefix of the submitted ones exactly by an inline write that is taken after `run_open` has ended and an earlier write has been refused with bytes left over |
| `ProtocolTheorems.CautiousWritesAreIntact` | src/lib.rs:327-357 | if nothing is submitted after a refused write, the accepted bytes always are a prefix of the submitted ones |
| `ProtocolTheorems.WritesComplete` | src/reactor.rs:187-192 | once nothing is queued, in progress or rejected, every submitted byte has been accepted |
| `ProtocolWrites.SettledWritesAreTaken` | ts/lib/binding.ts:343-349 | once every queued write has been settled and none refused, the device has taken every submitted byte in order, whatever other operations are still queued |
| `ProtocolWrites.WritesAreKnown` | src/reactor.rs:137-192 | every write that the reactor still has to finish belongs to an unsettled request, across the reuse of ids |
| `ProtocolWrites.ReadEventsAreReads` | ts/lib/binding.ts:174-204 | an answer to an explicit read never settles a write or a control operation |
| `ProtocolTheorems.InlineWritesOvertakeNothing` | src/lib.rs:263-270 | an inline write happens only when no ordered operation is queued, in the reactor, or completed but unsettled |
| `ProtocolTheorems.RejectedWriteLeavesGap` | src/reactor.rs:49-60 | a run of eleven steps in which a byte is skipped while the reactor stops |
| `ProtocolTheorems.ReadsAreInOrder` | ts/lib/binding.ts:110-135 | what JavaScript has been given is a prefix of what the device returned, and unless a close dropped something the rest is in flight in device order |
| `ProtocolTheorems.NothingIsStranded` | ts/lib/binding.ts:114-125 | there is exactly one scheduled microtask per FIFO item, and when all queues are empty everything read has been delivered |
| `ProtocolTheorems.ThrowsLoseNothing` | ts/lib/binding.ts:163-171 | an exception of a listener changes neither what is in flight nor its order |
| `ProtocolTheorems.BurstsAreBounded` | src/reactor.rs:249-256 | a burst starts only with no ordered operation outstanding in the reactor and collects at most 15 followers |
| `ProtocolTheorems.BurstsStart` | src/reactor.rs:249-256 | a streaming read starts a burst if and only if no ordered operation is outstanding, it filled its buffer or has at least 1 KiB, and bytes and slots are left |
| `ProtocolReads.StartIsHeard` | ts/lib/binding.ts:292-306 | with no chunk in flight and the receiver alive, once the reactor has received what was sent, `startReading` has made it read the device, if and only if the slots are not spent while bytes enough are left; always if the window is not smaller than before |
| `ProtocolReads.StartLeavesCredit` | ts/lib/binding.ts:297-305 | `startReading` leaves bytes and slots on the account under the same condition, with any chunks in flight |
| `ProtocolReads.CreditOffersRead` | src/reactor.rs:193-201 | when everything sent has arrived, the reactor reads exactly if the account has bytes and slots, and for as many bytes |
| `ProtocolReads.ShrinkingStalls` | ts/lib/binding.ts:297-300 | a run of 32 one-byte chunks after which `startReading` with a smaller window grants nothing and the device is not read |
| `ProtocolClosing.ClosedLeavesNothing` | ts/lib/binding.ts:206-222 | once the close has been finished nothing is pending and no ordered operation is counted, in every later state |
| `ProtocolClosing.ClosedForGood` | ts/lib/binding.ts:267-279 | a port that is closing and not open never becomes open again |
| `Connections.NativePort.Submit` | src/lib.rs:367-388 | reserves, checks, sends and rolls back: the command is queued exactly when admission, the receiver and the channel allow it, and a refusal leaves the reservation count as it was |
| `Connections.NativePort.TryInline` | src/lib.rs:262-274 | writes inline only when allowed, with no ordered operation pending and the lock free, and then takes exactly the first bytes |
| `Connections.NativePort.Write` | src/lib.rs:257-281 | for any id, payload and flag: what the device takes inline plus what is queued is the payload, in order; it is taken inline exactly as far as allowed, idle and offered; and it is refused exactly after a stop, above 64 KiB, or when the rest is not admitted |
| `Connections.WriteRuns` | src/lib.rs:257-281 | the five steps of the transition system together do what one native write does |
| `Bindings.BindingPort.NextId` | ts/lib/binding.ts:258-265 | terminates and returns an id that no pending request uses, across the wrap-around at 2^32 - 1 |
| `Bindings.BindingPort.StartReading` | ts/lib/binding.ts:292-306 | succeeds exactly on an open port that is not closing or reading and whose credit, if one is due, is admitted; a credit is due exactly from at most half a window or half the slots, with some of both missing, and fills up both |
| `Bindings.BindingPort.Request` | ts/lib/binding.ts:224-256 | queues a control command under a fresh id exactly if the port is open, not closing, has fewer than 64 requests pending, is not stopped and has a receiver; otherwise every reservation is as it was |
| `Bindings.BindingPort.ReadChunk` | ts/lib/binding.ts:281-290 | queues one read of at most 64 KiB exactly under the same conditions and if neither a read nor streaming is active; otherwise changes nothing |
| `Bindings.BindingPort.Write` | ts/lib/binding.ts:323-353 | for buffers of any length: begins exactly when the port is open and no write is in progress; submits the first payload exactly if fewer than 64 requests are pending, the port is not stopped and the rest of what the device does not take at once is admitted, and otherwise fails for that reason; keeps track of every byte it has been given |
| `Bindings.BindingPort.WriteMany` | ts/lib/binding.ts:355-381 | the same for any buffers, which become payloads as large as they can be |
| `Bindings.BindingPort.ContinueWrite` | ts/lib/binding.ts:372-386 | a settled promise ends the write or submits its next payload under exactly the same conditions; after the last payload it ends without error |
| `Bindings.BindingPort.Close` | ts/lib/binding.ts:272-276 | closes only an open port that is not closing and stops the native side |
| `Bindings.BindingPort.OnCallback` | ts/lib/binding.ts:138-149 | the oldest event is consumed and handled once |
| `Bindings.BindingPort.DeliverBatch` | ts/lib/binding.ts:154-172 | whatever the listener does in each call, the chunks are handed over in order, only an exception or a close ends the loop early, and after an exception the rest is at the head of the FIFO with one more microtask |
| `Bindings.BindingPort.DeliverRead` | ts/lib/binding.ts:121-135 | takes the head of the FIFO, delivers it in order and keeps one microtask per remaining item |
| `Reactors.ReactorLoop.CompleteCommands` | src/reactor.rs:137-185 | pops finished commands from the front, answers each in order and releases one reservation each, and stops at a write in progress or a blocked drain; only a stop that it observes ends the connection |
| `Reactors.ReactorLoop.Open` | src/reactor.rs:90-102 | the connection begins, and 'open' is sent, exactly if the device has been opened and no stop observed |
| `Reactors.ReactorLoop.Receive` | src/reactor.rs:207-230 | takes over one command and changes nothing else; credits and explicit reads are never refused |
| `Reactors.ReactorLoop.Wrote` | src/reactor.rs:268-268 | the device has taken the next bytes of the front write |
| `Reactors.ReactorLoop.AnswerRead` | src/reactor.rs:257-266 | an explicit read is answered once with the data; no credit is charged |
| `Reactors.ReactorLoop.PublishFirst` | src/reactor.rs:243-256 | charges and resizes the window, publishes the chunk, and asks for followers exactly if there is nothing to write, the buffer was filled or 1 KiB read, no ordered operation is pending and credit is left |
| `Reactors.ReactorLoop.Burst` | src/reactor.rs:285-390 | every follower is the device's non-empty answer to a read as long as the window allows, and all are published as one callback, in order; the burst stops at 15, at a stop, an ordered operation, exhausted credit or a device that is not ready, and only an error or an empty read ends the connection |
| `Reactors.ReactorLoop.HaveRead` | src/reactor.rs:238-267 | after a read the connection goes on exactly as the answers of the device to the followers say; what was read has been charged and published |
| `Reactors.ReactorLoop.Turn` | src/reactor.rs:132-273 | one pass of the reactor loop is a run of the transition system that the binding's half does not notice; for each arm, exactly what is read, written and received and whether the connection goes on |
| `Reactors.ReactorLoop.Release` | src/reactor.rs:49-75 | stops, takes the port, and reports the close as the last event |
| `Sessions.BooksBalance` | src/reactor.rs:116-274 | credit, order, queue and write facts restated for what can be read off the fields |
| `Sessions.WritesAreTaken` | ts/lib/binding.ts:323-387 | as long as no write has failed the device has taken the first bytes of all that was asked for, and all of it as soon as the last write has been answered |
| `Sessions.FailuresAreJustified` | ts/lib/binding.ts:331-349 | a write fails only on a port that is closing, finished, stopped or without a receiver, or because 64 requests were pending |
| `Sessions.Connect` | ts/lib/binding.ts:86-152 | after any sequence of calls on both ends, with writes of any length in progress, the fields of the three objects balance, no byte of a write is lost, repeated or reordered unless a write has failed, and one fails only for those reasons |
| `Vectors.Writev` | ts/lib/binding.ts:355-387 | the nested loops terminate; requests carry the input in order (a prefix of it after a failure), each non-empty, at most 64 KiB and 1024 segments, all but the last as large as allowed |
| `Vectors.WriteBuffer` | ts/lib/binding.ts:364-377 | the inner loop over one buffer keeps what is sent plus what is batched equal to what has been taken |
| `Vectors.Gather` | src/lib.rs:312-325 | the snapshot is the concatenation, and it is refused if and only if a size limit is exceeded |
| `Vectors.Shift` | src/lib.rs:348-352 | after a partial inline write the buffer begins with exactly the remaining bytes |
| `Vectors.Transmit` | ts/lib/binding.ts:360-381 | native size admission accepts every request the binding makes, and the payloads are the requests' bytes: as large as they can be, and together the input |
| `Transfers.TransferPoller.Poll` | src/transfer.rs:24-46 | the preferred direction decides unless it has to wait; a success turns the preference; an interruption is never reported, and another poll is asked for if and only if one was met |
| `Transfers.Serve` | src/transfer.rs:24-46 | over every run a read follows a read, or a write a write, only when the other direction had nothing ready, and each outcome is what one direction answered |
| `Transfers.LastSuccess` | src/transfer.rs:42-44 | the preference is always the opposite of the last success |
| `Workers.Pool.Retain` | src/workers.rs:70-79 | the pool is reduced to its living workers in order, and the fixed array is never indexed out of bounds |
| `Workers.Pool.LeastBusy` | src/workers.rs:80-85 | with other threads dropping leases between the reads: picks a worker whose count, when read, was at most every other count when read, or none if none lives |
| `Workers.Pool.Acquire` | src/workers.rs:59-100 | with other threads dropping leases before each of the reads: a worker that is still busy at the last read is shared only at the limit, the chosen one was the least loaded when read, and a new worker is started only when every living one was busy when read and there is room |
| `Workers.Pool.Release` | src/workers.rs:52-57 | the first half of dropping a lease keeps every counter exact |
| `Workers.Pool.Drop` | src/workers.rs:44-57 | the second half gives up the reference; the counters stay exact |
| `Workers.Pool.Meanwhile` | src/workers.rs:44-57 | steps of other threads take exactly the leases they name to the next stage, and counters only go down |
| `Workers.Operate` | src/workers.rs:59-111 | over every sequence of acquisitions and drops at most min(CPUs, 4) workers live, each counter equals the outstanding leases, and each acquisition takes out one lease unless no thread could be started |
| `ByteQueues.ByteQueue.Append` | ts/lib/parsers/bytes.ts:15-20 | appends to the contents; an empty chunk takes no slot |
| `ByteQueues.ByteQueue.Peek` | ts/lib/parsers/bytes.ts:22-33 | the first bytes of the contents, across chunks and without unwritten bytes, or a range error exactly when there are too few |
| `ByteQueues.ByteQueue.Take` | ts/lib/parsers/bytes.ts:35-39 | removes and returns the first bytes |
| `ByteQueues.ByteQueue.Discard` | ts/lib/parsers/bytes.ts:41-59 | removes the first bytes; afterwards fewer than 64 or fewer than half of the slots are spent, and all compactions together have copied at most one slot per chunk appended |
| `ByteQueues.StoredSnoc` | ts/lib/parsers/bytes.ts:15-20 | a pushed chunk is the end of the stored bytes |
| `Matchers.DelimiterMatcher.constructor` | ts/lib/parsers/bytes.ts:78-88 | the table is the longest proper border of every prefix, built with at most one failure link per byte |
| `Matchers.DelimiterMatcher.Advance` | ts/lib/parsers/bytes.ts:90-96 | one byte of the automaton: reports a complete delimiter exactly, keeps the longest partial one, and follows no more failure links in total than bytes stepped |
| `Matchers.DelimiterMatcher.Find` | ts/lib/parsers/bytes.ts:99-111 | stepping, native search and suffix rescan together report the first delimiter of the stream since the last match |
| `Matchers.Fallback` | ts/lib/parsers/bytes.ts:84-91 | following a failure link skips no candidate |
| `Matchers.SuffixDecides` | ts/lib/parsers/bytes.ts:106-110 | the rescan of the last bytes gives the state of the whole stream |
| `Matchers.IndexIsFirst` | ts/lib/parsers/bytes.ts:104-105 | with no partial delimiter pending, the native search finds the first delimiter of the stream |
| `Delimiters.SplitIsLeftmost` | ts/lib/parsers/delimiter.ts:25-50 | the reference splitting loses nothing, every frame ends at its first delimiter, and the tail holds none |
| `Delimiters.SplitContinues` | ts/lib/parsers/delimiter.ts:42-48 | splitting a longer input continues from the tail |
| `Delimiters.OverflowMeans` | ts/lib/parsers/delimiter.ts:29-33 | a stream fails if and only if a completed payload or the final tail exceeds the limit |
| `Delimiters.OverflowIsFinal` | ts/lib/parsers/delimiter.ts:44-47 | an overflow verdict does not change with more input, although a possible delimiter is not counted until it is resolved |
| `Delimiters.PushesAreTheInput` | ts/lib/parsers/delimiter.ts:34-56 | a stream that does not overflow is its pushes, with the delimiters they include or leave out; the last push is what follows the last delimiter |
| `Delimiters.DelimiterParser.Transform` | ts/lib/parsers/delimiter.ts:25-50 | after each chunk pushes and verdict are those of the whole input, and at most limit plus delimiter length minus one bytes are buffered |
| `Delimiters.DelimiterParser.Flush` | ts/lib/parsers/delimiter.ts:52-57 | at the end an incomplete delimiter counts as payload |
| `Delimiters.ParseStream` | ts/lib/parsers/delimiter.ts:25-57 | for every chunking, pushes and verdict depend only on the concatenated input |
| `Delimiters.FindAll` | ts/lib/parsers/bytes.ts:99-111 | repeated `find` calls over any chunks report exactly the ends of the leftmost non-overlapping delimiters, and `pendingBytes` is the longest proper delimiter prefix at the end |
| `Slip.EscapeLength` | ts/lib/parsers/slip.ts:50-51 | the escaped payload is as long as the payload plus its escapes |
| `Slip.SlipEncoder.Transform` | ts/lib/parsers/slip.ts:39-69 | bulk copy and escape loop give the same frame, and the preallocated output is filled exactly |
| `Slip.SlipEncoder.WriteEscaped` | ts/lib/parsers/slip.ts:58-65 | the escape loop writes exactly the escaped payload |
| `Slip.EncodeStream` | ts/lib/parsers/slip.ts:39-69 | a sequence of payloads becomes the concatenation of its frames |
| `Slip.DecodeAppend` | ts/lib/parsers/slip.ts:114-128 | the reference decoder continues across any split of the input |
| `Slip.DecodePlain` | ts/lib/parsers/slip.ts:127-129 | a stretch without markers only extends the frame |
| `Slip.SlipDecoder.TransformBytes` | ts/lib/parsers/slip.ts:105-130 | the byte loop with its collected output simulates the reference decoder, including the moment of overflow |
| `Slip.SlipDecoder.TransformBulk` | ts/lib/parsers/slip.ts:94-104 | the native search path gives the same pushes, buffer, escape state and verdict |
| `Slip.SlipDecoder.Transform` | ts/lib/parsers/slip.ts:90-131 | whichever path is taken, the decoder is in the state of the reference decoder |
| `Slip.SlipDecoder.BufferIsBounded` | ts/lib/parsers/slip.ts:138-142 | the buffered payload never exceeds the limit |
| `Slip.DecodeStream` | ts/lib/parsers/slip.ts:90-136 | for every chunking of any byte stream and any settings, pushes, flush and verdict depend only on the concatenated input |
| `SlipRoundTrip.ImagesAreReceived` | ts/lib/parsers/slip.ts:114-128 | with distinct markers exactly the non-empty images of the payloads arrive, up to the first that is too long |
| `SlipRoundTrip.RoundTrip` | ts/lib/parsers/slip.ts:39-69 | with distinct markers and distinct codes the decoder delivers exactly the non-empty payloads, and fails if and only if one exceeds the limit |
| `SlipRoundTrip.Transport` | ts/lib/parsers/slip.ts:39-136 | encoder, any cutting of the wire into chunks, and decoder: with reversible settings the decoder delivers exactly the non-empty payloads and fails if and only if one exceeds the limit |
| `SlipRoundTrip.RoundTripExactly` | ts/lib/parsers/slip.ts:30-37 | the settings under which every payload sequence survives are exactly the reversible ones |
| `SlipFrames.EndEndsFrames` | ts/lib/parsers/slip.ts:58-67 | END never occurs inside an escaped payload if and only if ESC is not END and no escape code is END |
| `SlipFrames.KnownFrames` | ts/lib/parsers/slip.ts:39-69 | frames of the default dialect of RFC 1055 and of one with START and a leading END, byte for byte |
| `SlipFrames.KnownStreams` | ts/lib/parsers/slip.ts:109-136 | what both dialects make of an invalid escape, of bytes outside a frame and of an unfinished frame |
| `SlipFrames.DroppedBeforeStart` | ts/lib/parsers/slip.ts:122-127 | with a START marker, all bytes outside a frame are dropped |
| `SlipFrames.InvalidEscapeSplits` | ts/lib/parsers/slip.ts:116-121 | an invalid escape ends the frame before it, and its second byte begins the next |
| `PacketLength.ParseDescribes` | ts/lib/parsers/packet-length.ts:41-67 | the input is packets and skipped bytes in order plus the retained rest; bytes are skipped exactly where no delimiter starts and every packet has the size its header announces |
| `PacketLength.ParseIsUnique` | ts/lib/parsers/packet-length.ts:41-67 | no other division of the input has these properties |
| `PacketLength.ParseContinues` | ts/lib/parsers/packet-length.ts:41-67 | splitting the input anywhere does not change the parse |
| `PacketLength.RetainedBytes` | ts/lib/parsers/packet-length.ts:55-61 | fewer bytes are retained than the largest packet or header can have |
| `PacketLength.BigEndianValue` | ts/lib/parsers/packet-length.ts:46-46 | a delimiter is read most significant byte first: each byte weighs 256 times the next |
| `PacketLength.LittleEndianValue` | ts/lib/parsers/packet-length.ts:57-57 | the announced length is read least significant byte first |
| `PacketLength.PacketSizeMeans` | ts/lib/parsers/packet-length.ts:54-59 | the header alone is the packet if and only if the announced length is above the maximum or adds nothing to the header; otherwise the packet is exactly the announced length plus the overhead |
| `PacketLength.KnownPackets` | ts/lib/parsers/packet-length.ts:41-67 | a stream with a byte to skip, a short and a long packet and an unfinished header, byte for byte |
| `PacketLength.PacketLengthParser.Scan` | ts/lib/parsers/packet-length.ts:44-52 | skips to the next delimiter and no further |
| `PacketLength.PacketLengthParser.Transform` | ts/lib/parsers/packet-length.ts:41-67 | the loop terminates with the packets of the whole input pushed and the undecided rest buffered |
| `PacketLength.ParseStream` | ts/lib/parsers/packet-length.ts:41-72 | for every chunking the pushes depend only on the concatenated input |
| `LifecycleSafety.KeepStep` | ts/lib/stream.ts:149-353 | every call, settled promise, hook, return and exception keeps the invariants of the life cycle |
| `LifecycleSafety.Safety` | ts/lib/stream.ts:149-353 | every state that any run reaches satisfies the invariants, whatever the application does while it is called |
| `LifecycleTheorems.CallbacksRunOnce` | ts/lib/stream.ts:243-271 | each registered close callback has run, been lost to an exception, or is still to run: exactly one of the three, and once |
| `LifecycleTheorems.DroppedMeansLost` | ts/lib/stream.ts:267-270 | callbacks are lost if and only if a listener or callback throws while the method that called it has callbacks left |
| `LifecycleTheorems.AllCallbacksRun` | ts/lib/stream.ts:243-271 | with nothing waiting and no close in progress, all callbacks have run if and only if none threw with callbacks behind it |
| `LifecycleTheorems.CallbacksRunInOrder` | ts/lib/stream.ts:267-270 | callbacks run in the order of registration if, and when nothing is lost or waiting only if, none runs while an older one is waiting |
| `LifecycleTheorems.NoReentryKeepsOrder` | ts/lib/stream.ts:438-448 | an application that does not call the stream from its listeners and callbacks has its callbacks run in order |
| `LifecycleData.WritesAreKept` | ts/lib/stream.ts:206-218 | each write that Node hands over has been given to a port once, has failed once or is waiting, and only one of the three; they are given to ports, and fail, in order |
| `LifecycleData.WritesMove` | ts/lib/stream.ts:206-298 | which event does what to the writes: given to the open port at once, kept waiting, given to the port when its method resumes, or failed exactly by the destruction of the stream, a failed opening or a cancelled one |
| `LifecycleData.NeglectBegins` | ts/lib/stream.ts:188-220 | an open stream that has not been destroyed comes to have a write waiting, or data requested but not asked for, with nothing that will see to it, exactly by an exception just before `_resumeIO` or a port that becomes open by itself |
| `LifecycleData.NothingNeglected` | ts/lib/stream.ts:212-220 | without those, with no method waiting, an open stream that has not been destroyed has no write waiting and has asked its port for the data requested |
| `LifecycleCalls.EventsAreCaused` | ts/lib/stream.ts:149-353 | in every reachable state, exactly which events make and end an attempt, attach, detach and cancel a port, begin a close (with its reason and callback), end it or take it back, push data, and ask the port for it |
| `LifecycleCalls.CloseIsCaused` | ts/lib/stream.ts:222-298 | a close begins exactly by a call, the port's hook, the destruction or a failure of the current port that was not canceled, while there is something to close; it keeps its reason until it ends, and `port.close()` is called once |
| `LifecycleCalls.ReadIsCaused` | ts/lib/stream.ts:312-353 | data is pushed exactly when it comes from the current port while that is open, and the port is asked exactly when `_read` finds it open and not already reading |
| `LifecycleClosing.OneCloseEach` | ts/lib/stream.ts:255-271 | each attempt or connection emits 'close' at most once, none after a later one, and neither the current connection nor the opening in progress has |
| `LifecycleClosing.OneReadEach` | ts/lib/stream.ts:312-345 | each connection has at most one outstanding read request |
| `LifecycleClosing.DataIsCurrent` | ts/lib/stream.ts:168-173 | data is pushed only from the current open connection, never after its 'close' |
| `LifecycleClosing.ClosedIsClean` | ts/lib/stream.ts:255-271 | whatever step emits 'close' has detached the port, ended the close, reset reading for the next connection and lined up the callbacks behind the listener |
| `LifecycleClosing.RefusedCloseKeepsPort` | ts/lib/stream.ts:243-253 | a refused close keeps the open port, runs the first callback with the others lined up, emits no 'close' and can be retried |
| `LifecycleClosing.CloseStops` | ts/lib/stream.ts:174-184 | a close gets stuck exactly when the callback of a waiting write throws into the handler of a cancelled opening that no other promise will end |
| `LifecycleClosing.NoThrowNeverStuck` | ts/lib/stream.ts:206-210 | without exceptions no close gets stuck |
| `LifecycleClosing.CloseEnds` | ts/lib/stream.ts:222-253 | a close that is not stuck waits for a promise that ends it or hands it on, however that settles |
| `LifecycleClosing.CancelledOpening` | ts/lib/stream.ts:174-187 | an opening cancelled with nothing left of an earlier attempt becomes the open connection if and only if its port refuses to close |
| `LifecycleClosing.CancelHolds` | ts/lib/stream.ts:174-201 | a cancelled opening whose port never refuses to close stays closed in every continuation if and only if, at the cancel, no earlier port is attached and no handler of an earlier failed opening is waiting |
| `LifecycleLate.LateEventsDoNothing` | ts/lib/stream.ts:162-173 | removing every late hook, settled promise and read answer of replaced connections from a run changes neither the fields nor the callbacks, 'close' events and data |
| `LifecycleLate.LateAnswerOnlyRestarts` | ts/lib/stream.ts:335-353 | the exception: the late answer to a read delivers and closes nothing and restarts reading from the current connection |
| `LifecycleExamples.DestroyOvertakes` | ts/lib/stream.ts:267-270 | a run in which the callback of `destroy` overtakes one of `close` |
| `LifecycleExamples.ThrowLosesCallback` | ts/lib/stream.ts:267-270 | a run in which a throwing 'close' listener loses the callback of `close` |
| `LifecycleExamples.ThrowStopsClose` | ts/lib/stream.ts:174-179 | a run in which a throwing write callback leaves a close in progress for good |
| `LifecycleExamples.ThrowForgetsWrite` | ts/lib/stream.ts:188-190 | a run in which a throwing 'open' listener leaves a write waiting on an open stream |
| `LifecycleExamples.RefusedCancelIsOpen` | ts/lib/stream.ts:177-183 | a run in which the port of a cancelled opening refuses to close and stays open |
| `LifecycleExamples.CancelIsLost` | ts/lib/stream.ts:162-167 | a run in which the late hook of an earlier port ends the close, and the cancelled opening is open |
| `LifecycleExamples.CancelIsMistaken` | ts/lib/stream.ts:192-201 | a run in which the handler of an earlier failed opening ends the close, and the cancelled opening is open |
| `Streams.SerialPortStream.Live` | ts/lib/stream.ts:149-353 | the stream with its waiting methods on the call stack reaches the state of the transition system for every plan of calls, settled promises, hooks, returns and exceptions |
| `Streams.Observe` | ts/lib/stream.ts:149-353 | in the end the fields of any stream show: each callback run, lost or held once; all run unless one threw; in order unless one overtook; one 'close' per connection; one read each; without exceptions something that will end a close; each write given to a port, failed or waiting, once and in order; and in an undisturbed life nothing waiting or unasked on an open stream |

## Left out

- Device opening, termios and DCB settings, descriptor I/O, physical drain and flush: operating-system calls. A control operation is one step that may fail; reads and writes of the device may transfer any number of bytes.
- N-API marshalling, pooled buffer copies, allocation failure and environment teardown. Allocations succeed, a callback is lost only when its queue is full, and buffers are byte sequences: sharing and later mutation of a buffer are not modelled.
- `CallbackEvent::read` and the reuse of the Rust read buffer: they choose a representation of the same bytes.
- Tokio's wakers, cooperative budget and timers: a ready arm may run at any time, and a burst may end at any follower.
- Reordering of memory accesses: each action is atomic, which the Acquire and Release orderings of the source are meant to give.
- The `_writing` guard in the transition system: without it more runs are possible, and the results hold for all of them. Class `BindingPort` has the guard.
- Promise continuations: `readChunk` clears `_reading` one microtask after its request fails; the model clears it at once on a rejected submission.
- The fallback of `_deliverBatch` without a retain function, which the binding never uses.
- Bindings.BindingPort.WriteMany: cuts its buffers into requests before the first await, where the source cuts as it goes; the requests are the same as long as the application does not change the buffers of a write in progress.
- Reactors.ReactorLoop.Turn: the imperative reactor sees a stop or a new command of the other thread between calls; all finer interleavings are covered by the transition system.
- Workers.Pool.Retain: collects the living workers at one moment; a lease dropped between two of its steps has the effect of a drop before or after all of them.
- Streams.SerialPortStream.Live: of a write the stream keeps its number in the order in which Node hands them over; its data, its callback's arguments and Node's Duplex buffering are left out, but for the rule that no write is handed over while one is waiting. Callbacks and error reports that the stream calls with nothing left to do are no steps of their own: what they do is a call like any other.
- Errors as values: messages, codes and causes are not modelled; the stream's close reason is a number.
- `ByteLengthParser`, `ReadyParser`, `ReadlineParser`, `SpacePacketParser`: direct uses of the byte queue and the matcher.
- `RegexParser`, `InterByteTimeoutParser` and the gap check of `CCTalkParser`: they depend on the regular-expression engine or on real time.
- Option validation, port listing, the mock binding, native loading, packaging and benchmarks.
