# Edge Delta Lambda extension: the log-delivery pipeline

A Dafny model of how the extension moves telemetry from its HTTP handlers through the processor to the pusher and its
flush goroutines, driven by the invocation loop and by Stop, and of the separate worker pool. `dafny verify
dfyconfig.toml` checks everything.

## How the model is built

- `Framing`, `Overflow`: newline-terminated records, and the cut a failed flush makes in a payload over the limit.
- `Telemetry`, `Durations`, `Batches`: events, the table of open requests and its metrics, a batch's records and signal,
  and the replay of all the processor ever accepted.
- `PusherState`: the pusher's state and the effect of each branch of its select loop. A payload is a `Chunk`: its bytes,
  which the branches compute on, and the numbered records they came from, which no branch looks at.
- `Pipeline`: the whole extension as one step system. Channels without capacity are joint steps; the force-flush
  channels have capacity one; a push is an oracle that always returns Ok or Err; contexts may expire at any time. A step's
  label carries every choice, so a run is a sequence of labels with the states between them (`IsRun`). An invocation's
  context also ends when its `Worker.Invoke` returns, by the deferred cancel (main.go:163). A signal cancels the context of
  NextEvent before it calls Stop (main.go:206-207): after it at most one event that was already fetched is handed out.
- `Conservation`, `Deliveries`, `Queue`, `Regime`, `Retries`, `DoneChannel`, `Blocking`, `Doom`, `Signals`,
  `HandOver`, `Shutdown`, `SizeBound`, `ForceFlush`, `CallOrder`: the theorems, about every run or every run of a stated
  regime. `Witnesses`: reachable states that show why a regime or a condition is needed.
- `PusherLoop`, `ProcessorLoop`, `WorkerCalls`, `Pool`: the objects with their fields and loops. The pusher's methods are
  proved equal to the branch functions the step system uses, the processor's loops equal to the replay.

Two regimes. In a run *whose Invokes end through done* (`EndsThroughDone`) no `Worker.Invoke` takes its `ctx.Done` branch
(main.go:168); contexts may expire all the same. One flush at a time, no cyclic blocking in default mode and no lost pusher
hold there. A *no-deadline run* (`NoDeadline`) is one in which no context expires before the `Worker.Invoke` it belongs to
has returned; `NoDeadlineEndsThroughDone` shows it is the smaller regime. Arrival order and the live context of a flush need
it: `DeadlineBreaksTheQueue` has a run where every Invoke ends through done and still a younger record passes an older one.
What a regime excludes has its exact condition, in every run: `QueueExactlyUnlessOvertaken` for arrival order,
`EndFlushedExactlyWhen` for the END record and its flush, `StuckExactlyWhen` for blocking, `LossBeginsExactlyWhen` for a
pusher that is lost, `DoomBeginsExactlyWhen` for a Stop that never returns.

Assumptions: a marshalled record is not empty and has no raw byte 0x0A (section 7 of RFC 8259; `Codec.Sound`); a log
record always marshals, a metric record may not; `bufferSize` is not negative (cfg/config.go:84-85 does not enforce it);
the producer's handlers have finished before the processor is told to stop.

Findings, each stated as a lemma:

- Worker, processor and pusher can wait in a circle for good, in flush-at-next-invoke mode even if no context expires. The
  three ways in: an invocation finds the buffer empty while the processor has something for the pusher; a flush response
  comes while the worker still waits for a processor that has something for the pusher; the processor accepts a batch
  while the pusher offers done to a worker that waits for the processor (`CircleBeginsExactlyWhen`, `CyclicWaitIsPermanent`,
  `CyclicWaitIsReachable`).
- A Stop called by a signal can deadlock, in either mode and with no deadline: it stops the processor while the worker is
  between pusher and processor. Where Invokes end through done it never returns iff the worker gets doomed
  (`DoomBeginsExactlyWhen`, `DoomLasts`, `StopReturns`, `SignalDoomsStop`, `SignalDeadlocksThePusher`).
- A Stop called by a signal leaves a flush behind iff the pusher's stop message finds one, and records in it iff its push
  has not succeeded since, nor failed with a cut that left nothing (`StopLeavesItsFlushes`, `RecordsLeftExactlyWhen`,
  `SignalStopLeavesAFlush`).
- An expired deadline during a flush can leave the pusher offering done whose reader has left, for good and in either mode. It
  happens exactly when the pusher turns to a done channel whose reader has left, or the reader takes its `ctx.Done` branch
  while done is offered to it; never where Invokes end through done (`LossBeginsExactlyWhen`, `LossIsPermanent`,
  `DoneRunsNeverLose`, `DeadlineStrandsThePusher`, `ExpiryLosesThePusher`). An offer is never taken iff its reader has left or
  is doomed (`OfferLastsExactlyWhen`).
- After a signal the Shutdown event that was already fetched can let main return while Stop's body still runs
  (`MainOvertakesStopExactlyWhen`, `ShutdownOvertakesStop`).
- An expired deadline can take the END record away before its signal, so that in default mode the signal starts no flush with
  it and the worker goes on waiting (`EndFlushedExactlyWhen`, `DeadlineEmptiesBeforeSignal`).
- A later non-function event in the same batch mutes the runtime-done signal (`LaterEventMutesSignal`).
- A report without a runtime-done gets a post-runtime metric that is off by the whole range of a 64-bit duration
  (`MissingRuntimeDone`).

Where the repository's documentation and code differ, the model follows the code: README.md:58 promises at most 10 retries
of a failed flush, the code counts none; README.md:49 calls ED_LAMBDA_MAX_ITEMS the size of the channel between server
and pusher, the channels have no capacity (main.go:138-139).

## Model

| member | source | states |
|---|---|---|
| Framing.SplitOfFrame | pushers/processor.go:133-148 | splitting what the processor wrote gives back exactly its records |
| Framing.FrameOfSplit | pushers/processor.go:143-146 | framing the split gives the bytes back iff no unterminated tail was there |
| Overflow.CutIsWholeRecords | pushers/pusher.go:279-289 | the overflow cut of a framed payload falls between records, drops the least oldest run of them exceeding a tenth of the limit, and leaves the rest framed |
| Overflow.CutSize | pushers/pusher.go:279-289 | a cut drops at least B/10+1 and at most B/10+m bytes, m the longest record with its newline |
| Overflow.CutIndexMeans | pushers/pusher.go:279-289 | for any bytes: the cut is just after the first separator from B/10 on, or at B/10 where there is none |
| Retries.RetriesOnlyCut | pushers/pusher.go:214-220 | in every run, while every flush fails and nothing arrives, what the pusher holds is what it held, cut once per failure, through hand-back, prepend and the next flush start |
| Retries.RetriesConverge | pushers/pusher.go:274-291 | in every run, after at most ceil((L-B)/(B/10+1)) such failures it fits the limit B, and is whole latest records |
| Retries.RetriesSettle | pushers/pusher.go:279-291 | in every run, once it fits the limit further failures change nothing |
| PusherLoop.CutOverflow | pushers/pusher.go:279-289 | the index loop computes the cut index and keeps the rest |
| Durations.LookupProjects | pushers/processor.go:211-224 | other requests' events never touch a request's entry |
| Durations.MetricProjects | pushers/processor.go:294-315 | the duration metrics of a report for r are those of a processor that saw only r's events |
| Durations.OpenRequestIndex | pushers/processor.go:305-309 | r has an entry iff its latest accepted start is not followed by an accepted report with a numeric duration; Start is that start's, End the latest parsed runtime-done's since, or zero |
| Durations.MillisTruncates | pushers/processor.go:306 | milliseconds are the nanoseconds divided by a million, truncated toward zero |
| Durations.ElapsedSaturates | pushers/processor.go:306 | the difference of two times is the nearest 64-bit duration |
| Durations.WellFormedRequest | pushers/processor.go:304-315 | a request opened at t0 and last ended at t1: post-runtime is the duration less the truncated milliseconds of t1-t0, runtime what was billed less that, whatever events lie between, its own rejected ones included |
| Durations.MissingRuntimeDone | pushers/processor.go:304-309 | a request opened and never ended: the subtraction saturates and post-runtime is off by 9223372036854 ms |
| Batches.ProcessWritesClean | pushers/processor.go:134-147 | every record of a batch is clean |
| Batches.StartRecord | pushers/processor.go:211-246 | a START record names its event's request; it is left out iff the time does not parse |
| Batches.FunctionRecord | pushers/processor.go:248-265 | a function log carries the current request and its own trimmed text |
| Batches.EndRecord | pushers/processor.go:350-391 | an END record names its event's request in its field and the current one in its message; it is left out iff the request is open and the time does not parse |
| Batches.ReportRecord | pushers/processor.go:267-348 | a report's record is the metric measured against the table before it: the shown numbers of its metrics, and the split of its request's time if that is open |
| Batches.NamelessRecord | pushers/processor.go:216-219 | a platform event without a request id yields no record |
| Batches.OtherRecord | pushers/processor.go:206-208 | events of other kinds write nothing and change nothing |
| Batches.BatchInEventOrder | pushers/processor.go:133-147 | a batch's records are its events' own, each once, in event order, against the table its predecessors leave |
| Batches.SignalIffLastPlatformEnds | pushers/processor.go:129-137 | a batch is signalled iff its last non-function event is a platform.runtimeDone whose record's requestId is the current non-empty request |
| Batches.SignalledBatchHasEnd | pushers/processor.go:350-391 | a signalled batch with parseable timestamps holds the END record of the current request |
| Batches.ReplayTable | pushers/processor.go:125-156 | over any batches and invokes the table is the fold over all accepted events |
| ProcessorLoop.Processor.ProcessStart | pushers/processor.go:211-246 | the early returns and the assignment to the table add up to the record and the update that the replay uses |
| ProcessorLoop.Processor.ProcessReport | pushers/processor.go:267-348 | the metrics computed in steps, with the entry deleted in between, are those of the table before |
| ProcessorLoop.Processor.ProcessRuntimeDone | pushers/processor.go:350-391 | an open request whose time does not parse yields no record; else the end is dated and the record written |
| ProcessorLoop.Processor.ProcessEvent | pushers/processor.go:196-265 | by kind: the record and the update of the table that the replay uses |
| ProcessorLoop.Processor.WriteEvent | pushers/processor.go:138-146 | one event's record is appended with its separator |
| ProcessorLoop.Processor.DrainBatch | pushers/processor.go:162-172 | the drain's inner loop continues the processing of the events before it |
| ProcessorLoop.Processor.Batch | pushers/processor.go:132-154 | the batch loop's bytes, flag, table and request id, with the flag down again afterwards |
| ProcessorLoop.Processor.Drain | pushers/processor.go:157-176 | the drain loop is one batch's processing of all remaining events, and writes nothing when none remain |
| ProcessorLoop.Processor.Run | pushers/processor.go:125-156 | the main loop over any inputs is the replay of its inputs |
| PusherLoop.Loop.constructor | pushers/pusher.go:141-146 | the loop starts with an empty buffer, background context and no done channel |
| PusherLoop.Loop.BytesIn | pushers/pusher.go:149-150 | bytes are appended |
| PusherLoop.Loop.RuntimeDone | pushers/pusher.go:151-181 | the runtime-done branch: nothing, a synchronous push, or a flush |
| PusherLoop.Loop.ContextDone | pushers/pusher.go:182-198 | the context-done branch pushes the buffer and resets the context |
| PusherLoop.Loop.Invoke | pushers/pusher.go:199-213 | the invoke branch, with done sent at once iff there is nothing to flush in flush-at-next-invoke mode |
| PusherLoop.Loop.FlushEnds | pushers/pusher.go:274-295 | flush: delivered, or cut and handed back |
| PusherLoop.Loop.FlushResponse | pushers/pusher.go:214-224 | a failed payload is prepended, done is sent if a channel is set |
| PusherLoop.Loop.Stop | pushers/pusher.go:225-239 | the stop branch pushes what is left, releases a waiting invocation and ends the loop |
| PusherLoop.Loop.ForceFlush | pushers/pusher.go:240-262 | the force-flush branch empties the buffer; its answer is true iff the push succeeded or there was nothing |
| PusherLoop.Loop.Run | pushers/pusher.go:141-264 | over any turns the loop does what the branches do, keeps each received record in one place and every payload whole records, and ends iff a turn is a stop |
| PusherLoop.TurnsInOrder | pushers/pusher.go:148-262 | any sequence of turns keeps the books balanced and the payloads framed |
| PusherLoop.TurnIsSettledBranch | pushers/pusher.go:148-262 | a turn of the object is the step system's branch followed by what it waits for |
| PusherLoop.SettlingIsOutcomes | pushers/pusher.go:221-239 | settling is the step system's outcome steps |
| Pipeline.EnvironmentIsFree | main.go:159-250 | arrivals, signals, events, expiries, callers that leave and both results of a push can happen at any time |
| Conservation.EachRecordInOnePlace | pushers/pusher.go:149-262 | in every run each received record is exactly once in exactly one of: buffer, a flush, a push by the loop, one successful delivery, one named loss; nothing else is anywhere |
| Conservation.OneFlushHoldsIt | pushers/pusher.go:174-178 | no two flush goroutines hold the same record |
| Conservation.PayloadsAreWholeRecords | pushers/pusher.go:214-220 | in every reachable state the buffer and every payload is a concatenation of whole received records, and splitting returns exactly those |
| Conservation.CutFramed | pushers/pusher.go:279-289 | the cut parts a framed payload between two records, losing and inventing nothing |
| Deliveries.FlushStartsExactlyWhen | pushers/pusher.go:151-213 | a flush starts exactly at an invoke or at a runtime-done signal under a live context, by mode, with the whole non-empty buffer |
| Deliveries.SignalOtherwise | pushers/pusher.go:151-181 | any other runtime-done signal leaves the pusher alone, or under a done context pushes the buffer and keeps the context |
| Deliveries.DeparturesAreExplained | pushers/pusher.go:266-295 | a successful push delivers exactly its payload; a failed flush loses nothing that fits and else an oldest part of at least B/10+1 and at most B/10+m bytes, m the longest record with its newline; a failed push by the loop loses its payload; nothing else departs |
| Deliveries.ContextDoneFiresOnce | pushers/pusher.go:182-198 | the context-done branch empties the buffer and fires at most once between two invocations |
| Deliveries.ContextChangesExactlyWhen | pushers/pusher.go:182-200 | in every run the pusher's context changes at an invoke and where a context-done branch ends, by step label, and nowhere else |
| Deliveries.LateBytesAreTaken | main.go:162-163 | in every run the context of an invocation that is over is done, and a selecting pusher that still has it can take the context-done branch with whatever came late |
| Queue.StepInLine | pushers/pusher.go:149-224 | a step keeps the arrival order iff it overtakes nothing |
| Queue.QueueExactlyUnlessOvertaken | pushers/pusher.go:149-262 | in every run the pusher has been a queue all along iff no step so far overtook |
| Queue.FifoRefinement | pushers/pusher.go:149-224 | in no-deadline runs before the stop message, either mode: received equals departed, then in flight, then buffered, record for record and byte for byte |
| Queue.AtMostOneFlush | pushers/pusher.go:151-224 | where Invokes end through done, at most one flush is in flight, in every state; before the stop message it is the waiting invocation's, an invocation finds none, and its response releases that invocation |
| Queue.FlushContextIsLive | pushers/pusher.go:174-178 | in no-deadline runs the context of the flush in flight is the waiting invocation's, and live |
| Queue.OneDonePerInvocation | main.go:164-183 | each invocation gets at most one done |
| Regime.StepKeepsPaired | main.go:159-184 | every step but an Invoke's ctx.Done branch keeps the handshake invariant of worker, processor and pusher |
| Regime.StepKeepsCalm | main.go:159-184 | every step of a no-deadline run keeps the waiting invocation's context live besides |
| Regime.RunStopsInOrder | main.go:186-199 | in every run the components go down in order: producer, processor, pusher |
| Blocking.NoCyclicBlocking | main.go:159-184 | without flush-at-next-invoke, where Invokes end through done and until the processor is told to stop, there is neither a circle nor a lost pusher, every blocked component's waiting chain has an enabled step, and at most eight serve it |
| Blocking.StuckExactlyWhen | main.go:159-184 | in every run, until the processor is told to stop, the chain of a blocked processor, worker, pusher, flush or HTTP handler is stuck iff it needs the pusher and that is in the circle or lost; else its step serves it |
| Blocking.CircleBeginsExactlyWhen | pushers/pusher.go:199-224 | in every run the circle closes iff the step is one of three entries: an invoke with an empty buffer, a flush response, an accepted batch |
| Blocking.ChainMovesUnlessStuck | pushers/processor.go:148-156 | the same for one state, from the order of stopping and the place of the done channel alone |
| Blocking.CyclicWaitIsPermanent | pushers/pusher.go:203-205 | no step ends the circular wait |
| DoneChannel.DoneOfferedExactlyWhen | pushers/pusher.go:202-239 | the pusher offers done exactly from an invoke with nothing to flush, a flush response or the end of a stop on, to the channel of the latest invoke |
| DoneChannel.LossBeginsExactlyWhen | pushers/pusher.go:214-239 | in every run the pusher offers done whose reader has left iff it did before, or it turned to such a done channel at a flush response, stop message or last push, or the reader took its ctx.Done branch during the offer |
| DoneChannel.LossIsPermanent | pushers/pusher.go:221-223 | no step frees such a pusher |
| DoneChannel.DoneRunsNeverLose | main.go:167-182 | where Invokes end through done the pusher never is in that state |
| Doom.DoomBeginsExactlyWhen | main.go:186-199 | in every run a worker waits for a processor that will not listen iff it did before, or the processor was stopped while it waited, or the pusher took an invocation from it with the processor stopping, or the circle closed |
| Doom.DoomLasts | main.go:186-199 | from then on the worker stays there and Stop never returns |
| Doom.OfferLastsExactlyWhen | pushers/pusher.go:221-237 | in every run an offer of done whose reader has left or is doomed is never taken; towards any other a step is enabled |
| Signals.AcceptDecidesSignal | pushers/processor.go:132-137 | accepting a batch makes a signal due iff its last non-function event is a runtimeDone of the current request |
| Signals.OnlyAcceptAndSignalMatter | pushers/processor.go:148-154 | a due signal stays due until taken, and none becomes due otherwise |
| Signals.SignalNamesLatestInvoke | pushers/processor.go:149-156 | each signal names the latest accepted invoke's request; between two signals an invoke was accepted |
| Signals.BatchBufferedExactlyUnlessTaken | pushers/pusher.go:182-198 | in every default-mode run each record of a batch whose signal is due is in the buffer iff neither the context-done nor the force-flush branch was taken since it came; else the loop pushed it |
| Signals.EndFlushedExactlyWhen | pushers/pusher.go:151-181 | in every default-mode run with parseable timestamps each signal starts a flush with its request's END record iff neither branch was taken since that came and the context is not done; else the record has departed or is pushed now |
| Signals.EndPrecedesFlush | pushers/processor.go:138-153 | hence, with no deadlines: each signal starts exactly one flush, of the whole buffer, holding that request's END record |
| HandOver.OrderedHandOver | pushers/processor.go:132-156 | in every run what the pusher received is the accepted batches in order, each one's records in event order, in the state of its turn, but for at most the last one |
| HandOver.HandlersHoldArrivals | handlers/producer.go:57-64 | in every run each handler holds all the events that arrived with its request, or none if they did not decode |
| HandOver.ArrivalIsKept | handlers/producer.go:48-65 | a request that arrived is held, so, ever after |
| HandOver.BatchesArrived | handlers/producer.go:64 | what the processor accepts as a batch is exactly what arrived with that request |
| HandOver.AnsweredOnlyWhenAccepted | handlers/producer.go:58-65 | a batch answered 200 is what arrived with its request, and was accepted by the processor exactly once |
| HandOver.NothingAfterProducer | main.go:192-193 | once the producer is down the processor accepts no further event |
| Shutdown.StopRunsOnce | main.go:186-199 | the body of Stop runs at most once |
| Shutdown.ShutdownStartsClean | main.go:234-243 | where Invokes end through done the Shutdown event finds no flush in flight and no done channel |
| Shutdown.LastOutputPrecedesStop | main.go:193-194 | before its stop message the pusher has everything the processor wrote |
| Shutdown.SignalEndsTheLoop | main.go:203-209 | after a signal the worker is given at most one more event, and only if it was waiting for one |
| Shutdown.MainOvertakesStopExactlyWhen | main.go:241-243 | in every run main returns with Stop's body still running iff a Shutdown event finds it running; that is a signal's Stop, and the event the one already fetched |
| Shutdown.ProducerCanStop | handlers/producer.go:69-80 | in every run, while Stop waits for the producer, its shutdown can return or some handler is blocked on the processor, whose chain serves it unless it needs a stuck pusher |
| Shutdown.StopCanMove | main.go:186-199 | in every reachable state the step Stop waits for is enabled unless the worker is doomed or the pusher lost, and at most eight such steps make a serving processor idle |
| Shutdown.EachStepBringsStopNearer | pushers/pusher.go:225-239 | in every reachable state, while Stop runs, every step but a bystander's lowers a number, dooms the worker or loses the pusher |
| Shutdown.StopReturns | main.go:186-199 | in every run, whoever called Stop: from the producer's shutdown on a bounded number of steps pass before Stop has returned, the worker is doomed or the pusher lost, and until then one is always enabled; where Invokes end through done 13 for the Shutdown event, 30 for a signal, 19 once the processor is stopping; else 37 and 4 for each flush |
| Shutdown.StopMessageDecides | pushers/pusher.go:225-239 | in every run, after the pusher's stop message Stop never returns if the worker waited for the processor then; otherwise it has returned, has an enabled step, or the pusher is lost |
| Shutdown.ShutdownNeverDooms | main.go:234-243 | a Stop called by the Shutdown event is never in that case |
| Shutdown.StopLeavesItsFlushes | pushers/pusher.go:225-239 | in every run the flushes after the stop message are those it found, each as its own push left it |
| Shutdown.RecordsLeftExactlyWhen | pushers/pusher.go:274-295 | such a flush still has records iff it had some, its push has not succeeded since, and if it failed its cut left some |
| Shutdown.StopLeavesOnlyFlushes | pushers/pusher.go:225-239 | in every run, after Stop, the buffer is empty and every record the processor ever wrote has departed exactly once or is in one of those flushes |
| Shutdown.StopLeavesAtMostOneFlush | pushers/pusher.go:225-239 | where Invokes end through done that is at most one flush, and none if the Shutdown event called Stop |
| Shutdown.ShutdownLeavesNothing | pushers/pusher.go:225-239 | in no-deadline runs the records have departed in the order the processor wrote them |
| SizeBound.PayloadsAreBounded | pushers/pusher.go:214-220 | one flush at a time and at most B/10+1 bytes between flush starts: no flushed payload exceeds B+B/10+1, none handed back exceeds B |
| SizeBound.PayloadsAreBoundedByPace | pushers/pusher.go:274-291 | where Invokes end through done the pace of arrivals is enough for that bound |
| ForceFlush.AnswerNeverBlocks | pushers/pusher.go:256-261 | an answer finds its reply channel empty, goes in, and leaves the pusher selecting with an empty buffer |
| ForceFlush.AnsweredOnce | pushers/pusher.go:240-262 | each request is answered at most once |
| ForceFlush.NoRequestIsLost | pushers/pusher.go:240-262 | in every run a force flush whose caller waits is answered, or queued where a selecting pusher can take it, or being pushed for |
| ForceFlush.QueuedUntilTaken | pushers/pusher.go:240-243 | a queued request stays queued until the pusher takes it up, even if its caller leaves |
| ForceFlush.TrueMeansDelivered | pushers/pusher.go:338-356 | a true answer means every record buffered when the request was taken up was delivered |
| Witnesses.CyclicWaitIsReachable | pushers/pusher.go:202-205 | a no-deadline run in flush-at-next-invoke mode reaches the circular wait |
| Witnesses.SignalDoomsStop | main.go:201-211 | a no-deadline run in either mode: a signal stops the processor before it has been given the invocation the pusher has |
| Witnesses.ShutdownOvertakesStop | main.go:241-243 | such a run: a signal, then the Shutdown event already fetched |
| Witnesses.SignalDeadlocksThePusher | pushers/pusher.go:235-237 | in default mode it goes on to a pusher offering done with the processor gone |
| Witnesses.SignalStopLeavesAFlush | pushers/pusher.go:225-239 | a signal's Stop can return with a record in a flush |
| Witnesses.DeadlineBreaksTheQueue | pushers/pusher.go:182-198 | in either mode: with an expired context, though every Invoke ended through its done channel, a younger record passes an older one |
| Witnesses.DeadlineStrandsThePusher | main.go:167-179 | in either mode a deadline and a caller that gives up leave the pusher offering done to an invocation that is over |
| Witnesses.ExpiryLosesThePusher | main.go:167-170 | in either mode the pusher is lost at once when its reader takes the ctx.Done branch during the offer |
| Witnesses.DeadlineEmptiesBeforeSignal | pushers/pusher.go:182-198 | in default mode, every Invoke ending through done, a signal can find its END record gone and the worker waiting |
| Witnesses.LaterEventMutesSignal | pushers/processor.go:135-137 | a later non-function event in its batch mutes a runtimeDone |
| WorkerCalls.Worker.HandleInvocations | main.go:213-250 | the event loop's calls, up to a Shutdown or a failure |
| WorkerCalls.LoopCallsAreOrdered | main.go:213-250 | the processor is invoked right after the pusher and never otherwise; the components go down last and once |
| WorkerCalls.LoopSkips | main.go:226-247 | an event that does not parse or is not expected changes no call |
| CallOrder.RunMakesTheLoopsCalls | main.go:159-199 | in every run of the step system the calls made so far and those due are those of the event loop on the events seen, and so ordered |
| WorkerCalls.Producer.HandleLogs | handlers/producer.go:49-66 | 200 iff the body was read and decoded; every 200 comes right after a hand-over, and every hand-over is answered 200 |
| Pool.PoolBound | utils/pool.go:24-52 | InProgress equals the goroutines between increment and decrement, at most the tokens, at most the limit |
| Pool.PoolCompletes | utils/pool.go:24-37 | with limit at least 1 some goroutine can step until all are finished, each step leaving one less to take |
| Pool.WorkIsSpent | utils/pool.go:24-52 | steps taken and steps left add up to six for each Execute |
| Pool.WaitMeansAllRan | utils/pool.go:35-37 | Wait returns iff every goroutine is through, and then every submitted function ran exactly once |
| Pool.WorkerPool.Execute | utils/pool.go:24-32 | Execute adds to the wait group and a goroutine |
| Pool.WorkerPool.Enter | utils/pool.go:44-45 | the send takes a token |
| Pool.WorkerPool.CountIn | utils/pool.go:46 | the increment |
| Pool.WorkerPool.RunFunction | utils/pool.go:29 | the function is called |
| Pool.WorkerPool.CountOut | utils/pool.go:49-50 | the decrement |
| Pool.WorkerPool.Exit | utils/pool.go:51 | the receive gives the token back |
| Pool.WorkerPool.WgDone | utils/pool.go:27 | the deferred Done |
| Pool.WorkerPool.Run | utils/pool.go:24-52 | over any interleaving the pool goes through the states of the run; the counter stays within the limit, and a wait group at zero means each function was called once |

## Left out

- HTTP, Firehose and AWS SDK calls, TLS and the extension API clients: a push is an oracle, NextEvent a choice.
- Retry, backoff and real time: DoWithExpBackoffC only returns Ok or Err, deadlines are a step that may happen.
- JSON, time parsing and trimming: opaque functions with the assumptions above; floats are reals.
- Tags, ARN, architecture, memory metrics and logging: straight-line copying.
- Configuration parsing: the mode and the limit are parameters.
- A producer shutdown that times out with handlers still sending, and the panic of a send on the closed channel.
- Panics inside goroutines and in pool functions; null elements in a batch.
- The context a flush pushes under: the closure at pushers/pusher.go:176-178 reads the variable when it starts to run, but
  the outcome of a push is free anyway; `Flush.under` is the context at the moment the goroutine is started.
- The 32-bit width of the in-progress counter: it is bounded by the limit (`Pool.PoolBound`).
- What other goroutines do meanwhile is an argument of the methods in `WorkerCalls`; the interleaving, concurrent callers
  of Stop and what the producer's shutdown means are the step system's (`CallOrder`, `StopRunsOnce`, `NothingAfterProducer`).
- Shutdown.StopReturns: the end of the process is no step, so nothing here stops when main returns. When that cuts a Stop
  short is `MainOvertakesStopExactlyWhen`, but for a signal that comes while the Shutdown event's Stop runs: its handler
  sleeps 100 ms and then lets main return (main.go:207-210, lambda/types.go:127), and real time is not modelled.
- PusherLoop.Loop.Run: a turn includes what the loop waits for; the waiting itself, and who ends it, is the step system's.
