# EasyHooks pipeline, modelled in Dafny

EasyHooks accepts webhooks over HTTP, queues them on one Redis stream, and lets a group of workers move each event
to its tenant's stream or to a dead-letter stream. API processes fan a tenant's stream out to WebSocket subscribers.
This project models that pipeline and proves what it guarantees, over every interleaving of its steps.

Each Go object that updates its fields is a class whose methods are proved against functions on a plain value
(`View()`). The concurrent parts are state machines over the same functions, one event per atomic step, so a theorem
about a machine is a theorem about what the methods compute.

* `Common`, `Queue`, `Monitor`, `Config`, `Webhooks`: the ingestion stream with its consumer group, the load shedder,
  its configuration, and the handler that publishes.
* `Backoff`, `Processor`, `Worker`: one message through gate, retry loop and dead-letter dispatch, and one turn of the
  consume loop.
* `Pipeline`, `Passes`, `Appends`, `Results`, `Counts`, `Gates`, `DeadLetters`: any number of workers and publishers
  interleaving over one Redis, with crashes, cancellations, lost replies, trims and ambiguous writes as events, and the
  invariants of every reachable state.
* `Guarantees`, `ExactlyOnce`, `Quiescence`, `MutualExclusion`: the main results about that machine. `SoloRun` and
  `Turns` link it to `ProcessMessage` and to the consume loop, and `Losses` gives runs that lose events. `Admission`
  composes the shedder with the stream cap.
* `Fanout`, `FanoutSlices`, `TenantFanouts`: subscribers, bounded channels and readers.
* `TenantStream`, `DollarStart`: history reads and the cursor over a growing stream, from an id and from `$`.
* `LiveFeed`: fan-out fed by such cursors, from the tenant's stream to the subscriber. `EndToEnd` joins it to the pipeline.
* `Auth`: the bearer session cache.

A Redis write has three outcomes for its caller: done, failed, and ambiguous (an error although the write took effect).
The client library sends a command again when its reply is lost: SET NX then finds the lock it has just taken, and an append
is made twice.

## Where the code differs from what is written about it

The model follows the code.

* `go-api/cmd/worker/main.go:104` acks an entry whatever `ProcessMessage` returned; the comment at lines 95-98 says that
  it stays pending. `Worker.TurnAcksWhateverReturned` and `Losses.AckedButLost` state the consequence: an entry whose
  processing failed is gone. After a nil return other than as a duplicate a confirmed append exists
  (`Guarantees.AckedEntriesAccounted`); a duplicate says only that the event id's lock had been set.
* The idempotency lock is keyed by the event id alone and never released (`go-api/internal/service/processor.go:82-90`),
  so idempotency is per event id, across tenants: `ExactlyOnce.OwnTerminalIff` says which entry of an id gets an append of
  its own, and `Losses.OtherTenantsEventDropped` shows one tenant's event hiding another's. The default lifetime is 3600 s
  (`go-api/internal/config/config.go:60`). Whether it excludes a second worker depends on the retry settings:
  `MutualExclusion.ExclusiveIff`.
* A nil return does not imply that a handler was called for the event id: `Losses.ResentGateLoses` and
  `Losses.AmbiguousGateLoses`. It does exactly when some SET NX for that id was granted to its caller:
  `Guarantees.NilReturnIff`.
* `unsub` closes its channel even when `fanOut` has closed it already (`go-api/internal/service/fanout.go:65-77`).
  `Fanout.NoPanicIffUnsubsPresent` says exactly when the process survives; `Fanout.DroppedUnsubPanics` shows the panic.
* A drop that empties the subscriber map leaves its reader running (`go-api/internal/service/fanout.go:117-128`):
  `Fanout.ReaderAccounting` counts such readers and `Fanout.DroppedLastLeavesReader` shows two at once.
* From start id `$`, each timed-out XREAD resolves `$` again (`go-api/internal/service/streams.go:92-101`).
  Both callers start there. `DollarStart.DollarMissesIff` says exactly when nothing since the start is missed, and
  `DollarStart.DollarCanMiss` shows an event that no continuation emits.
* A low-water percentage of 0 releases only at backlog 0, and one of 100 makes both watermarks equal, which toggles the
  shedder (`Monitor.EqualWatermarksToggle`); the comment at `go-api/internal/streams/monitor.go:51-52` reads otherwise.
* `go-api/internal/streams/queue.go:50` says that the shedder reads XLEN; it reads lag + pending, whose accounting is
  `Queue.BacklogAccounting`.

## Model

| member | source | states |
|---|---|---|
| Guarantees.AckedEntriesAccounted | go-api/cmd/worker/main.go:91-107 | In every run, an acked entry was finished; a confirmed tenant append (dead letter) exists for it exactly when `ProcessMessage` returned after delivering (dead-lettering), and it carries that entry's envelope; a nil return means one of these, or a duplicate of an event id whose lock some SET NX of the run had set, told to its caller or not |
| Guarantees.NilReturnIff | go-api/internal/service/processor.go:82-166 | For an acked entry with a nil return, a handler call was started for its event id if and only if some SET NX of the run for that id was granted to its caller and max >= 1; without such a grant it is a duplicate of a lock set by callers that were never told, and nothing was appended for the id |
| Guarantees.PlainGatesMakeNilTrue | go-api/internal/service/processor.go:82-166 | When every SET NX is answered directly and without ambiguity, every nil return means that a handler call was started for the event id |
| Gates.GateHistoryIff | go-api/internal/service/processor.go:82-90 | An event id has a passage exactly when some SET NX of the run set its lock and told its caller, and is stray exactly when one set it and did not |
| Guarantees.RunConservesEntries | go-api/internal/streams/queue.go:159-192 | In every reachable state each published entry is in exactly one of undelivered, pending, acked, lost to trimming, and lag + pending counts the first two |
| Guarantees.GatePassagesApart | go-api/internal/service/processor.go:82-90 | In every run, two passages of the gate for one event id are at least one lock lifetime apart; with no expiry there is only one |
| Guarantees.PassageIsBounded | go-api/internal/service/processor.go:118-165 | One lock lifetime causes at most max handler calls and one dead-letter attempt; its appends number at most these plus the commands sent again; an append followed by another was not confirmed, and only the same dead letter, sent again, follows a dead letter; with neither ambiguous nor repeated appends there is at most one in all |
| Counts.CountReachable | go-api/internal/service/processor.go:118-187 | In every reachable state each append of a passage is paid for by a call that is over, the dead-letter attempt or a repeated command |
| Guarantees.TenantStreamsHoldAcceptedBodies | go-api/internal/service/processor.go:191-204 | Every entry of tenant T's stream is byte for byte the body of a publish made in that run for an id that parses to T |
| Guarantees.DeadLettersReExtract | go-api/internal/service/processor.go:170-187 | Every dead letter re-extracts to the envelope of a publish of that run, and carries an error exactly when max >= 1 |
| DeadLetters.DeadLettersExact | go-api/internal/service/processor.go:128-187 | Every dead letter of every run is, field by field, an entry's envelope with the error of the last handler call made in its passage; it has no error field exactly when max < 1 |
| Guarantees.AppendHasWriter | go-api/internal/service/processor.go:33-51 | Whoever wrote to the ingestion stream, every append carries the envelope of an entry written in that run |
| Guarantees.EntryHasWriter | go-api/internal/streams/queue.go:53-75 | Every entry delivered since the group was created was written by some event of the run |
| Losses.AckedButLost | go-api/cmd/worker/main.go:94-106 | For every configuration, a run that acks an entry of which nothing was appended anywhere, because every handler call and the dead-letter append failed, or the gate did |
| Losses.ResentGateLoses | go-api/internal/service/processor.go:82-116 | For every configuration with a valid lifetime, a run that acks an entry after a nil return although no handler was called for its id, because the worker's SET NX was sent twice |
| Losses.AmbiguousGateLoses | go-api/internal/service/processor.go:82-116 | The same for a SET NX that took effect but reported an error: the first copy is acked after the error, the second after a nil return, and nothing is appended |
| Losses.OtherTenantsEventDropped | go-api/internal/service/processor.go:82-116 | A run without any failure in which the second tenant to use an event id gets nothing and its entry is acked after a nil return |
| Losses.CrashOrphans | go-api/cmd/worker/main.go:78-108 | A crash leaves every unfinished entry of the worker's batch pending with no worker, and the other workers alone |
| Losses.LostReplyOrphans | go-api/internal/streams/queue.go:159-180 | So does a read whose reply is lost, for the whole batch |
| Losses.OrphanStaysPending | go-api/internal/streams/queue.go:159-180 | An entry that is pending with no worker, after a crash or a lost reply, stays pending in every continuation and is never acked |
| ExactlyOnce.ExactlyOneTerminal | go-api/internal/service/processor.go:102-187 | With any number of workers and in runs without the listed faults, at quiescence every published event id has exactly one terminal append, carrying the tenant and payload of an entry published under it |
| ExactlyOnce.AtMostOneTerminal | go-api/internal/service/processor.go:102-187 | In those runs no event id ever has two terminal appends, quiescent or not |
| ExactlyOnce.OwnTerminalIff | go-api/internal/service/processor.go:82-116 | In those runs, at quiescence, an entry has an append of its own if and only if its `ProcessMessage` did not return as a duplicate, that is if and only if the one gate passage of its event id was made for it |
| Quiescence.CleanRunCanFinish | go-api/cmd/worker/main.go:78-108 | Every such run with a worker has a continuation of the same kind, publishing nothing more, to quiescence, when locks do not expire or none expires before the last sleeping worker may wake and every tenant id parses |
| ExactlyOnce.CleanReachable | go-api/cmd/worker/main.go:78-108 | In those runs every delivered entry is finished with a nil return or still in a worker's batch, and every gate passage is in progress or has made its append |
| MutualExclusion.ExclusiveIff | go-api/internal/service/processor.go:82-163 | With limits on a handler call, on the reply to SET NX and on late wake-ups, no run has two workers between the lock and the end of the retry loop for one event id, if and only if the longest such stay is below the lock lifetime (or the lock never expires) |
| MutualExclusion.MaxStayClosedForm | go-api/internal/service/processor.go:92-163 | The longest stay is the reply time, max calls, max - 1 late wake-ups and base * (2^(max-1) - 1) ms |
| MutualExclusion.OverlapRun | go-api/internal/service/processor.go:118-163 | From a stay of one lock lifetime on, a run that puts two workers into the loop for one event id |
| Results.Reachable | go-api/cmd/worker/main.go:78-108 | Every reachable state keeps all invariants: batches disjoint and pending, one passage per entry, append and lock ownership, results |
| Pipeline.BatchStep | go-api/cmd/worker/main.go:82-107 | Every step keeps the workers' batches disjoint, pending and unfinished, and acked entries finished |
| Passes.PassStep | go-api/internal/service/processor.go:102-165 | Every step keeps the passages: one per entry, its call count matching its owner's attempt |
| Appends.AppendStep | go-api/internal/service/processor.go:128-187 | Every step keeps each append tied to its passage's envelope, with only unconfirmed tenant appends before another one |
| Appends.LockStep | go-api/internal/service/processor.go:82-90 | Every step keeps each passage covered by its lock's lifetime and passages of one event id apart |
| SoloRun.SoloProcess | go-api/internal/service/processor.go:102-166 | A worker undisturbed in the machine reaches exactly the store and return value that the method `ProcessMessage` computes, and leaves the queue and the other workers alone |
| Turns.SoloTurn | go-api/cmd/worker/main.go:78-108 | From its read to its last ack, a worker undisturbed in the machine reaches exactly the stream and store that the sequential turn computes, leaves each entry's return value, and touches nothing else |
| Turns.TurnDelivers | go-api/cmd/worker/main.go:91-106 | When every reply is a success, a turn over well-formed entries with distinct unlocked ids appends one tenant entry for each, in order, to the stream of the tenant its id parses to |
| Worker.ConsumeOnce | go-api/cmd/worker/main.go:78-108 | One turn of the loop leaves the stream, Redis and the return values as processing and acking the batch in order does |
| Worker.TurnAcksWhateverReturned | go-api/cmd/worker/main.go:94-106 | When acks arrive, a turn acks its whole batch whatever the return values were, and the backlog falls by the batch |
| Worker.LostReplyStrandsBatch | go-api/internal/streams/queue.go:159-180 | A read whose reply is lost leaves its batch pending with no worker, and the backlog unchanged |
| Processor.Redis.ProcessMessage | go-api/internal/service/processor.go:102-166 | Store, return value, calls and sleep equal those of the recursive specification |
| Processor.ProcessStarts | go-api/internal/service/processor.go:102-121 | In plain fields: a malformed entry or a refused SET NX changes nothing; an ambiguous one returns the error and may set the lock; a taken or repeated one returns as a duplicate; the retry loop runs exactly when the id was free and SET NX succeeded at the first try |
| Processor.Redis.RetryOrDeadLetter | go-api/internal/service/processor.go:118-166 | The loop and the dispatch after it equal the recursive retry |
| Processor.Redis.AcquireIdempotencyLock | go-api/internal/service/processor.go:82-90 | In plain fields: true exactly when the lifetime is valid, SET NX was answered with success directly and no unexpired lock existed; an error answer is returned; a refused SET NX changes nothing, and one that took effect sets a free lock with the configured lifetime |
| Processor.Redis.Handler | go-api/internal/service/processor.go:191-204 | Appends the payload under its field to the stream of the tenant that the id parses to, whatever spelling the parser accepts, unless the append failed; an unparsable id fails before any write |
| Processor.RetryOutcome | go-api/internal/service/processor.go:128-165 | The loop makes at most max calls and stops at the first success, at a cancelled pause, or after exactly max failures |
| Processor.RetryAppends | go-api/internal/service/processor.go:128-187 | What one loop appends: an entry per call that took effect, then a dead letter carrying the last attempt's error |
| Processor.RetryDeadLetter | go-api/internal/service/processor.go:128-187 | The dead letter of a loop has the entry's ids and payload and the text of the last call's error, which is the parse error or what the append reported; without calls it has no error field |
| Appends.OriginalErrorRoundTrip | go-api/internal/streams/queue.go:85-94 | A dead letter gives back the error it was written with, or none |
| Processor.RetrySleeps | go-api/internal/service/processor.go:147-162 | It pauses between calls and never after the last one |
| Processor.DeadLetterSleep | go-api/internal/service/processor.go:92-165 | The dead-letter path makes max calls and sleeps exactly base * (2^(max-1) - 1) ms |
| Processor.ExtractEnvelopeExact | go-api/internal/service/processor.go:33-78 | Extraction succeeds exactly on string ids with a string or byte payload, and yields those values |
| Processor.TenantStreamKeyInjective | go-api/internal/service/streams.go:21-23 | Different tenants never share a stream key |
| Backoff.BackoffExactIffFits | go-api/internal/service/processor.go:92-97 | The float and int64 arithmetic gives base * 2^(attempt-1) ms exactly when that many nanoseconds fit an int64 |
| Backoff.Float64Rounds | go-api/internal/service/processor.go:92-97 | The conversion to float64 rounds to the nearest value with 53 significant bits, ties to even |
| Backoff.BackoffOverflows | go-api/internal/service/processor.go:92-97 | Below 2^63 ms the nanoseconds wrap modulo 2^64, and from there on the pause vanishes |
| Backoff.TotalSleepClosedForm | go-api/internal/service/processor.go:92-97 | n failed attempts sleep base * (2^n - 1) ms in all |
| Queue.IngestStream.EnsureGroup | go-api/internal/streams/queue.go:34-42 | A new group starts after everything already in the stream; an existing one is left alone and counts as success; any other error is returned |
| Queue.IngestStream.Publish | go-api/internal/streams/queue.go:53-75 | Appends one entry with the three named fields and trims an oldest prefix, or, when it failed, nothing; keeps the partition of entries |
| Queue.IngestStream.TrimMaxLenApprox | go-api/internal/streams/queue.go:119-128 | Trims an oldest prefix and returns how many; a cap of zero or less does nothing |
| Queue.IngestStream.Read | go-api/internal/streams/queue.go:143-180 | Hands out, in order, as many of the waiting entries as the count allows (32 for a count of zero or less) and makes exactly these pending; without a group it fails |
| Queue.IngestStream.Ack | go-api/internal/streams/queue.go:184-192 | Moves exactly the ids that were pending to acked; no ids is no call |
| Queue.ClassesCoverSpan | go-api/internal/streams/queue.go:159-192 | Pending, acked and lost are disjoint and together are everything handed out or trimmed |
| Queue.BacklogAccounting | go-api/internal/streams/monitor.go:20-33 | lag + pending is published minus acked minus lost, and zero exactly when nothing published is outstanding, whatever the stream's length |
| Queue.TrimLosesNothingIff | go-api/internal/streams/queue.go:119-128 | A trim loses nothing undelivered exactly when it stops at the head |
| Admission.NeverLosesIff | go-api/internal/config/config.go:172-174 | No run loses an undelivered entry to MAXLEN if and only if the cap is off or at least high - 1 + burst + min(window, burst) + waiting (high - 1 when no request can pass); for cap = 2 * high and admission open, if and only if burst + min(window, burst) + waiting <= high + 1 |
| Admission.BacklogBounded | go-api/internal/streams/monitor.go:91-184 | Backlog plus requests in flight never exceeds high - 1 + burst + min(window, burst) + waiting, where window bounds the passes while an XINFO answer is on its way to Update |
| Admission.CapSparesUndelivered | go-api/internal/streams/queue.go:53-75 | With such a cap no trim removes an undelivered entry |
| Admission.PeakReached | go-api/internal/handler/webhooks.go:37-58 | The bound is attained |
| Monitor.QueueDepthMonitor.constructor | go-api/internal/streams/monitor.go:54-72 | Starts released, with the clamped low watermark |
| Monitor.QueueDepthMonitor.ShouldShed | go-api/internal/streams/monitor.go:82-87 | True exactly when shedding is enabled and the sample history leaves the switch on |
| Monitor.QueueDepthMonitor.Update | go-api/internal/streams/monitor.go:91-114 | Extends the sample history by one and keeps the switch in step with it |
| Monitor.QueueDepthMonitor.Poll | go-api/internal/streams/monitor.go:150-184 | Applies the group's lag + pending, or nothing on an error, a missing group or an unknown lag |
| Monitor.SampleExact | go-api/internal/streams/monitor.go:150-184 | A poll yields a sample exactly when the first group of the name has a known lag, and then its lag + pending |
| Admission.PollSamplesBacklog | go-api/internal/streams/monitor.go:150-184 | What XINFO reports of a queue is sampled as that queue's backlog, whatever other groups there are |
| Monitor.FlagIsHeldSinceHigh | go-api/internal/streams/monitor.go:91-114 | The switch is on exactly when some sample reached high and every later one stayed above low |
| Monitor.FlappingNeedsTravel | go-api/internal/streams/monitor.go:91-114 | k changes of the switch need samples whose total variation is at least (k-1) * (high - low) |
| Monitor.EqualWatermarksToggle | go-api/internal/streams/monitor.go:91-114 | With low = high a backlog equal to them toggles the switch at every sample |
| Monitor.LowWaterIsPercentage | go-api/internal/streams/monitor.go:54-72 | low is the clamped percentage of high rounded down, never above high, and below it exactly when the percentage is below 100 |
| Config.Config.ApplyProfileDefaults | go-api/internal/config/config.go:112-204 | Per setting and profile: kept unless zero, then the tier's value; a custom or unknown profile fills nothing; the cap is kept unless zero, then twice the queue depth; an unknown profile or percentage is rejected |
| Config.DefaultsFillOnlyZeros | go-api/internal/config/config.go:149-152 | Applying the defaults twice changes nothing more, and a value set by the operator is kept, and a named profile leaves no field at zero |
| Config.DerivedCapIsTwiceHigh | go-api/internal/config/config.go:112-204 | For every profile an unset cap becomes twice the high watermark and the shedder's band is proper unless the percentage is 100 |
| Webhooks.IngestWebhook | go-api/internal/handler/webhooks.go:29-78 | Which status is answered, by tenant, shedder, header and body in the order of the guards; only requests that pass them change the stream, by one entry with tenant, trimmed event id and exact body |
| Webhooks.TrimSpaceTakesAll | go-api/internal/handler/webhooks.go:45-50 | The event id has no white-space rune at its ends, and is empty exactly for a header of white space, Unicode white space included |
| Webhooks.TrimSpaceTakesSpace | go-api/internal/handler/webhooks.go:45-50 | Nothing but white space is taken off |
| Webhooks.IsSpaceIsUtf8 | go-api/internal/handler/webhooks.go:45-50 | White space is exactly the UTF-8 encodings of Unicode's white-space code points |
| FanoutSlices.DeliveryIsContiguous | go-api/internal/service/fanout.go:44-129 | In every run without a panic, what a subscriber received plus what it has buffered is, for each reader, a contiguous slice of its events from the subscription up to the first one that found the buffer full; such a miss is recorded exactly when a send met a buffer full to its capacity |
| FanoutSlices.SingleReaderDelivery | go-api/internal/service/fanout.go:83-129 | With one reader fanning out, the channel's content itself is that slice |
| FanoutSlices.SlicesStep | go-api/internal/service/fanout.go:98-129 | Every step keeps the slices, between the two phases of fanOut too |
| LiveFeed.LiveDelivery | go-api/internal/service/fanout.go:83-129 | End to end, for every interleaving of appends, trims, cursor steps, subscribers and both phases of fanOut: what a reader sent a subscriber is a contiguous slice of the stream's well-formed entries from the moment the reader's productive read was sent, not before the reader started |
| LiveFeed.LiveComplete | go-api/internal/service/fanout.go:83-129 | A subscriber that missed nothing of a reader that has fanned out all its cursor emitted has everything from its subscription up to the cursor |
| LiveFeed.LiveDeliveryHappens | go-api/internal/service/fanout.go:83-129 | A run in which an appended entry reaches a subscriber's channel |
| LiveFeed.FeedFollows | go-api/internal/service/streams.go:73-130 | Among all other steps, each reader's cursor goes through a run of the cursor machine from `$` |
| LiveFeed.SingleLiveDelivery | go-api/internal/service/fanout.go:83-129 | In every run, with one reader sending, the channel's content itself is that slice |
| EndToEnd.SubscribersGetAcceptedBodies | go-api/internal/handler/webhooks.go:52-58 | Through the work queue, the workers, the tenant's stream and the fan-out, every event in a subscriber's channel is byte for byte a body published for that tenant |
| LiveFeed.FanStep | go-api/internal/service/fanout.go:44-129 | Every fan-out step keeps each reader's events a prefix of what its cursor emitted |
| Fanout.ReaderAccounting | go-api/internal/service/fanout.go:57-128 | Exactly the subscribers in the map have open channels; a non-empty map has a live stored reader; live readers are one for a non-empty map plus one for each drop that emptied it |
| Fanout.LifecycleStep | go-api/internal/service/fanout.go:44-129 | Every step keeps the lifecycle; a step closes or sends on a closed channel exactly when it is an unsub of an id that has left the map |
| Fanout.NoPanicIffUnsubsPresent | go-api/internal/service/fanout.go:65-77 | A run never panics if and only if every unsub is called for an id still in the map |
| Fanout.PanicIffDroppedThenUnsub | go-api/internal/service/fanout.go:65-129 | A run panics exactly at an unsub that is not its subscriber's first or whose subscriber some removal phase of fanOut took out of the map, which happens only after a send met its buffer full to capacity |
| Fanout.MissedIffFoundFull | go-api/internal/service/fanout.go:98-116 | In every run, a subscriber has missed an event of a reader if and only if some send of that reader met its buffer full to capacity |
| Fanout.ReceiveMakesRoom | go-api/internal/service/fanout.go:44-79 | A client that takes an event gets the oldest one and makes room for another |
| Fanout.DroppedUnsubPanics | go-api/internal/service/fanout.go:65-129 | A run in which a dropped subscriber's only unsub panics |
| Fanout.DroppedLastLeavesReader | go-api/internal/service/fanout.go:57-128 | A run in which one subscriber is served by two live readers |
| TenantFanouts.TenantFanout.Subscribe | go-api/internal/service/fanout.go:44-79 | Adds one open channel under a fresh id and starts a reader exactly for the first subscriber, with the configured capacity or 100 |
| TenantFanouts.TenantFanout.Unsub | go-api/internal/service/fanout.go:65-77 | For every id handed out: panics exactly when the id has left the map; otherwise removes and closes one subscriber, and cancels the reader with the last |
| TenantFanouts.TenantFanout.SendTo | go-api/internal/service/fanout.go:103-113 | Appends the event when the buffer has room; otherwise leaves the buffer alone and makes the subscriber dead |
| TenantFanouts.TenantFanout.FanOutSend | go-api/internal/service/fanout.go:98-116 | Does that to every subscriber, in any order; the dead ones are exactly those whose buffer had no room |
| TenantFanouts.TenantFanout.FanOutRemove | go-api/internal/service/fanout.go:117-129 | Closes and removes exactly the full subscribers still in the map |
| TenantFanouts.SendOrderIrrelevant | go-api/internal/service/fanout.go:98-116 | Sending to any one pending subscriber first leaves the outcome of the phase the same |
| TenantFanouts.FanoutManager.GetFanout | go-api/internal/service/fanout.go:146-155 | The same object for the same tenant, never one object for two tenants |
| TenantStream.CursorRefinesStream | go-api/internal/service/streams.go:73-130 | From a concrete id, for every schedule, what is emitted is a prefix of the well-formed entries after it, in order, without gap or repeat |
| DollarStart.DollarMissesIff | go-api/internal/service/streams.go:73-130 | From `$`, for every schedule, what is emitted is the well-formed entries from the moment the productive read was sent up to the cursor; it is all of them since the start if and only if no well-formed entry was appended between the start and that read |
| DollarStart.FirstProductiveExists | go-api/internal/service/streams.go:79-127 | Every run from `$` that has emitted has such a read: the last one before the first emission |
| DollarStart.DollarNeverEmitsEarlier | go-api/internal/service/streams.go:92-101 | An entry in the stream while the cursor is at `$` and no read is out is never emitted, in any continuation |
| DollarStart.DollarCanMiss | go-api/internal/service/streams.go:92-101 | A well-formed entry appended after the start, once the first read has timed out, is emitted in no continuation |
| TenantStream.CursorStep | go-api/internal/service/streams.go:79-127 | Every step keeps what has been emitted equal to the range from the origin to the cursor, malformed entries re-read included |
| TenantStream.TenantReader.Drain | go-api/internal/service/streams.go:102-126 | The inner loop emits one event for each entry of the batch with a string or byte payload, in order, and moves the cursor to the last of them |
| TenantStream.DrainIsTakes | go-api/internal/service/streams.go:102-126 | The machine's single takes add up to what Drain does |
| TenantStream.ReadTenantHistory | go-api/internal/service/streams.go:43-69 | The descending loop returns, oldest first, one event with id and payload for each entry with a string or byte payload among the newest count |
| TenantStream.HistoryExact | go-api/internal/service/streams.go:43-69 | An event is in the history exactly when one of the newest count entries has its id and its string or byte payload; ids strictly increase |
| TenantStream.BetweenLists | go-api/internal/service/streams.go:51-66 | The events of a range are its entries with a string or byte payload, one each, in order |
| TenantStream.CatchUp | go-api/internal/service/streams.go:92-126 | One read, drained to its end, emits every such entry after the cursor |
| Auth.CredentialStore.AuthenticateViaBearer | go-api/internal/middleware/auth.go:151-172 | By session key, stored hash and Redis outcomes: a hit is accepted; otherwise accepted, unknown tenant or invalid as the hash is there and verifies; an accepted secret leaves a session unless SET failed |
| Auth.CacheAgrees | go-api/internal/middleware/auth.go:151-172 | In every run the cache accepts what the uncached check accepts, accepts otherwise only a secret sharing its short hash with one that verified, and without such a collision gives the uncached verdict |
| Auth.SessionHasOpener | go-api/internal/middleware/auth.go:158-170 | A live session was opened by an earlier request whose secret verified and has that short hash |

## Left out

- HTTP routing, WebSocket upgrade and writes, metrics, tracing, logging and process start-up: no effect on the modelled state.
- bcrypt, SHA-256, HMAC, base64, JSON: the cryptography of `Auth` is uninterpreted functions, and `authenticateViaHMAC`, admin and tenant creation are not modelled.
- UUID parsing: `Cfg.parse` is uninterpreted; it gives the canonical text of whatever spelling the library accepts.
- Redis stream ids in the ingestion stream: positions stand for them; `TenantStream` has ids.
- Redis internals: an approximate trim removes any oldest prefix that leaves at least the cap; lag counts the entries after the last delivered one; `lag` that Redis cannot compute appears only in `Monitor.Poll`.
- MAXLEN of the tenant and dead-letter streams: `Store.appends` is the history of what was appended, not what a later trim keeps. `TenantStream` has trims.
- Clock values beyond int64 nanoseconds: the lock's expiry time does not overflow in the model.
- The float64-to-int64 conversion out of range is that of amd64; Go leaves it to the platform.
- The moment of a cancellation inside a backoff pause: the sequential `ProcessMessage` does not advance the clock for it; the machine lets any time pass.
- The handler's append and its return are one step of the machine; a crash between them has the effect of an ambiguous append followed by a crash.
- Go channels are values keyed by subscriber id: handing the channel itself to the client, and its identity, are not modelled. Locks appear as the enabling condition of the steps they order.
- The capacity of the channel between a cursor and its reader: `LiveFeed` lets a cursor run ahead of its reader without bound.
- Commands sent twice, outside the worker machine: the methods of `Processor` and `Queue` and the machine of `Admission` have one append per call. In `Pipeline` a repeated append is a step of its own, a repeated publish is two publishes, and a repeated XREADGROUP is a lost read and another.
- History followed by live events: the code subscribes after it reads, so no absence of gaps is claimed.
- Several API processes: `Admission` has one process and one shedder.
- Reclaiming pending entries (XAUTOCLAIM): the code does not do it.
- ExactlyOneTerminal: promised only for runs without crash, cancellation, gate error, repeated command, dead-letter error, lock expiry, malformed entry, lost read reply, ambiguous append or trim of undelivered entries; `Losses.AckedButLost` shows why dead-letter errors are excluded.
- A poll that fails is no step of `Admission`, and one poller polls at a time.
- ExclusiveIff: a worker counts as inside from the moment the server sets its lock.
- CleanRunCanFinish: with expiring locks, for states in which no lock expires first and all tenant ids parse; a run that has to outwait a lock is not fault-free.
- SubscribersGetAcceptedBodies: for a tenant's stream written by the modelled workers only since the readers' process started.
- LiveDelivery: for runs in which no entry is trimmed from under a blocked read and no unsub panics.
- TenantStreamsHoldAcceptedBodies: for runs in which only the API writes to the ingestion stream; `AppendHasWriter` covers other writers.
