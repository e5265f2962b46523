# Verified model of the EventMind event pipeline

A Dafny model of the parts of EventMind that have to be right together: the Kafka consume loop, the
dead-letter retry loop, the handler both of them call, the stores they share, and the two read-side
mechanisms in front of the decisions table (the Redis cache and the GraphQL subscription broker).
`dafny verify dfyconfig.toml` checks everything.

## How the model is built

| layer | files | what it is |
|---|---|---|
| delivery protocol | `Kafka.dfy`, `Delivery.dfy` | A topic is a sequence of partitions, each an append-only log with a read position and a committed offset. Every step of either loop, of the producers' background delivery and of the outside world is one label; runs are arbitrary sequences of labels. The handler is an oracle. |
| its laws | `DeliverySafety.dfy`, `Conservation.dfy`, `RetryChains.dfy`, `ChainWaits.dfy`, `Termination.dfy`, `Draining.dfy` | Proved for every handler and every interleaving. |
| arithmetic | `Headers.dfy`, `Backoff.dfy` | Retry headers as decimal text (Go's `%d` scan included) and the delay in 64-bit arithmetic, with wrap-around written out. |
| the loops as code | `Loops.dfy` | `Consumer.Run` and `DLQWorker.Run` as loops over mutable objects, proved to take exactly the protocol's steps. |
| agent | `Text.dfy`, `Agent.dfy` | `extractJSON`, `Process` and the tools. |
| stores | `Storage.dfy` | The two Postgres tables with their foreign key, and the Redis keys. |
| handler | `EventHandler.dfy` | The closure of `cmd/worker/main.go` as atomic steps (two calls can be under way at once) and as a method that takes those steps in sequence. |
| whole worker | `Worker.dfy`, `Ingest.dfy`, `WorkerSafety.dfy`, `WorkerAccounts.dfy`, `DecisionRecords.dfy`, `WorkerExamples.dfy` | Protocol, handler calls of both loops, failure callback, expiring keys, crashes and the ingest endpoints in one step system. `Worker.Projects` carries every law of the delivery protocol over to it. |
| read side | `DecisionCache.dfy`, `Subscriptions.dfy` | Concurrent cached reads from REST and GraphQL; broker, forwarder and client with buffered channels. |

Faults are steps like any other: a crash (position back to the committed offset, producer buffer gone, counters
gone), a failed commit, a refused publish, a publish accepted and not delivered, a Redis error with the write
applied or not, a Redis reply that is lost so that the client repeats its command, an expiring key, a database that is down, a cancelled context during backoff.

Some fields are history and steer no step: `Record.src` (the events-topic message a record descends from), the
books of what each loop decided, the tallies per event ID, the logs of channels. The laws are stated about them.

## Where code and documentation disagree

The model follows the code.

- `internal/messaging/consumer.go:44` says "We never lose the message". The commit follows whatever became of the
  write to the dead-letter topic. A refused or undelivered write loses the message
  (`Conservation.RefusedWriteLosesMessage`), and so does a crash while the accepted write is still in the producer's
  buffer (`Conservation.CrashLosesMessage`). `Conservation.DealtWithIffACopySurvived` says for every run exactly
  when the promise holds; `Conservation.DealtWithIffNoFaultyWrite` is what it comes to without crashes.
- `README.md:214` says failed events are retried. The idempotency key is set before the first attempt
  (`cmd/worker/main.go:106`), so while it lives every retry is turned away as a duplicate and reported as a
  success. `WorkerSafety.RetryProcessesIff` says exactly when a retry processes the event;
  `WorkerExamples.RetryReportsFalseSuccess` and `WorkerExamples.ExpiryLetsRetrySucceed` are runs of both kinds, and
  `WorkerSafety.RetryCountBoundedByFaults` bounds what retries can amount to.
- `docs/architecture.md:57` promises at-least-once processing. A crash between the idempotency check and the end of
  `Process` breaks it (`WorkerExamples.CrashAfterGuardSkipsEvent`), and so does a lost reply to the check, which the
  Redis client repeats on its own (`WorkerExamples.LostReplySkipsEvent`). `WorkerAccounts.CommittedWasProcessed`
  says exactly when a committed event was processed.
- The comment on `backoff` (`internal/messaging/dlq.go:134`) promises a cap of 30 s. For large counts the product
  wraps in 64 bits (`Backoff.BackoffCanCollapse`: base 1000, count 61, no delay at all). `Backoff.PromiseKeptIff`
  gives the exact condition on the returned Duration, `Backoff.BoundedConfigIsExact` one a deployment can check.
- `docs/architecture.md:103` says the worker fills the decision cache. It does not; only the two front ends do.
- `README.md:163` says the subscription streams decisions as they are made. Nothing in the repository calls the
  broker's `Publish`; what is proved is what happens when somebody does.
- REST and GraphQL share the key `em:dec:<id>` but write different JSON under it. `DecisionCache.SharedKeysHarmlessIff`
  says when that would be harmless, `DecisionCache.RepositoryTextsClash` that here it is so for no decision.

## Model

| member | source | states |
|---|---|---|
| DeliverySafety.CommittedWasDisposed | internal/messaging/consumer.go:45-96 | Committed-prefix safety, both topics, every run with crashes, failed and overtaking commits and cancelled backoff: each offset below the committed one was decided on, the recorded decision fits the message (skipped only if it does not parse, given up only at the limit), and the committed offset never passes the position |
| DeliverySafety.InvAlways | internal/messaging/consumer.go:92-96 | Committed offsets never move back along any run, whatever crashes and rereads happen; the protocol invariant holds throughout |
| DeliverySafety.DlqProvenance | internal/messaging/dlq.go:80-130 | Every dead-letter message has key and value of an events-topic message, parses, keeps original-topic and failed-at, carries one retry-count between 0 and the limit; so the parse-discard branch is dead and the shift in backoff never negative |
| DeliverySafety.HandoverProvenance | internal/messaging/consumer.go:82-90 | A message handed over by the main loop keeps key and value, starts its chain at count 0, read back through decimal text, and carries the handler's error, its topic and the time under their names, in four headers |
| DeliverySafety.RequeueProvenance | internal/messaging/dlq.go:116-123 | A re-queued message keeps its provenance and its other headers, carries the new error and time under their names, and the next read sees exactly one more than the last |
| DeliverySafety.RetryBranches | internal/messaging/dlq.go:108-113 | In every state satisfying the invariant the discard branch is disabled and a wait happens only at counts from 0 to the limit |
| Conservation.Conserved | internal/messaging/consumer.go:71-78 | Conservation under all faults: message plus restart duplicates equals waiting plus finished plus lost to a named fault, per message |
| Conservation.FailuresConserved | internal/messaging/dlq.go:82-130 | What the main loop handed to the dead-letter queue, plus rereads, equals in the buffer, pending, in hand, recovered, given up and lost |
| Conservation.DealtWithIffACopySurvived | internal/messaging/consumer.go:73-78 | The promise "never lose" made exact, for every run with every fault: a message no longer waiting was dealt with if and only if fewer copies were lost (write refused, write undelivered, buffer of a dead process) than there were, itself and those restarts added; each surviving copy was dealt with once |
| Conservation.RefusedWriteLosesMessage | internal/messaging/consumer.go:44-78 | A five-step run in which the message is committed, waits nowhere and was never dealt with |
| Conservation.CrashLosesMessage | internal/messaging/producer.go:70-78 | A six-step run without a faulty write: accepted, committed, and lost with the producer's buffer in a crash |
| RetryChains.ChainRefinesSequential | internal/messaging/dlq.go:80-130 | Crash-free runs, any interleaving, any outcomes: a settled message got exactly the calls and the verdict of a simple sequential retry, and the failure callback ran once if all failed and never otherwise |
| RetryChains.ChainIsOnTrack | internal/messaging/consumer.go:71-78 | At any earlier moment the calls made are a beginning of the sequential retry's, and the callback ran at most once |
| RetryChains.CountIsCallsSoFar | internal/messaging/dlq.go:120-123 | The counts of a chain run 0, 1, 2, ... in order: a copy waiting for its retry carries the number of calls made so far less one, all failures |
| RetryChains.SequentialStops | internal/messaging/dlq.go:61-62 | The reference retry stops at the first success or after limit + 1 failures |
| Termination.ReadsAreBounded | internal/messaging/dlq.go:63-132 | Without crashes N ingested events cause at most N * (limit + 2) reads over both loops, whatever the handler does |
| Termination.WorkStep | internal/messaging/consumer.go:45-80 | Each read uses up one unit of a measure that, crashes apart, only a new event raises |
| Draining.StepsAreBounded | internal/messaging/dlq.go:63-132 | Without crashes N ingested events cause at most 6 * N * (limit + 2) steps of loops and producers in all |
| Draining.Progress | internal/messaging/consumer.go:45-80 | As long as anything is unread, in hand or in a buffer, and the retry loop is not cancelled, some step can be taken |
| Draining.EventsDrain | internal/messaging/dlq.go:63-132 | A crash-free run that can go no further leaves nothing waiting: each message was finished once, or lost to one refused or undelivered write |
| Headers.ReadHeaderInt | internal/messaging/producer.go:111-121 | The loop returns the scanned value of the first header of that name, 0 when missing or unreadable, always a 64-bit int |
| Headers.RebuildHeaders | internal/messaging/producer.go:123-139 | The loop computes the merge: other headers in order, then count, error and time |
| Headers.ScanUndoesFormat | internal/messaging/producer.go:115-117 | Printing and scanning a decimal are inverse on every 64-bit int |
| Headers.RetryCountRoundTrip | internal/messaging/producer.go:112-139 | Reading the count after a merge gives the count merged, whatever headers and stale counts the message had |
| Headers.MergeRecords | internal/messaging/producer.go:134-138 | After a merge the count in decimal, the error and the time are found each under its own name |
| Headers.MergeAbsorbs | internal/messaging/producer.go:124-139 | A second merge absorbs the first |
| Headers.MergeShape | internal/messaging/producer.go:124-139 | After one merge each control header occurs once, the others keep value, order and number, and no later merge changes the length |
| Headers.KeptFilters | internal/messaging/producer.go:126-133 | Filtering drops the three control headers and nothing else |
| Backoff.PromiseKeptIff | internal/messaging/dlq.go:134-141 | With the promise defined directly as min(base * 2^r, 30 s): the returned Duration keeps it if and only if the product fits 63 bits, or its truncation to 64 bits is positive and at or above the cap, or that is negative and congruent to the cap modulo 2^58 |
| Backoff.DelayWithoutOverflow | internal/messaging/dlq.go:135-141 | Whenever base * 2^r is below 2^63 the Duration is base * 2^r ms, or 30 s where that is less |
| Backoff.DefaultSchedule | internal/messaging/dlq.go:60 | The default base gives 1, 2, 4, 8 and 16 s |
| Backoff.SecondTruncationRepairs | internal/messaging/dlq.go:136-140 | With base 2^62 + 15000 and count 1 the milliseconds are negative and the Duration is 30 s all the same |
| Backoff.MachineProduct | internal/messaging/dlq.go:136 | Shifting first and multiplying after truncates like the true product |
| Backoff.BackoffCanCollapse | internal/messaging/dlq.go:135-141 | With base 1000 and count 61 the delay is 0 |
| Backoff.BoundedConfigIsExact | internal/messaging/dlq.go:135-141 | With base * 2^(limit - 1) below 2^63 every delay is the promised one, in milliseconds and as a Duration |
| Backoff.DelayMonotone | internal/messaging/dlq.go:134-141 | Under that bound later retries never wait less, and never more than 30 s |
| ChainWaits.ChainWaitsBySchedule | internal/messaging/dlq.go:92-106 | In every crash-free run the time waited for a message is exactly the first delays of the schedule, one per retry made or due, at most limit of them |
| ChainWaits.ChainWaitBound | internal/messaging/dlq.go:134-141 | Under the configuration bound that is at most min(base * (2^limit - 1) ms, 30 s * limit) |
| Backoff.TotalWaitUncapped | internal/messaging/dlq.go:92-106 | While no delay is capped n waits add up to base * (2^n - 1) ms exactly |
| Loops.Consumer.Run | internal/messaging/consumer.go:45-80 | Every turn with a message, field by field: position one further; one handler call if and only if it parses; fate skipped, handled or published; on failure one record more in the buffer, or one refusal, with key, value, count 0 and error; offset committed if and only if the broker stores it, whatever else happened. The turns together are protocol steps |
| Loops.Consumer.Handle | internal/messaging/consumer.go:62-78 | The same for one message |
| Loops.Consumer.ToDlq | internal/messaging/consumer.go:82-90 | One call is the protocol's hand-over step: four headers, same key and value |
| Loops.Consumer.Commit | internal/messaging/consumer.go:92-96 | One call is the protocol's commit step: the offset after the message, or no change when it fails |
| Loops.Cluster.Produce | internal/messaging/producer.go:70-78 | Queues the message or reports that it was refused |
| Loops.DLQWorker.Run | internal/messaging/dlq.go:63-132 | Every turn with a message, field by field: given up exactly at the limit; below it, unless cancelled, one handler call; fate handled or published, on failure one record more with count one higher, or one refusal; offset committed if and only if the broker stores it and the wait was not cancelled. The turns are protocol steps, the Durations are slept (a negative one not at all), the invariant is kept and the shift never negative |
| Loops.DLQWorker.Handle | internal/messaging/dlq.go:80-130 | The same for one message, with the time slept |
| Loops.EveryTurn | internal/messaging/dlq.go:63-132 | The list of states `Run` leaves behind has every turn of the script, each with the effects above |
| Loops.DLQWorker.Requeue | internal/messaging/dlq.go:116-126 | One call is the protocol's re-queue step with the merged headers |
| Loops.DLQWorker.Commit | internal/messaging/dlq.go:143-147 | One call is the protocol's commit step on the dead-letter topic |
| Loops.MainIsARun | internal/messaging/consumer.go:45-80 | What the main loop does is a run of the protocol, so all its laws apply |
| Loops.RetryIsARun | internal/messaging/dlq.go:63-132 | What the retry loop does is a run of the protocol |
| Loops.WaitsAsDocumented | internal/messaging/dlq.go:58-106 | In every reachable state, under the configuration bound, the wait is base * 2^count capped at 30 s and survives the conversion to a Duration |
| Loops.ScriptWaitBounded | internal/messaging/dlq.go:92-106 | Under the bound the loop sleeps at most 30 s per message |
| Text.ExtractIdempotent | internal/agent/agent.go:137-145 | extractJSON is idempotent on every string |
| Text.ExtractFindsObject | internal/agent/agent.go:135-145 | An object between any prefix without { and suffix without } comes out exactly |
| Text.ExtractShape | internal/agent/agent.go:141-144 | The result is an object text if and only if the trimmed input has a { with a } after it, and the trimmed input otherwise |
| Text.ExtractIsAStretch | internal/agent/agent.go:137-145 | The result is a contiguous part of the input |
| Text.TrimSpaceStrips | internal/agent/agent.go:138 | Trimming takes white space off both ends, all of it and nothing else |
| Agent.Agent.Process | internal/agent/agent.go:47-99 | The method computes the decision and error that the specification assigns to the model's answer |
| Agent.FailuresRecorded | internal/agent/agent.go:59-115 | A call that ends in an error records no success, status failed and no action, keeps event ID and type, prompt and the model's text, and the error text agrees with the error returned |
| Agent.SuccessesRecorded | internal/agent/agent.go:67-98 | A call that succeeds records action and reasoning of the reply, prompt, the model's text, event ID and type, and the times |
| Agent.TruncateKeeps | internal/agent/agent.go:147-152 | A short text is kept whole, a long one cut after n characters and marked |
| Agent.Classified | internal/agent/agent.go:59-115 | For every answer and payload: no error, success, status completed and a recorded valid action are one and the same, and hold exactly when the answer names one of the five actions; failed with nil error cannot happen |
| Agent.ToolsSucceed | internal/agent/tools.go:18-103 | A tool succeeds if and only if the action is valid, and reports the action it was asked for |
| Agent.WrappedAnswer | internal/agent/agent.go:135-145 | Prose or a code fence around the object does not change the classification |
| Storage.PGStore.SaveEvent | internal/storage/postgres.go:83-91 | Insert or ignore: a new event is stored as it is, a known one and everything else stay |
| Storage.PGStore.SaveDecision | internal/storage/postgres.go:93-105 | Inserted if and only if the database is up, the ID unused and the event row there, and then exactly that row is added; otherwise refused, by outage, used ID or foreign key in this order |
| Storage.EventsSeeWrites | internal/storage/postgres.go:83-91 | After a save the event is there, in its first form, and no other row changed |
| Storage.ReadsSeeWrites | internal/storage/postgres.go:93-109 | An inserted decision is found under its ID, a refused one leaves no trace, no insert changes another row, and a row once read reads the same ever after |
| Storage.Cache.Seen | internal/cache/redis.go:35-44 | First caller wins; an error leaves the key set or not; a call whose reply is lost and that the client repeats finds its own key |
| Storage.Cache.CacheDecision | internal/cache/redis.go:46-49 | Overwrites the blob of an ID, or fails and changes nothing |
| Storage.BlobsSeeWrites | internal/cache/redis.go:46-58 | A reader finds the last blob written under an ID, a miss once it expired, and no trace of writes and expiries of other IDs |
| EventHandler.Handler.Handle | cmd/worker/main.go:100-144 | One uninterrupted call, field by field: turned away it changes no row and no counter; let through it succeeds if and only if the answer names a valid action, stores the decision made if the database is up, the ID unused and the event row there, and counts event type and action under the right labels; and it takes exactly the handler's atomic steps |
| EventHandler.UninterruptedCall | cmd/worker/main.go:100-144 | The atomic steps of a call, one after the other, add up to that closed form |
| EventHandler.ClaimsBalanceStep | cmd/worker/main.go:106-114 | With two calls interleaved, every call let through has returned from Process, was cut off, or is under way |
| EventHandler.Handler.PermanentlyFailed | cmd/worker/main.go:79-98 | The failure callback counts one permanent failure and stores, if it can be stored, a row without success and action, with status permanently_failed and error "max retries exceeded"; text that does not parse changes nothing |
| EventHandler.GuardHoldsStep | cmd/worker/main.go:106-114 | With two calls interleaved, each call of Process is paid for by the key, an expiry or a failed check |
| EventHandler.KeysAccountedStep | cmd/worker/main.go:106-114 | With two calls interleaved, a key or a returning call stands for an event that was processed, is being processed or was cut off |
| EventHandler.FailuresAgreeStep | cmd/worker/main.go:121-142 | With two calls interleaved, failures and DLQ events of a type differ by exactly what the calls under way still owe |
| EventHandler.TotalsAgreeStep | cmd/worker/main.go:121-142 | The same for successes against actions and for all outcomes against Process calls |
| EventHandler.LabelsAgreeStep | cmd/worker/main.go:121-142 | The same label by label: each counter is what the Process calls came to for that event type or action |
| Worker.Projects | cmd/worker/main.go:165-167 | Every run of the worker, both loops and the real handler interleaved, is a run of the delivery protocol |
| Worker.WholeCallRuns | cmd/worker/main.go:165-167 | A call of the handler about the loop's message, from either loop, is a run of the worker with the result of the call |
| WorkerSafety.ProcessingIsBounded | cmd/worker/main.go:106-114 | Calls of Process for one ID are at most 1 + expiries + failed checks of its key, over both loops, redelivery and duplicates |
| WorkerSafety.RetryCountBoundedByFaults | internal/messaging/dlq.go:80-130 | A dead-letter message of x has a retry count of at most the expiries plus failed checks of the key of x |
| WorkerSafety.GivingUpNeedsFaults | internal/messaging/dlq.go:82-90 | The failure callback for x takes at least as many faults of its key as the retry limit |
| WorkerSafety.RetrySucceedsOnlyAfterFault | cmd/worker/main.go:106-112 | An event with a dead-letter message failed at least once, and succeeds only after a fault of its key |
| WorkerSafety.RetryTurnedAway | internal/cache/redis.go:37-44 | Without a fault such an event was processed once and failed, is never re-queued or given up on, and every further call for it is turned away as a duplicate |
| WorkerSafety.RetryProcessesIff | internal/messaging/dlq.go:108-128 | In every reachable state about to call the handler for a retry, whatever the outside answers: the event is processed if and only if the check fails, or goes well and finds no key; otherwise nothing is done and the retry is reported as a success; and without an earlier expiry or failed check the key is there |
| WorkerSafety.ReturnReports | internal/messaging/dlq.go:115-128 | In either loop a nil result deals with the message as handled and an error sends it, with that error, towards the dead-letter topic |
| WorkerSafety.LocatedStep | cmd/worker/main.go:165-167 | A call under way works on the event of the message its loop holds, and its decision agrees with its error, whatever the other loop does |
| WorkerAccounts.CommittedWasProcessed | internal/messaging/consumer.go:71-78 | At least once, exactly: for a committed event some call was let through by the check, or blocked by its own repeated check, and it was processed or is being processed if and only if not every call let through was cut off by a crash |
| WorkerAccounts.CountersConserved | cmd/worker/main.go:114-143 | Whenever no call is under way, for every label: successes and failures by event type and actions by name are those of the Process calls since the start, failures equal DLQ events; in all successes equal actions, and both together the calls that returned |
| DecisionRecords.RowsAreSaves | cmd/worker/main.go:116-119 | In every run an event has exactly as many decision rows as there were saves for it that met no outage, used ID or missing event row |
| DecisionRecords.RowsAreTrue | cmd/worker/main.go:84-119 | In every run each row tells the truth: completed rows belong to events Process succeeded on, failed ones to events it failed on, permanently_failed ones to events given up on, with matching success, error and action |
| WorkerAccounts.NoForeignKeyViolation | internal/storage/postgres.go:27-29 | If everything entered through the ingest endpoints, every message in either topic has its event row and the foreign key never refused a decision of the handler or of the failure callback |
| WorkerAccounts.RowsStep | api/rest/handlers.go:75-86 | Saving before publishing keeps rows ahead of messages at every step, through publish failures and crashes |
| WorkerExamples.RetryReportsFalseSuccess | cmd/worker/main.go:106-114 | A run in which the retry, whatever the model would answer, is turned away, reported as success and committed, and nothing was recorded for the event, which another program published without saving it |
| WorkerExamples.ExpiryLetsRetrySucceed | internal/cache/redis.go:37-44 | A run in which the key expires first, and the retry processes the event and succeeds |
| WorkerExamples.LostReplySkipsEvent | internal/cache/redis.go:37-44 | A run without error or crash in which the event is blocked by its own repeated check: committed, never processed |
| WorkerExamples.CrashAfterGuardSkipsEvent | cmd/worker/main.go:106-114 | A run in which a crash after the check makes the redelivered message a duplicate: committed, never processed |
| Ingest.Endpoint.IngestEvent | api/graphql/schema.resolvers.go:23-50 | One request takes exactly the model's steps: reject, or save and then publish; it succeeds if and only if type and payload are valid and the save worked, published or not |
| Ingest.SavedAndSent | api/rest/handlers.go:75-88 | Saving and publishing leave the row and, if the client took it, the message |
| Ingest.DeliveredOnce | internal/messaging/producer.go:58-68 | Delivery moves a sent message from the producer to the end of one partition of the events topic, once |
| DecisionCache.OneFrontEndSeesTheDatabase | api/rest/handlers.go:113-139 | With one front end, under every interleaving of inserts, reads, expiry and Redis errors, every answer is the uncached lookup and every blob the encoding of its row |
| DecisionCache.AnswersShowRows | api/graphql/schema.resolvers.go:182-198 | And every answer with content shows the row asked for: for GraphQL field by field, the error only if there is one |
| DecisionCache.MixedAnswers | api/graphql/schema.resolvers.go:81-102 | With both front ends every answer still comes from the one row of that ID, in one of the two encodings |
| DecisionCache.SharedKeysHarmlessIff | internal/cache/redis.go:46-58 | All answers of all mixed runs are right if and only if the two encodings agree on every decision |
| DecisionCache.IncompatibleRowShows | api/graphql/schema.resolvers.go:82-87 | A row the front ends encode differently gives a reader a wrong answer in some run |
| DecisionCache.RepositoryTextsClash | internal/agent/agent.go:17-32 | With the first keys the two Go types get in JSON, every decision is incompatible: once GraphQL filled the cache, REST answers with the GraphQL text |
| DecisionCache.InsertInv | internal/storage/postgres.go:93-105 | A row inserted later contradicts no blob and no answer |
| DecisionCache.FrontEnds.GetDecision | api/rest/handlers.go:113-139 | The REST read: a blob that is there is the answer; otherwise the row's text, put in the cache as well, or not found, or failed; and it takes exactly the model's steps |
| DecisionCache.FrontEnds.Decision | api/graphql/schema.resolvers.go:81-102 | The GraphQL read: a blob that decodes is the answer; otherwise the row's fields, put in the cache as well, or not found, or failed; and it takes exactly the model's steps |
| Subscriptions.NeverPanics | api/graphql/resolver.go:52-71 | Under every interleaving nothing is sent on a closed channel, no channel is closed twice, and the forwarder never finds its channel closed |
| Subscriptions.ChannelsAreFifo | api/graphql/resolver.go:62-71 | Each subscriber's received and buffered values are, in order, sends offered to it; at most 16 are buffered and one is skipped exactly when 16 are |
| Subscriptions.EveryPublishIsOffered | api/graphql/resolver.go:62-71 | When no Publish is under way every subscriber was offered every value published while it was subscribed, as often as it was published |
| Subscriptions.ClientReceivesInOrder | api/graphql/schema.resolvers.go:137-159 | A client receives an ordered part of the decisions offered to it, and at most 33 of those its channel took are under way |
| Subscriptions.ThirtyThreeAreReached | api/graphql/schema.resolvers.go:140-154 | A client that does not read reaches 33, and then loses values |
| Subscriptions.Broker.Subscribe | api/graphql/resolver.go:43-50 | A new open channel under the new ID, the others untouched |
| Subscriptions.Broker.Unsubscribe | api/graphql/resolver.go:52-59 | Closes the channel of a known ID and forgets it; otherwise nothing |
| Subscriptions.Broker.Publish | api/graphql/resolver.go:61-71 | Whatever the order, every channel is offered the value once and none waits |
| Subscriptions.Forwarder.Pass | api/graphql/schema.resolvers.go:147-154 | One turn that found a value: decisions go on in order, other values are dropped |
| Subscriptions.Forwarder.Leave | api/graphql/schema.resolvers.go:142-146 | The deferred calls: out is closed, then the subscription ends |
| Subscriptions.PassIsSteps | api/graphql/schema.resolvers.go:144-157 | Such a turn is the step system's take and hand |

## Left out

- Kafka, Redis, Postgres, MongoDB and the model providers are present by contract only: append log and committed offset, SET NX with expiry, insert or ignore, foreign key, an arbitrary answer or error. MongoDB saves have no effect on the worker's control flow.
- JSON is left open: a partial parse function for events, a reply decoder, encoders for cached decisions. Assumed only that an accepted event written by the ingest endpoints reads back with its ID, and that a GraphQL model written to the cache reads back unchanged and is not empty text. `DecisionCache.RepositoryTextsClash` also assumes the first key of each text; the generated model type (`api/graphql/model`) is not part of this model.
- The order of the producer's own retries: librdkafka without idempotence may write a message twice after a network error; here a write is delivered once, reported undelivered, or lost with the process.
- Consumer-group rebalancing between replicas: one instance per group, with crash and restart.
- Log retention: logs only grow.
- Read errors of the consumers count as timeouts; a worker without a failure callback (`onFailed` nil) is not modelled, `cmd/worker/main.go` always sets one.
- Loops.Consumer.Run: runs alone over the shared cluster object, with the outside's answers given as a script; the interleaving with the other loop is in the step system, whose steps the loop is proved to take. A single Go statement is the unit of interleaving.
- Loops.DLQWorker.Run: the same; its context is cancelled when the script ends or where the script says so.
- Subscriptions.Forwarder.Pass: a turn that would wait in `out <- d` is not a call of this method; waiting is in the step system, where the hand-over is disabled until the client reads. Whether a forwarder whose client is gone ever ends is not claimed: `out <- d` ignores cancellation.
- WorkerSafety.RetryTurnedAway: speaks of keys that live; how long 24 hours are is not modelled, expiry may happen at any time.
- WorkerAccounts.NoForeignKeyViolation: excludes programs that publish without saving, such as `scripts/seed.go:45`; `WorkerExamples.RetryReportsFalseSuccess` shows what happens to their events.
- Text is characters, not bytes: `truncateStr` cuts after 200 characters, and `extractJSON` is modelled on characters.
- Prompt text, `%q` quoting and the fields the tools read out of payloads are left open functions.
- Listings and paging (no tie-break in the SQL order, so pages need not fit together), `clamp`, `max0`, `Decision.RetryCount` (never set by the worker).
- Logging, metrics other than the worker's counters, middleware, startup, configuration, deployment files.
