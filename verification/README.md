# Message processing, outbox, encoding and account creation: a verified model

This project models four stateful parts of the service and proves what they promise.

**The dead-letter consumer.** `DlqConsumer` is one flush (handle, save the failures with retries, finalize) as a class
over a journal of calls to the handler, the store and the session. `ClaimMode` is the buffering and the claim loop,
with the Go timer as an object and the `select` statement as a schedule of inputs. `FlushProperties`,
`DeadLetterSaves`, `ClaimProperties` and `FlushTriggers` hold what one flush and one claim do, and when. `DlqProtocol`
is the protocol of a partition over whole runs, with broker appends, commits at any moment and restarts from the
committed offset; `ConsumerRefinement` shows that everything the loop does is a run of it, and `GroupLife` that any
number of sessions is, with the broker's appends and commits in between.

**The transactional outbox.** `OutboxRepository` is the table and its statements, `OutboxQuery` how its query is
answered, `OutboxWorker` one iteration, `OutboxProtocol` any number of workers interleaving on one clock,
`OutboxRecords` what a row's columns and the waiting times are in all its states, `OutboxLease` the runs in which no
worker holds a claim for five minutes, `OutboxRevival` when a sent row stays sent without that, `OutboxRefinement` the
proof that an iteration is a path of the protocol, and a run in which a slow worker revives a sent row.

**The Avro encoder.** `AvroBinary` is the reader and writer of the section "Binary Encoding" of the Apache Avro 1.11
specification, `UserCreatedEncoder` the encoder with its shifts, xor and cached schema id.

**Accounts.** `AccountStore` holds the tables with their keys and references, `AuthService` and `VkUsers` the three
doors that create accounts, `AccountDoors` what a call does and when it succeeds, `AccountInvariants` what every run
keeps, `AccountPersistence` what later states keep of a call that succeeded, `AccountAnswers` every answer and every
stored text, `AccountWitnesses` calls that fail. `TransactionManager` is the execution of a transaction that the
outbox and the accounts share; `Text` is normalising.

Answers of handlers, stores, queries, statements, commits, publishers, clocks and the schema registry are oracles: an
`Env`, a `View` or an action carries them, and every theorem holds for all of them unless it says otherwise. The
imperative Go code is imperative here too; each method's contract ties its result and the new state to a function, and
the theorems are about that function.

Two promises are false of the code, and are stated with the exact condition under which they hold:

- Without a dead-letter store, marking stays behind failures only within one flush, because the set of blocked
  partitions is made anew for each flush (`FlushProperties.StaysBehindFailuresIff`,
  `FlushProperties.MarksPastFailureAcrossFlushes`).
- A sent row may be failed again, because the marks update by primary key without looking at the status. It stays sent
  for good if and only if no worker still holds a claim of it other than as the message it has just delivered
  (`OutboxRevival.SentIsFinalIff`); a run that keeps the lease never has such a claim (`OutboxRevival.LeaseSettles`),
  and without it a run revives a sent row (`OutboxRefinement.SlowWorkerRevivesSentRow`).

Four smaller ones, with a concrete input each in `AccountWitnesses`:

- A login with an `@` does not log its owner in (`AccountPersistence.LoginPersistsIff`). Nothing excludes such a login.
- A Yandex profile is not linked to an account created at the call's own clock reading (`AccountDoors.YandexLinksIff`).
- An email without an `@` does not log its owner in (`AccountPersistence.LoginPersistsIff`). The present callers exclude
  it: internal/adapters/primary/proto/auth/v1/auth.proto:42 asks for a valid email, and the interceptor validates every
  request (internal/adapters/primary/grpc/auth/interceptor.go:100).
- A Yandex subject with blanks around it is stored trimmed and looked up as it comes
  (`AccountPersistence.YandexLoginPersistsIff`). The present client trims it
  (internal/adapters/secondary/yandexid/client.go:120).

## Model

| member | source | states |
|---|---|---|
| DlqConsumer.Consumer.ProcessMessage | pkg/adapters/kafka/consumer/dql/base_consumer_group_of_topic.go:188-237 | Counts the message as received whatever happens; a message object that cannot be created is an error and not a result; a failure, and only a failure, comes with a new dead-letter object for that message. |
| DlqConsumer.Consumer.RunDlqSaveWithRetry | pkg/adapters/kafka/consumer/dql/base_consumer_group_of_topic.go:307-345 | Attempts 1, 2, ... up to the configured retries (at least one) until the store accepts or the context is done; the objects carry the number of the last attempt made. |
| DlqConsumer.RetrySucceedsIff | pkg/adapters/kafka/consumer/dql/base_consumer_group_of_topic.go:312-344 | The save succeeds exactly if some attempt within the limit is accepted and every earlier one failed with the context alive; the last attempt made is the deciding one. |
| DlqConsumer.SaveRunWrites | pkg/adapters/kafka/consumer/dql/base_consumer_group_of_topic.go:318-344 | One save with its retries stores all its messages once, or none. |
| DlqConsumer.Consumer.PersistFailedBatch | pkg/adapters/kafka/consumer/dql/base_consumer_group_of_topic.go:258-305 | Nothing to do without failures or without a store; the batch saver saves all in one call, the sequential one each in order up to the first error; the write counter grows by exactly the messages stored. |
| DlqConsumer.Consumer.PersistSequentially | pkg/adapters/kafka/consumer/dql/base_consumer_group_of_topic.go:287-297 | The loop of the sequential saver against its function, with the counter equal to what was stored even when it stops early. |
| DlqConsumer.Consumer.FinalizeMessage | pkg/adapters/kafka/consumer/dql/base_consumer_group_of_topic.go:380-454 | Marks a success on a partition that is not blocked, and a failure only with the store on; a failure that is not marked blocks its partition; exactly the counter of the status grows. |
| DlqConsumer.Consumer.ProcessBatch | pkg/adapters/kafka/consumer/dql/base_consumer_group_of_topic.go:160-186 | The journal grows by the flush function's events, the counters become the counter function's, the error is its error: handling, then saving, then marking, and no mark after an error. |
| FlushProperties.SafePrefixMarking | pkg/adapters/kafka/consumer/dql/base_consumer_group_of_topic.go:180-183 | For any interleaving of partitions the marks on each are exactly all its messages with a store, and exactly its longest failure-free prefix without one. |
| FlushProperties.MarkedIffBeforeFailure | pkg/adapters/kafka/consumer/dql/base_consumer_group_of_topic.go:389-451 | Without a store a message of a one-partition flush is marked if and only if it stands before the first failure. |
| FlushProperties.StaysBehindFailuresIff | pkg/adapters/kafka/consumer/dql/base_consumer_group_of_topic.go:180-183 | Without a store, over any flushes of a partition, no mark passes a failure if and only if every flush after one with a failure is empty or begins with a failure. |
| FlushProperties.MarksPastFailureAcrossFlushes | pkg/adapters/kafka/consumer/dql/base_consumer_group_of_topic.go:180-183 | Two flushes of one partition, in offset order, that the condition rules out: a later success is marked past an earlier failure. |
| FlushProperties.PersistWrites | pkg/adapters/kafka/consumer/dql/base_consumer_group_of_topic.go:258-305 | A save step without an error stored every failure of the flush in order; a failed batch save stored nothing. |
| FlushProperties.CounterConservation | pkg/adapters/kafka/consumer/dql/base_consumer_group_of_topic.go:188-192 | Over any flushes, received minus finished grows by what the erring flushes took in, and dead-letter writes equal the failed total plus what erring flushes had written, which is nothing with the batch saver. |
| DeadLetterSaves.BatchSaveAttempts | pkg/adapters/kafka/consumer/dql/base_consumer_group_of_topic.go:276-285 | With the batch saver the failures are offered together in attempts 1, 2, ... up to the configured retries, at least one; the save succeeds if and only if one is accepted and each before failed with the context alive; all of them are made when all fail so. |
| DeadLetterSaves.SequentialSaveAttempts | pkg/adapters/kafka/consumer/dql/base_consumer_group_of_topic.go:287-297 | With the sequential saver each failure is offered by itself as often, the next only after it was accepted; the save succeeds if and only if each of them is. |
| DeadLetterSaves.FlushAnswers | pkg/adapters/kafka/consumer/dql/base_consumer_group_of_topic.go:160-186 | A flush calls the handler for its messages in order up to the first that cannot be created, which is its error; otherwise its error is that of the save, and only without one does it mark. |
| DeadLetterSaves.CountersCountCalls | pkg/adapters/kafka/consumer/dql/base_consumer_group_of_topic.go:389-434 | A flush without an error counts each handler call under that call's own status; any flush counts what it took in and what the store took. |
| ClaimMode.GoTimer.Elapse | pkg/adapters/kafka/consumer/dql/claim_mode.go:123-150 | A due timer leaves one tick in its channel of one place and is no longer running. |
| ClaimMode.BatchClaimMode.HandleMessage | pkg/adapters/kafka/consumer/dql/claim_mode.go:74-84 | Appends; only the first message of a buffer restarts the timer; a full buffer is flushed at once; the consumer's journal grows by that flush. |
| ClaimMode.BatchClaimMode.HandleFlush | pkg/adapters/kafka/consumer/dql/claim_mode.go:86-109 | An empty buffer is no flush; after an error the buffer and the timer are left alone; after a success both are cleared. |
| ClaimMode.BatchClaimMode.ResetTimer | pkg/adapters/kafka/consumer/dql/claim_mode.go:123-138 | With a positive timeout the timer then runs to now plus the timeout, and a tick of an expired timer is drained first. |
| ClaimMode.BatchClaimMode.StopTimer | pkg/adapters/kafka/consumer/dql/claim_mode.go:140-150 | The timer is stopped, and drained if it had expired; the buffer stays. |
| ClaimMode.TakeBranch | pkg/adapters/kafka/consumer/dql/base_consumer_group_of_topic.go:93-115 | One pass of the batched loop, every branch, against the schedule function's step. |
| ClaimMode.TakeMessage | pkg/adapters/kafka/consumer/dql/base_consumer_group_of_topic.go:95-104 | The message branch: an error stops the timer and returns. |
| ClaimMode.TakeTick | pkg/adapters/kafka/consumer/dql/base_consumer_group_of_topic.go:105-108 | The timer branch: it takes the tick out of the channel and flushes; without a tick it cannot be taken. |
| ClaimMode.TakeEnd | pkg/adapters/kafka/consumer/dql/base_consumer_group_of_topic.go:96-113 | Closing and cancellation flush first; cancellation commits after a flush without error; both stop the timer and return. |
| ClaimMode.TakeSingleBranch | pkg/adapters/kafka/consumer/dql/claim_mode.go:11-31 | One pass of the unbatched loop: each message is a flush of its own, the flush branches do nothing, no tick can come. |
| ClaimMode.ConsumeClaim | pkg/adapters/kafka/consumer/dql/base_consumer_group_of_topic.go:87-136 | The loop on the objects does, on any schedule, what the schedule function says, in the mode the settings choose. |
| ClaimProperties.BufferConservation | pkg/adapters/kafka/consumer/dql/claim_mode.go:74-109 | On any schedule without an error: flushed batches in order followed by the buffer are the arrivals in order, every batch has 1 to batchSize messages, the buffer is shorter than batchSize. |
| ClaimProperties.TimerDiscipline | pkg/adapters/kafka/consumer/dql/claim_mode.go:106-150 | The only deadline or tick there is belongs to the arrival of the oldest buffered message plus the timeout; an empty buffer has neither. |
| ClaimProperties.TickMeansDue | pkg/adapters/kafka/consumer/dql/claim_mode.go:111-117 | When the tick branch can be taken, the current buffer opened earlier on the schedule and the clock has since passed that buffer's own deadline. |
| FlushTriggers.ArrivalFlushesIff | pkg/adapters/kafka/consumer/dql/claim_mode.go:74-84 | At any point of any schedule a message is only buffered while the buffer stays below the configured size, and otherwise flushed at once with the whole buffer, a batch of exactly that size; without batching the size is one. |
| FlushTriggers.TickFlushesIff | pkg/adapters/kafka/consumer/dql/claim_mode.go:86-117 | With a tick the timer branch flushes the whole buffer, without one it cannot be taken. |
| FlushTriggers.TickComesIff | pkg/adapters/kafka/consumer/dql/claim_mode.go:123-138 | A tick appears if and only if the clock reaches the arrival of the message that opened the buffer plus the timeout; never without a timeout or with an empty buffer. |
| FlushTriggers.EndFlushesIff | pkg/adapters/kafka/consumer/dql/base_consumer_group_of_topic.go:96-113 | Closing and cancellation flush what is buffered and end without an error unless that flush has one; only cancellation commits, and only after a flush without an error. |
| FlushTriggers.EndedClaimHasNoTimer | pkg/adapters/kafka/consumer/dql/base_consumer_group_of_topic.go:91 | However a claim ends, its timer no longer runs. |
| ClaimProperties.FlushEffects | pkg/adapters/kafka/consumer/dql/base_consumer_group_of_topic.go:160-186 | With a store, a flush without an error calls the handler, stores and marks as handling its messages one at a time would. |
| ClaimProperties.EndedClaimIsOneAtATime | pkg/adapters/kafka/consumer/dql/base_consumer_group_of_topic.go:93-136 | With a store, a claim that ends by closing or cancellation without an error has the handler calls, dead letters and marks of one-at-a-time processing of all its arrivals. |
| ClaimProperties.FlushSplitIndependence | pkg/adapters/kafka/consumer/dql/claim_mode.go:19-21 | So any two settings and schedules with the same arrivals agree: batch mode refines single mode. |
| ClaimProperties.MarksPastFailureInOneClaim | pkg/adapters/kafka/consumer/dql/base_consumer_group_of_topic.go:180-183 | A run of the claim loop without a store: message 0 fails and is stored nowhere, message 1 is marked; the whole list of events. |
| DlqProtocol.RunKeepsInv | pkg/adapters/kafka/consumer/dql/base_consumer_group_of_topic.go:87-116 | The protocol invariant (marked and committed positions, buffer, what is settled) holds in every reachable state, restarts included. |
| DlqProtocol.DoneIsHistory | pkg/adapters/kafka/consumer/dql/base_consumer_group_of_topic.go:160-186 | The state calls an offset settled if and only if some past action of the run handled it without error or stored it. |
| DlqProtocol.NoLoss | pkg/adapters/kafka/consumer/dql/base_consumer_group_of_topic.go:160-186 | In every reachable state every log message below the committed offset was handled without error or is in the store, by an action of the run. |
| DlqProtocol.SettledBeforeMarked | pkg/adapters/kafka/consumer/dql/base_consumer_group_of_topic.go:176-183 | At each mark in a run, the message had been handled without error or stored by an earlier action. |
| ConsumerRefinement.FlushReaches | pkg/adapters/kafka/consumer/dql/base_consumer_group_of_topic.go:160-186 | A flush of the buffer, whatever the answers, is a path of the protocol; without an error it empties the buffer. |
| ConsumerRefinement.ClaimIsProtocolRun | pkg/adapters/kafka/consumer/dql/base_consumer_group_of_topic.go:87-116 | With a store, every schedule of the claim loop over a log that stands still, with any settings, answers and way out, is a run of the protocol. |
| ConsumerRefinement.SessionLosesNothing | pkg/adapters/kafka/consumer/dql/base_consumer_group_of_topic.go:258-305 | Such a session after any history of the group continues a protocol run, and everything it marks was handled without error or stored before. |
| GroupLife.Woven | pkg/adapters/kafka/consumer/dql/base_consumer_group_of_topic.go:93-116 | What the loop does against a full log it does as the log grows, with appends and automatic commits between any two of its events. |
| GroupLife.LifeIsProtocolRun | pkg/adapters/kafka/consumer/dql/base_consumer_group_of_topic.go:87-116 | Any number of sessions of the claim loop, each cut short after any of its events and redelivered from the committed offset, with appends and commits at any moment, is a protocol run. |
| GroupLife.LifeLosesNothing | pkg/adapters/kafka/consumer/dql/base_consumer_group_of_topic.go:160-186 | At any moment of such a life every message below the committed offset was handled without error or stored, and each marked message already at its mark. |
| TransactionManager.Database.Begin | pkg/transaction-manager/manager.go:62-87 | No pool, no connection and a failed begin end the call before the callback; a connection is open and the gauge is up exactly if the callback is to run. |
| TransactionManager.Database.End | pkg/transaction-manager/manager.go:88-128 | Commits only a callback that finished; an error or a panic leaves the committed state; the connection is closed and the gauge is back on every way out. |
| TransactionManager.Database.Do | pkg/transaction-manager/manager.go:54-128 | The whole call against the function Executed, with connections and gauge as before it. |
| TransactionManager.AllOrNothing | pkg/transaction-manager/manager.go:90-128 | The committed state is the old one or the callback's, nil is returned only for the latter, an error or a panic of the callback is always the former. |
| TransactionManager.OutcomeIff | pkg/transaction-manager/manager.go:62-128 | Which fault gives which answer, if and only if, the first in order deciding; the callback's state is committed exactly if it finished and its commit took effect. |
| OutboxRepository.Repository.PickPending | internal/repository/outboxmessages/repository.go:30-63 | Returns copies of the selected rows in order and changes nothing. |
| OutboxQuery.PickedUnlessCrowdedOut | internal/repository/outboxmessages/repository.go:34-53 | A due, unlocked row is picked if fewer than `limit` due rows are not ordered after it, and only if fewer than `limit` are ordered before it; between the two lie the ties. |
| OutboxQuery.PickIsInOrder | internal/repository/outboxmessages/repository.go:51-52 | A pick is ordered by next attempt, earlier first and none last, then by creation; every due row it passes over comes after all of it in that order. |
| OutboxQuery.PickIsFull | internal/repository/outboxmessages/repository.go:34-53 | A pick holds only due rows, and as many as are due up to the limit. |
| OutboxQuery.SelectForLock | internal/repository/outboxmessages/repository.go:34-53 | Whatever the table, the locks and the limit, the query has an answer: this loop computes one, with filter, order, limit and no due row passed over. |
| OutboxRepository.Repository.MarkProcessing | internal/repository/outboxmessages/repository.go:65-76 | Sets status, update time and next attempt of that row and nothing else; a missing row is an error. |
| OutboxRepository.Repository.MarkSent | internal/repository/outboxmessages/repository.go:78-91 | Sets the row sent with its publish time, clears error and next attempt, whatever its status was. |
| OutboxRepository.Repository.MarkFailed | internal/repository/outboxmessages/repository.go:93-106 | Sets the row failed with error and next attempt and adds one attempt, whatever its status was. |
| OutboxRepository.UpdateNeedsRow | internal/repository/outboxmessages/repository.go:65-106 | A mark succeeds if and only if its statement does and the row exists, changes that row alone, and a missing row has an error of its own. |
| OutboxWorker.RetryBackoff | internal/application/outbox/worker.go:145-158 | A backoff is positive and at most the five minutes of the lease. |
| OutboxWorker.Worker.Claim | internal/application/outbox/worker.go:85-101 | The callback's loop over the picked rows: all marked with their stamps, or the error of the first that fails. |
| OutboxWorker.Worker.SettleSent | internal/application/outbox/worker.go:129-136 | The transaction of a mark after a successful publish, with the connection given back. |
| OutboxWorker.Worker.SettleFailed | internal/application/outbox/worker.go:115-124 | The transaction of a mark after a refused publish, with the next attempt counted from the publisher's answer. |
| OutboxWorker.Worker.PublishMessages | internal/application/outbox/worker.go:114-137 | The publish loop on the objects is the loop function: rows, publisher calls in order, returned error. |
| OutboxWorker.Worker.RunOnce | internal/application/outbox/worker.go:76-143 | An iteration is the iteration function, whatever fails in it, and leaves no connection open. |
| OutboxWorker.ClaimRowsAre | internal/application/outbox/worker.go:91-97 | A claim gives each picked row its own stamp and leaves every other row as it was. |
| OutboxWorker.PublishesInPickOrder | internal/application/outbox/worker.go:114-137 | The publisher is called for the picked messages in order without gaps; the loop ends early only on an error of the mark of a message just published. |
| OutboxWorker.PartialIteration | internal/application/outbox/worker.go:114-142 | From any rows the loop starts with: each message it passed is settled by its mark; one it never reached keeps its row; so does the one whose mark failed, unless its commit took effect all the same. |
| OutboxWorker.IterationLeaves | internal/application/outbox/worker.go:85-142 | For a whole iteration whose claim committed: a picked row the loop passed is sent, or failed, or processing after a swallowed error; every other picked row is processing as claimed, but for a mark that took effect and reported an error. |
| OutboxWorker.IterationSpares | internal/application/outbox/worker.go:85-142 | Rows that were not picked are untouched by the iteration. |
| OutboxWorker.FailedClaimLeaves | internal/application/outbox/worker.go:102-107 | After a claim that did not commit nothing is published and the table is as before, or as claimed when only the commit's answer was lost. |
| OutboxWorker.ClaimErrsIff | internal/application/outbox/worker.go:85-112 | The claim fails if and only if the transaction, the query or a mark does, and the first of them is the iteration's error; an empty pick is no error. |
| OutboxProtocol.RunKeepsInv | internal/application/outbox/worker.go:76-143 | The invariant of N workers holds in every reachable state, with crashes, lost marks and any interleaving. |
| OutboxProtocol.EveryPublishHasItsClaim | internal/application/outbox/worker.go:85-136 | With or without the lease, the committed claims of a row are its successful publishes, refused ones, dropped ones and those still in hand; nothing is published without a claim committed before. |
| OutboxProtocol.SentMeansPublished | internal/application/outbox/worker.go:129-136 | With or without the lease, a sent row was published successfully at least once. |
| OutboxProtocol.AttemptsAreFailures | internal/repository/outboxmessages/repository.go:99-105 | With or without the lease, the attempt count is the number of committed failure marks. |
| OutboxProtocol.NothingGetsStuck | internal/repository/outboxmessages/repository.go:31-48 | Every row that is not sent is eligible exactly from a moment that is at most five minutes away, whoever crashed and whatever was lost. |
| OutboxRecords.EveryRecordIsTrue | internal/repository/outboxmessages/repository.go:65-106 | In every reachable state a row's creation and publish time, attempts, error and next attempt are those of its insert and of its committed marks: a sent row has a publish time, no error and no next attempt, a failed one the error of the last failure. |
| OutboxRecords.DueWithinFiveMinutes | internal/repository/outboxmessages/repository.go:31-48 | A row that is not sent is due within 300 000 ms whatever happened, one in processing exactly 300 000 ms after its claim. |
| OutboxRecords.ClaimsAtMostFifty | internal/application/outbox/worker.go:54-55 | A claim takes at most fifty rows, and all that are due when it takes fewer. |
| OutboxLease.RunKeepsLeaseInv | internal/application/outbox/worker.go:76-143 | Under the lease, held rows are as their claim left them, holders are unique, and the ledger of publishes and failures balances, in every reachable state. |
| OutboxLease.OneHolderPerMessage | internal/repository/outboxmessages/repository.go:45-50 | Under the lease, no two workers, nor one worker twice, hold the same message. |
| OutboxLease.SentIsFinal | internal/repository/outboxmessages/repository.go:78-106 | Under the lease, a sent row never changes again. |
| OutboxLease.SentLeavesOnlyByLateFailure | internal/repository/outboxmessages/repository.go:93-106 | Which single step takes a row out of sent, lease or not: a committed failure mark of a worker at that row, and no other. |
| OutboxLease.PublishesAreCounted | internal/application/outbox/worker.go:114-136 | Under the lease, successful publishes are the lost marks plus at most one, and exactly one once the row is sent. |
| OutboxLease.RetryPacing | internal/application/outbox/worker.go:121-124 | Under the lease, failures i and j of a row are at least the backoffs between them apart. |
| OutboxRecords.WaitsInNumbers | internal/application/outbox/worker.go:145-158 | Under the lease a failed row is due exactly 5, 15, 30, 60, 60 or, from the sixth failure on, 300 seconds after its last failure, and n failures take at least the sum of those waits. |
| OutboxRevival.SentIsFinalIff | internal/repository/outboxmessages/repository.go:78-106 | Lease or not: a sent row stays sent in every run from a state if and only if no worker in it holds a claim of the row other than as the message it has just delivered. |
| OutboxRevival.Refuses | internal/repository/outboxmessages/repository.go:93-106 | The worker that holds such a claim can go through its batch to it and commit a failure over the sent row. |
| OutboxRevival.LeaseSettles | internal/application/outbox/worker.go:76-143 | In every state of a run that keeps the lease no such claim of a sent row exists. |
| OutboxRefinement.IterationRefines | internal/application/outbox/worker.go:76-143 | Every iteration, with any answers and clock readings in order, is a path of the protocol that ends in the same rows with the worker idle; per row the counted publishes and refusals grow by exactly the publisher's calls, the failures by the failure marks that took effect, the lost marks by the sent marks that did not. |
| OutboxRefinement.LoopRefines | internal/application/outbox/worker.go:114-137 | The same of the publish loop from any message on. |
| OutboxRefinement.SettlementsAreCalls | internal/application/outbox/worker.go:115-136 | The settlements counted in the histories are the publisher's calls of the loop, with multiplicity. |
| OutboxRefinement.SlowWorkerRevivesSentRow | internal/repository/outboxmessages/repository.go:93-106 | A reachable run of two workers whose last step turns a sent row into a failed one. |
| AvroBinary.GroupCount | internal/adapters/secondary/kafka/user_created_avro.go:135-139 | A number takes at most k groups of seven bits if and only if it is below 128 to the k. |
| AvroBinary.GroupsRoundTrip | internal/adapters/secondary/kafka/user_created_avro.go:135-139 | The reader gives back the number and leaves the trailing bytes. |
| AvroBinary.CanonicalGroupsRewrite | internal/adapters/secondary/kafka/user_created_avro.go:135-139 | What the reader accepts is what the writer writes, if and only if it has no zero group at the top. |
| AvroBinary.LongRoundTrip | internal/adapters/secondary/kafka/user_created_avro.go:133-140 | Every 64-bit long takes 1 to 10 bytes and is read back, with trailing bytes untouched. |
| AvroBinary.LongsArePrefixFree | internal/adapters/secondary/kafka/user_created_avro.go:133-140 | No encoding of a long is a prefix of another's, and different longs differ in encoding. |
| AvroBinary.StringRoundTrip | internal/adapters/secondary/kafka/user_created_avro.go:128-131 | A string is read back with trailing bytes untouched. |
| AvroBinary.SpecificationExamples | internal/adapters/secondary/kafka/user_created_avro.go:128-140 | The examples of longs and of a string in the specification come out byte for byte. |
| UserCreatedEncoder.ShiftsAreZigZag | internal/adapters/secondary/kafka/user_created_avro.go:134 | The shifts and the xor on 64-bit words compute the zig-zag number, the lost top bit included. |
| UserCreatedEncoder.WriteAvroLong | internal/adapters/secondary/kafka/user_created_avro.go:133-140 | The loop with its bit operations ends and appends exactly the encoding of the long. |
| UserCreatedEncoder.WriteAvroString | internal/adapters/secondary/kafka/user_created_avro.go:128-131 | Appends exactly the encoding of the string. |
| UserCreatedEncoder.SchemaRegistryEncoder.EnsureSchemaID | internal/adapters/secondary/kafka/user_created_avro.go:74-126 | Asks the registry only without a cached id, fails for each kind of bad answer in the code's order, and caches a positive id. |
| UserCreatedEncoder.SchemaRegistryEncoder.Encode | internal/adapters/secondary/kafka/user_created_avro.go:56-72 | The bytes of the frame with the ensured id, or its error. |
| UserCreatedEncoder.FrameRoundTrip | internal/adapters/secondary/kafka/user_created_avro.go:56-72 | A reader of the frame gets back schema id, user id, provider and milliseconds, with nothing left over. |
| UserCreatedEncoder.SchemaIdSurvivesIffItFits | internal/adapters/secondary/kafka/user_created_avro.go:64 | The schema id read back is the one used if and only if it is below 2^32. |
| UserCreatedEncoder.CachedIdIsForever | internal/adapters/secondary/kafka/user_created_avro.go:78-80 | Once an id is cached every later call succeeds with it, whatever the registry would answer. |
| UserCreatedEncoder.OneSchemaIdPerEncoder | internal/adapters/secondary/kafka/user_created_avro.go:56-80 | From a new encoder, after a first success all calls succeed and any two carry the same positive schema id. |
| UserCreatedEncoder.EncodeSucceedsIff | internal/adapters/secondary/kafka/user_created_avro.go:56-126 | Call i of a new encoder succeeds if and only if the registry accepted the schema, with a status from 200 to 299 and a positive id, in answer to it or before; the message then reads back with the first accepted id; otherwise the error is that of the call's own answer, by kind. |
| UserCreatedEncoder.CallsUntilAccepted | internal/adapters/secondary/kafka/user_created_avro.go:74-126 | Every call before the first accepted answer fails by its own answer, every one from it on carries its id. |
| Text.NormalizedIffFixed | internal/application/auth/service.go:439-445 | A text is in normal form if and only if normalising leaves it alone. |
| Text.NormalizeTrimmed | internal/application/auth/service.go:389-395 | Trimming first changes nothing, and normalising keeps whether there is an `@` and whether the text is blank. |
| Text.TrimIff | internal/application/auth/service.go:439-445 | Trimming takes all blanks off both ends and nothing else. |
| Text.NormalizeIff | internal/application/auth/service.go:439-445 | Two texts normalise alike if and only if, trimmed, they differ in case only. |
| Text.SpellingsNormalizeAlike | internal/application/auth/service.go:439-445 | Any spelling of a text, in any case and with any blanks around it, normalises like it. |
| AccountStore.AccountKeeps | migrations/postgres/20260430090000_add_auth_tables.sql:3-14 | An insert of an account none of whose keys is in use keeps all keys unique and all references valid. |
| AccountStore.CredentialKeeps | migrations/postgres/20260430090000_add_auth_tables.sql:16-24 | The same for a credential of an existing account without one. |
| AccountStore.IdentityKeeps | migrations/postgres/20260430090000_add_auth_tables.sql:26-37 | The same for an identity of an existing account with a free provider and subject. |
| AuthService.AuthService.CreateWithPassword | internal/application/auth/service.go:126-134 | Account, then credential, then outbox row, statement by statement, with unique violations of the first mapped to a duplicate. |
| AuthService.AuthService.Register | internal/application/auth/service.go:78-159 | Checks, hash, transaction and tokens in that order, against the function RegisterRun; no connection stays open. |
| AuthService.AuthService.Link | internal/application/auth/service.go:357-367 | Account and outbox row only for an account created at the call's own instant, then the identity. |
| AuthService.AuthService.RegisterYandexUser | internal/application/auth/service.go:328-372 | Links the account with the profile's email or makes one, against the function YandexRegister. |
| AuthService.AuthService.CompleteYandexLogin | internal/application/auth/service.go:238-326 | Checks, lookup by the untrimmed subject, then the existing account or a registration, against the function YandexRun. |
| VkUsers.VkUsersService.Resolve | internal/application/vkusers/service.go:130-160 | The account with the event's email, or a new one under its login or the fallback login. |
| VkUsers.VkUsersService.Link | internal/application/vkusers/service.go:77-114 | The callback of Accept, statement by statement: nothing for a linked id, else account, identity and, for a new account, the outbox row. |
| VkUsers.VkUsersService.Accept | internal/application/vkusers/service.go:57-128 | Rejects a missing event or id, else runs the transaction, against the function AcceptRun. |
| AccountDoors.RegisterEffect | internal/application/auth/service.go:106-134 | Whatever fails, the tables gain exactly the account (normalised texts), its credential and its outbox row, or nothing; success means all three. |
| AccountDoors.YandexEffect | internal/application/auth/service.go:328-372 | Whatever fails, the tables gain one identity of an existing account, or a new account with identity and outbox row, or nothing. |
| AccountDoors.AcceptEffect | internal/application/vkusers/service.go:77-114 | The same for a VK event. |
| AccountDoors.RegisterSucceedsIff | internal/application/auth/service.go:374-387 | When no call fails, and however old the answers of the uniqueness reads are, registration succeeds if and only if no field is blank and login and email are free; otherwise a duplicate is reported as one. |
| AccountDoors.YandexLinksIff | internal/application/auth/service.go:357-367 | When no call fails, a profile that is not linked yet is refused if and only if its email belongs to an account created at the call's instant, or the email is new and the login is taken. |
| AccountDoors.AcceptSucceedsIff | internal/application/vkusers/service.go:57-184 | When no call fails, an event is taken if and only if it has an id and is linked, or has a known email, or finds its login or the fallback free and its email or placeholder free. |
| AccountInvariants.StepKeepsConsistent | internal/application/auth/service.go:126-138 | One call of any door, with any failures and even stale reads, keeps the tables consistent and only adds rows. |
| AccountInvariants.ThreeDoorInvariant | internal/application/vkusers/service.go:77-114 | Over every run of the three doors: unique ids, logins, emails, credentials and (provider, subject) pairs, valid references, every account with a credential or an identity, and outbox row k announcing account k, one each. |
| AccountPersistence.StoredTextsAreNormalized | internal/application/auth/service.go:439-453 | In every reachable state logins and emails are fixed points of normalising and subjects of trimming. |
| AccountPersistence.FindsIff | internal/application/auth/service.go:389-395 | An identifier names an account if and only if its normal form is the email, for one with an `@`, or the login, for one without. |
| AccountPersistence.LoginPersistsIff | internal/application/auth/service.go:161-216 | After a registration, in every later state, any variant of the email logs the same user in if and only if it has an `@` or equals the login, and any variant of the login if and only if it has none or equals the email. |
| AccountAnswers.LoginNeedsPassword | internal/application/auth/service.go:193-197 | Any login that succeeds has an account the identifier names, that account's credential, and a password valid for it. |
| AccountAnswers.LoginAnswers | internal/application/auth/service.go:161-216 | The answer of a login in every case: blanks, failing queries, an unknown account, no credential, a wrong password, failing tokens. |
| AccountAnswers.RegisteredLogin | internal/application/auth/service.go:161-216 | In every later state a registered user, typing the email with an `@` or the login without one in any spelling, is let in with a valid password and refused with any other. |
| AccountAnswers.RegisterChecksIff | internal/application/auth/service.go:397-412 | What a registration needs before its transaction, and the error of the first thing missing: five fields in order, the two queries, free login and email, the hash. |
| AccountAnswers.RegisterAnswers | internal/application/auth/service.go:126-159 | With free keys, the answer to each fault of the transaction; nothing is stored unless all three rows are; failing tokens come too late to undo them. |
| AccountAnswers.YandexChecksIff | internal/application/auth/service.go:247-271 | What a Yandex login needs before its lookup, and the error of the first thing missing. |
| AccountAnswers.YandexKnownAnswers | internal/application/auth/service.go:273-303 | For a linked subject, and for a failing lookup, nothing changes; the answer is for the linked account, and each fault has its own. |
| AccountAnswers.YandexNewAnswers | internal/application/auth/service.go:304-372 | For a subject that is not linked: the email lookup, the transaction and the tokens, each with its own fault, and the answer for the account that is linked. |
| AccountAnswers.YandexTxAnswers | internal/application/auth/service.go:357-367 | With free keys, how the transaction of a link ends: by its first statement that fails or panics, in the code's order, or with its rows. |
| AccountAnswers.YandexStores | internal/application/auth/service.go:331-355 | The rows a Yandex login adds, written out from the profile: a link to the account with its email if there is one, else a new account with these texts. |
| AccountAnswers.AcceptAnswers | internal/application/vkusers/service.go:61-119 | A missing event and a blank id have errors of their own; otherwise the answer is the transaction's. |
| AccountAnswers.AcceptTxAnswers | internal/application/vkusers/service.go:77-184 | How the callback ends in every case: queries in order, logins in use, then the first statement that fails or panics. |
| AccountAnswers.AcceptStores | internal/application/vkusers/service.go:130-207 | The rows an event adds, written out from it: its login or one made of the id, its email or a placeholder, its names or defaults. |
| AccountPersistence.AcceptLinks | internal/application/vkusers/service.go:77-114 | After an accepted event its trimmed id is linked. |
| AccountPersistence.LinkedEventIsNoop | internal/application/vkusers/service.go:77-101 | An event for a linked id changes nothing, even when its lookup is too early to see the link. |
| AccountPersistence.RedeliveryStutters | internal/application/vkusers/service.go:77-83 | A further event with that id, anywhere later in any run and with any answers, lookups from before the first acceptance included, leaves every later state as without it, and the id stays linked to the same account. |
| AccountPersistence.YandexLinks | internal/application/auth/service.go:273-325 | A successful Yandex login leaves the trimmed subject linked to the account it answered. |
| AccountPersistence.LinkedProfileIsRefused | internal/application/auth/service.go:347-372 | Registering a profile whose trimmed subject is linked fails by any route and changes nothing. |
| AccountPersistence.YandexLoginPersistsIff | internal/application/auth/service.go:273-353 | A later Yandex login with the same subject, in any later states, answers the same account if and only if the subject has no blanks around it, and never changes the tables. |
| AccountWitnesses.LoginWithAtFails | internal/application/auth/service.go:389-395 | Concrete: a user registered from empty tables whose login has an `@` logs in by email and not by login. |
| AccountWitnesses.EmailWithoutAtFails | internal/application/auth/service.go:389-395 | Concrete: with an email that has no `@` it is the other way round. |
| AccountWitnesses.SameInstantIsRefused | internal/application/auth/service.go:328-372 | Concrete: a Yandex profile with a registered email, at the clock reading of that registration, ends as a duplicate and changes nothing. |
| AccountWitnesses.BlankSubjectIsRefused | internal/application/auth/service.go:273-351 | Concrete: a subject with a blank before it makes a user the first time and is refused the second. |

## Left out

- OutboxRepository.Repository.PickPending: the answer of the query is an argument of the method, because ties and the locks of others leave the database a choice; which answers it may give is `OutboxRepository.IsPick`, and that there is one `OutboxQuery.SelectForLock`.
- The Kafka producers, the VK consumer, the gRPC and web servers and the postgres adapters: calls into libraries whose state is not visible; queries are modelled by their meaning on the rows.
- Sarama's sessions: rebalancing, two live sessions on one partition, and the fetcher are not part of this model; a restart redelivers from the committed offset.
- The `select` statement chooses among ready branches; a schedule may take any branch at any time, except that a tick needs a tick in the channel.
- Password hashing, tokens, state tokens, TOTP and the Yandex exchange are answers: a hash, a yes or a no, a profile.
- Unicode: trimming and lower-casing are those of ASCII texts. UUIDs are integers that need not be fresh unless a lemma asks for it. JSON payloads are not modelled; an outbox row keeps topic, key and provider.
- Integer widths: the consumer's counters (64 bits) and the attempt counts (32 bits) do not overflow here. The encoder's 64-bit words and the 32-bit schema id are modelled exactly.
- One clock: no skew between hosts. A claim transaction is one step from its query to its commit, because its rows stay locked.
- The lease is an assumption about whole runs, `OutboxLease.Respects`: in every state every held claim is younger than five minutes. The code does not enforce it.
- Reads of the account services see the current committed state or an earlier one, as replicas and read-committed transactions do; concurrent inserts of one key are ordered by the database, so a call's inserts happen together at its commit.
- A commit that reports an error may or may not have taken effect. A read that panics is not modelled; a statement that panics is.
- Fields of a dead-letter record other than its message and attempt number, and the in-memory status of a picked outbox message, are not modelled; nothing modelled reads them.
- Logging, metrics other than the consumer's counters and the transaction gauge, tracing, and constructors.
- Only committed outbox rows of accounts are in `AccountStore`; how they are published is the subject of the outbox modules, which take any rows.
