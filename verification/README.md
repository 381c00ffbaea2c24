# Cashback pipeline: model and proofs

A Dafny 4.11 model of the cashback pipeline. An order is confirmed together with an outbox row; a
publisher copies PENDING rows to an event topic at least once; a consumer stores each event in an inbox
and tries it once; a retry loop finishes the row or marks it FAILED and sends it to the dead-letter
topic; an operator may replay rows; each order gets one ledger credit. Beside it stand the cashback-rule
cache that the API and the worker share, the Idempotency-Key table, and the balance endpoint.

`dafny verify dfyconfig.toml` checks everything.

## How the model is built

* **Steps.** `Pipeline` is a labelled transition system with any number of publishers, retry loops,
  consumers, replay tools and confirm requests. Every awaited call is one step, every process may stop
  between two steps, and all processes interleave freely. A database or broker call is `Ok`, `Lost` (it
  took effect, the caller saw an error) or `Refused` (an error, no effect). The duplicate-credit branch
  of the handler may return or, as PostgreSQL rejects further statements after the failed insert, throw;
  safety holds for all outcomes, and draining is proved for a branch that returns, for one that throws, and
  for one that does either (`Drain.Duplicates`).
* **The calls.** `Calls` and `CacheCalls` state on the fields of rows and keys what each query, update and send
  writes when it is acknowledged, lost or refused, and where its process goes on.
* **The code itself.** `Workers`, `CacheClient`, `Idempotency` and `Balance` hold the loops and request
  handlers as methods over mutable fields. Between two calls of a method `Others` stands for everything
  the rest of the system may do; its contract leaves the method's own place alone and lets the log of
  steps grow. `Backend.Valid` says that the tables are what the log makes of an empty system, so each
  method is proved to follow the transition system whatever the calls return and wherever it stops.
  `left` tells a caller that the process stopped or that an error was not caught; a method that did not
  leave has gone through its whole batch.
* **Whole runs.** All other modules prove properties of every run from an empty system, or of every
  reachable state.

Assumptions:

* Each `$transaction` is one atomic step. `ReqRead` and `ReqWrite` are a confirm that another confirm
  overlaps; `ConfirmOutbox` says exactly what changes then.
* The event topic is append-only and has one partition, as `infra/k8s/base/redpanda-topics-job.yaml`
  creates it. Other producers may send messages, malformed ones included, but do not use the ids of
  outbox rows. A redelivery is a consumer that starts over at the committed offset.
* The no-loss result asks that every committed message was stored (`Missing(s) == {}`); a message is missing
  only if `consumer.ts` swallowed its upsert (`Delivery.MissingWasSwallowed`), and
  `Delivery.LostExactlyWhenSwallowed` says exactly which orders that loses. Recovery has no such hypothesis: it
  credits the CONFIRMED orders that were not lost.
* After a fault, recovery runs one worker of each kind; before it any number of workers took part, and the
  others stay down. A fair schedule is one of rounds: in each the publisher and the retry loop poll at a time when
  every PENDING row is due and later finish, and the consumer commits at the end of the topic (`FairDrain.Round`).
* The handler in `Pipeline` and `Workers` receives any rule at all, and the safety results do not depend on it;
  `CreditRules` adds that the rules come from the merchants' caches, at most a given time before the insert.
* Money is in cents, rates in ten-thousandths, cap in cents; rounding is half up. A rate is at most 1.
* The request hash is injective. Ids are positions in their tables, so ids follow creation order, and
  `createdAt` order is id order.
* Time is an integer number of milliseconds and never runs backwards.

Where the code and its own documentation differ, the model follows the code:

* The comment at `apps/worker/src/index.ts:54` says that the claim avoids duplicate sends by several
  workers. The claim does not change the status, so two publishers can both claim and send a row, and a
  SENT row can become PENDING again (`Scenarios.SentRowGoesBack`).
* `docs/adr/ADR-003-at-least-once.md` speaks of rows that exceed `MAX_ATTEMPTS`; the loops give up when
  attempts reach it (`>=`). With a maximum of 0 one attempt is still made.
* The summary of the confirm endpoint mentions a ledger credit; confirming only writes the outbox row.
* The log text at `apps/worker/src/consumer.ts:47` says that the inbox row was created; the same branch
  also runs when the upsert itself failed, and then the message is lost
  (`Scenarios.SwallowedUpsertLosesOrder`).

Claims that do not hold of the code, with the exact condition:

* "Any two dead letters of a row are separated by a replay." With one retry loop two FAILED writes are
  (`DeadLetters.ReplayBetweenFailedWrites`). Two sends need not be: a row can be replayed between its FAILED
  write and the send, and then both letters follow that replay (`Scenarios.ReplayBeforeSend`). With several
  loops not even the writes are: two loops that poll one row write FAILED and send twice without any replay
  (`Scenarios.TwoLoopsSendTwice`). What holds for any number of loops: after a FAILED write only loops already
  engaged with the row can follow without a replay (`DeadLetters.FailedWritesAfterOne`), and an event has at most
  one letter for each loop, times one more than its replays (`DeadLetters.DeadLettersPerEvent`).
  `LetterGaps.LetterExactlyWhenExhaustible` gives the condition, in every reachable state: a letter can follow
  without a replay exactly when the row is PENDING and there is a loop that takes batches, or a loop has written
  FAILED to it or is past its last attempt, or h > 0 loops hold it and its attempts plus h reach the maximum. After
  a send with one loop this says that the row is PENDING (`LetterGaps.SecondLetterExactlyWhen`).
* "A CONFIRMED order has exactly one outbox row." With overlapping confirms it has one more for each
  confirm that commits on a stale read (`ConfirmOutbox.RowsPerOrder`,
  `Scenarios.OverlappingConfirmsAnnounceTwice`); single credit is not affected
  (`Refinement.CreditedAtMostOnce`).
* "Each key creates at most one order." One after the other, one more for each request that dies between the
  insert and the saved response (`Idempotency.OrdersPerKey`). With overlaps, one for each lookup that missed;
  when all requests complete, at most one exactly when no lookup missed while another request with the key was
  under way, and exactly then no saved response is replaced (`Overlap.OneOrderExactlyWithoutOverlap`).
* "PROCESSED means credited." It holds for every event of the outbox
  (`Delivery.ProcessedMeansCredited`). A row of another producer can be marked PROCESSED while its order has no
  credit, whatever is created and confirmed on the way, exactly when a message with its id that a consumer can still
  come to names another order that is CONFIRMED or can still be: one that is not CANCELLED, as long as there is an API
  to create and confirm it (`ForeignEvents.MarkedUncreditedExactlyIfMisled`, `Scenarios.ReusedIdMarksTheWrongRow`).
  Messages that are not yet on the topic are not counted.
* "A returned rule was in force at some time within lifetime plus fill delay before its return." The release
  of the lock comes after the cache write and may take longer than the lifetime. With clients of at most
  a given lifetime the claim holds of every answer exactly when the time from write to return is at most the lifetime
  (`SlowRelease.WithinLifetimeExactlyIfPrompt`); otherwise the bound is delay plus that time
  (`RuleCache.StalenessIsBounded`).
* "An upsert followed by its invalidation ends the old rule." A rule that is not the current one can be returned
  before the next upsert exactly when a fill that read it is still under way, or the live entry carries it and
  there is a client to hit it (`RuleCoherence.StaleExactly`). Once the invalidation has taken effect, whatever
  came between the two calls, only such a fill is left (`RuleCoherence.StaleExactlyWithRacingFill`).

## Model

| member | source | states |
|---|---|---|
| Domain.Oldest | apps/worker/src/inbox-retry.ts:21-25 | the picks are eligible, in creation order, and at most the limit |
| Domain.OldestLeavesOut | apps/worker/src/inbox-retry.ts:23-25 | an eligible row is passed over only for a full batch of older ones |
| RetrySchedule.BackoffDoubles | apps/worker/src/inbox-retry.ts:10-12 | the first delay is one second and each is twice the one before, up to thirty seconds |
| Cashback.CapAndRoundCommute | apps/worker/src/handlers/process-order-confirmed.ts:29-31 | capping before rounding gives the same credit as rounding before capping |
| Cashback.CashbackIsBounded | apps/api/src/merchants/dto/upsert-cashback-rule.dto.ts:4-12 | with a rate in [0, 1] a credit exceeds neither the order amount nor the cap |
| Cashback.CashbackIsMonotone | apps/worker/src/handlers/process-order-confirmed.ts:26-31 | a larger amount, a larger rate or a looser cap never lowers the credit |
| Cashback.RoundingDrift | packages/db/prisma/schema.prisma:38-55 | n uncapped credits differ from exact cashback by at most n half cents |
| Pipeline.RowFor | apps/worker/src/consumer.ts:28-37 | the upsert finds a row with the source id, or there is none |
| Pipeline.FetchedInbox | apps/worker/src/replay.ts:30-41 | a replay by source id fetches only rows with that id and one by status only rows in it, in creation order, at most the limit, with the attempts they have now |
| Pipeline.FetchedInboxLeavesOut | apps/worker/src/replay.ts:37-41 | a row with the id, or in the status, is left out only for a full batch of older ones |
| Pipeline.FetchedOutbox | apps/worker/src/replay.ts:58-67 | the same for an outbox replay and its status |
| Pipeline.FetchedOutboxLeavesOut | apps/worker/src/replay.ts:63-67 | a row in the status is left out only for a full batch of older ones |
| ReplayTool.FetchBySource | apps/worker/src/replay.ts:30-41 | in every reachable state a replay by source id fetches exactly the one row with that id, if there is one |
| ReplayTool.TouchesOnlyMatches | apps/worker/src/replay.ts:35-53 | until it fetches again, and whatever others do, a tool changes only rows that matched its filter when it fetched, and gives them no attempts or those of that time |
| ReplayTool.TouchesOnlyTheSource | apps/worker/src/replay.ts:35-53 | so a replay by source id never touches a row with another id, nor the outbox |
| Calls.RefusedWritesNothing | apps/worker/src/index.ts:61-100 | a refused call of any process writes nothing |
| Calls.LostWritesTheSame | apps/worker/src/index.ts:61-100 | a call whose reply is lost writes what it writes when it is acknowledged |
| Calls.ReadsWriteNothing | apps/worker/src/index.ts:82-83 | polls, fetches, reads, stops and the ends of rounds write nothing |
| Calls.PollReadsOutbox | apps/worker/src/index.ts:41-48 | a pass takes PENDING due rows with their payloads, oldest first, and leaves one out only for a full batch of older ones |
| Calls.PollReadsInbox | apps/worker/src/inbox-retry.ts:21-25 | the same for a retry round |
| Calls.ClaimWrites | apps/worker/src/index.ts:55-59 | a claim adds one attempt to a PENDING row and goes on to the send; any other row is left alone and passed over |
| Calls.SendWrites | apps/worker/src/index.ts:61-75 | the topic gets one event with the row's id and the payload of the batch |
| Calls.MarkSentWrites | apps/worker/src/index.ts:77-80 | the row becomes SENT, whatever its status was, and keeps the rest |
| Calls.SettleWrites | apps/worker/src/index.ts:82-99 | the catch branch reads the attempts again: FAILED at the maximum, otherwise PENDING and due after the backoff |
| Calls.PublisherErrors | apps/worker/src/index.ts:53-101 | an error of claim, send or mark leads to the catch branch of that row, and one inside it ends the pass |
| Calls.PublisherOrder | apps/worker/src/index.ts:53-101 | a pass makes its calls in this order only: claim, send, mark, and in the catch branch the read and the settlement |
| Calls.TryWrites | apps/worker/src/inbox-retry.ts:29-35 | the handler credits the fetched payload's order once, if it is CONFIRMED, with its own user, currency and cashback, and throws for any other order |
| Calls.MarkProcessedWrites | apps/worker/src/inbox-retry.ts:36-39 | the row becomes PROCESSED and keeps the rest |
| Calls.CountWrites | apps/worker/src/inbox-retry.ts:41-47 | a failure first adds one attempt, and that count is what the row is settled by |
| Calls.PutOffWrites | apps/worker/src/inbox-retry.ts:49-76 | FAILED at the maximum with a letter due next, otherwise a later due time and the next row |
| Calls.LetterWrites | apps/worker/src/inbox-retry.ts:55-70 | the letter has the row's source id and payload and the counted attempts |
| Calls.RetrierErrors | apps/worker/src/inbox-retry.ts:29-78 | an error of the handler or the mark leads to the catch branch, and one inside it ends the loop |
| Calls.RetrierOrder | apps/worker/src/inbox-retry.ts:28-78 | a round makes its calls in this order only: handler, mark, and in the catch branch count, settlement and letter |
| Calls.StoreWrites | apps/worker/src/consumer.ts:25-37 | the upsert adds a PENDING row with the message's id and payload, no attempts and due now, or leaves the one with the id alone |
| Calls.FastPathWrites | apps/worker/src/consumer.ts:39-40 | the handler runs on the message's payload; if it throws, the consumer moves on |
| Calls.MarkConsumedWrites | apps/worker/src/consumer.ts:41-44 | the stored row becomes PROCESSED and keeps the rest |
| Calls.IgnoredIsPassed | apps/worker/src/consumer.ts:21-23 | a message that is no OrderConfirmed event only moves the consumer |
| Calls.ConsumerOrder | apps/worker/src/consumer.ts:17-52 | a message is stored, tried and marked in this order, and offsets are committed between messages only |
| Calls.CommitWrites | apps/worker/src/consumer.ts:16-17 | a commit takes the consumer's offset, and a restart goes back to it |
| Calls.ConsumerErrors | apps/worker/src/consumer.ts:45-51 | every error leads behind the message |
| Calls.InboxResetWrites | apps/worker/src/replay.ts:44-52 | a reset row is PENDING and due now, with no attempts or those it had when it was fetched |
| Calls.OutboxResetWrites | apps/worker/src/replay.ts:70-79 | the same for an outbox row |
| Calls.FetchReads | apps/worker/src/replay.ts:37-67 | the tool starts on the rows its query finds, with the flag it was called with |
| Calls.ReplayErrors | apps/worker/src/replay.ts:43-53 | a failed update ends the tool |
| Calls.ConfirmWrites | apps/api/src/orders/orders.controller.ts:121-161 | a confirm of a CREATED order sets its status and adds one PENDING outbox row with the order's id, user, merchant, amount and currency; any other order is left alone |
| Calls.OverlappedConfirmWrites | apps/api/src/orders/orders.controller.ts:123-161 | the commit of a confirm that others overlap writes the same, whatever became of the order since its read |
| Calls.CreateWrites | apps/api/src/orders/orders.controller.ts:37-45 | a create inserts one CREATED order with the data of the request |
| Calls.OutsideWrites | apps/worker/src/consumer.ts:21-26 | other producers append to the topic, but not under an outbox id |
| Calls.StopsEndRounds | apps/worker/src/index.ts:125-136 | a process that stops, or whose batch is used up, is idle afterwards |
| Invariants.StepGrows | apps/worker/src/replay.ts:43-53 | no step deletes a row, rewrites a payload, or takes anything from ledger, topic or dead-letter topic |
| Invariants.StepKeepsInv | apps/worker/src/inbox-retry.ts:19-82 | every step of every process keeps all invariants, whatever fails |
| Invariants.ReachableHasInv | packages/db/prisma/schema.prisma:61-121 | every reachable state has consistent orders, outbox, topic, inbox and ledger |
| Refinement.StepRefines | apps/worker/src/handlers/process-order-confirmed.ts:19-65 | every step opens, confirms or credits one order of an abstract ledger, or changes nothing there |
| Refinement.RunRefines | apps/worker/src/consumer.ts:16-52 | the same for each step of each run from an empty system |
| Refinement.CreditIsFrozen | apps/worker/src/inbox-retry.ts:19-82 | a credited order keeps its credit and the amount for the rest of every run |
| Refinement.CreditedAtMostOnce | packages/db/prisma/schema.prisma:73 | two ledger entries never name the same order |
| Delivery.SentMeansPublished | apps/worker/src/index.ts:61-80 | a SENT row has a message with its id and payload on the topic, with any number of publishers |
| Delivery.EventsTellTheOrder | apps/api/src/orders/orders.controller.ts:145-158 | in every reachable state an outbox row, all its messages and its inbox row tell the CONFIRMED order's id, user, merchant, amount and currency |
| Delivery.ProcessedMeansCredited | apps/worker/src/consumer.ts:25-44 | a PROCESSED row of an outbox event names a CONFIRMED order that has its credit |
| Delivery.ForeignProcessedMeansCredited | apps/worker/src/consumer.ts:25-44 | the same for other producers' events when all messages with the id name the row's order |
| ForeignEvents.MarkedUncreditedExactlyIfMisled | apps/worker/src/consumer.ts:28-44 | on all continuations without new foreign messages, a foreign row can be marked PROCESSED without its order's credit exactly when a message with its id in reach of a consumer names another order that is CONFIRMED, or CREATED or yet to be created while there is an API |
| ForeignEvents.RunKeepsSound | apps/worker/src/consumer.ts:39-44 | without such a message no run marks it so, new orders and confirms included |
| ForeignEvents.MarkMisled | apps/worker/src/consumer.ts:28-44 | a consumer on such a message marks the row |
| ForeignEvents.ConfirmNamed | apps/api/src/orders/orders.controller.ts:121-161 | an order that can be credited can be created and confirmed without touching topic, inbox, consumers or ledger |
| Delivery.LostExactlyWhenSwallowed | apps/worker/src/consumer.ts:25-51 | an uncredited CONFIRMED order leaves no trace exactly when the upsert of every copy of its event was swallowed |
| Delivery.MissingWasSwallowed | apps/worker/src/consumer.ts:25-51 | a committed message is in no inbox row only if its upsert was refused |
| Delivery.NoSilentLoss | apps/api/src/orders/orders.controller.ts:140-158 | while every committed message is stored, a CONFIRMED order has its credit, a PENDING or FAILED row, or an uncommitted message |
| RetryBudget.AttemptBudget | apps/worker/src/inbox-retry.ts:27-76 | with any number of loops, attempts stay below the maximum plus the stops on this row between the increment and the write that follows, plus one per loop for the row and for each replay of it |
| RetryBudget.AttemptBudgetOfOne | apps/worker/src/inbox-retry.ts:27-76 | so with one loop they never exceed the maximum plus those stops and the replays |
| RetrySchedule.BackoffIsMonotone | apps/worker/src/index.ts:24-28 | delays never shrink and stay at thirty seconds from the fifth attempt on |
| RetrySchedule.WaitsInClosedForm | apps/worker/src/inbox-retry.ts:10-12 | the delays before the n-th attempt add up to 1000 * (2^n - 2) ms, and to 30000 more for each attempt after the fifth |
| RetrySchedule.AttemptsFollowSchedule | apps/worker/src/inbox-retry.ts:41-76 | along a run with one loop the n-th attempt starts no earlier than that after the row was stored |
| PublishSchedule.ClaimsFollowSchedule | apps/worker/src/index.ts:81-98 | with one publisher the n-th claim of an outbox row comes no earlier than that after the row was written |
| DueTimes.BackoffTable | apps/worker/src/inbox-retry.ts:10-12 | the delays are 1, 2, 4, 8 and 16 seconds, and thirty from then on |
| DueTimes.PutOffByDelay | apps/worker/src/inbox-retry.ts:73-76 | an inbox row that is put off is due exactly that delay for the counted attempts later |
| DueTimes.OutboxPutOffByDelay | apps/worker/src/index.ts:92-98 | the same for an outbox row and the attempts read again |
| DueTimes.DueExactly | apps/worker/src/inbox-retry.ts:72-77 | in every run, with any number of loops, stops and replays, an inbox row is due exactly at the time set when it was last put off, replayed or stored |
| DueTimes.OutboxDueExactly | apps/worker/src/index.ts:91-99 | the same for outbox rows and any number of publishers |
| DueTimes.ReachableIsDueSoon | apps/worker/src/inbox-retry.ts:10-12 | in every reachable state every row is due within thirty seconds |
| DueTimes.DueOnSchedule | apps/worker/src/inbox-retry.ts:41-76 | along a run with one loop an undisturbed PENDING row is due for its n-th attempt exactly at the closed form after it was stored, plus what the loop was late before |
| DeadLetters.DlqAccounting | apps/worker/src/inbox-retry.ts:49-71 | FAILED writes equal dead letters plus stops before the send plus loops about to send, in total and per event |
| DeadLetters.LettersAreExhausted | apps/worker/src/inbox-retry.ts:49-71 | every dead letter reports at least the maximum of attempts |
| DeadLetters.FailedWritesAfterOne | apps/worker/src/inbox-retry.ts:49-54 | with any number of loops, after a FAILED write to a row at most one more follows for each other loop engaged with it, plus one per loop for each replay of it |
| DeadLetters.ReplayBetweenFailedWrites | apps/worker/src/replay.ts:43-53 | with one loop, or when no other is engaged with the row, two FAILED writes to a row have a replay of it between them |
| DeadLetters.DeadLettersPerEvent | apps/worker/src/inbox-retry.ts:49-71 | with any number of loops, an event has at most as many dead letters as loops times one more than its replays |
| LetterGaps.LetterExactlyWhenExhaustible | apps/worker/src/inbox-retry.ts:19-76 | in every reachable state, with any number of loops, a letter can follow without a replay of the row exactly when it can be polled, or a loop has written FAILED to it or is past its last attempt, or the loops that hold it have enough attempts between them |
| LetterGaps.SecondLetterExactlyWhen | apps/worker/src/inbox-retry.ts:50-70 | after a letter, acknowledged or not, another can follow without a replay exactly under that condition, and with one loop exactly when the row is PENDING at that send |
| LetterGaps.PendingOnlyByReplay | apps/worker/src/replay.ts:43-53 | with any number of loops, only a replay makes a row PENDING again after its FAILED write |
| LetterGaps.FailRow | apps/worker/src/inbox-retry.ts:21-76 | rounds in which older rows fail make way for any due row, which then fails once |
| LetterGaps.CountUntilLetter | apps/worker/src/inbox-retry.ts:27-76 | loops that hold a row with enough attempts between them fail on it one after the other until a letter is sent |
| Balance.FoldIsSignedSum | apps/api/src/users/users.controller.ts:13-26 | folding the signed groups in any order is the direct signed sum of the user's entries |
| Balance.FoldGroups | apps/api/src/users/users.controller.ts:20-26 | the loop's map has each currency of the groups with its signed sum |
| Balance.GetBalance | apps/api/src/users/users.controller.ts:12-35 | the reported balance is the signed sum in the first currency of the groups, which is one of the user's, and 0 SGD for a user without entries |
| Balance.BalanceIsSumOfCreditedOrders | apps/worker/src/handlers/process-order-confirmed.ts:34-42 | along every run a balance is the sum of the credits of the user's orders |
| Balance.BalanceWithinConfirmedOrders | apps/worker/src/handlers/process-order-confirmed.ts:20-42 | a balance lies between zero and the total of the user's CONFIRMED orders |
| Balance.OnlyFirstCreditsMoveBalances | apps/worker/src/handlers/process-order-confirmed.ts:33-64 | only the first credit of a confirmed order moves a balance, by its cashback |
| Fairness.NoStarvation | apps/worker/src/inbox-retry.ts:21-76 | with one loop and no replay, a row due at every poll is attempted once completed rounds exceed the attempts left ahead of it divided by the batch size |
| PublisherFairness.NoOutboxStarvation | apps/worker/src/index.ts:41-98 | the same for outbox rows and one publisher, even if sends fail |
| ConfirmOutbox.RowsPerOrder | apps/api/src/orders/orders.controller.ts:121-161 | an order has one outbox row once CONFIRMED, none before, and one more for each commit on a stale read |
| ConfirmOutbox.ConfirmedExactlyWhenAnnounced | apps/api/src/orders/orders.controller.ts:121-161 | without overlaps an order is CONFIRMED exactly when it has exactly one outbox row |
| ConfirmOutbox.RowsAreAnnouncements | apps/api/src/orders/orders.controller.ts:145-160 | the outbox rows of an order are exactly the confirms of it that yield an event id |
| ConfirmOutbox.OneConfirmAnnounces | apps/api/src/orders/orders.controller.ts:130-160 | of all confirms of a CONFIRMED order exactly one yields an event id, plus one for each commit on a stale read |
| Drain.StepStaysReady | apps/worker/src/handlers/process-order-confirmed.ts:33-64 | fault-free steps keep a repaired system repaired, also when the duplicate branch throws |
| Drain.StepCounts | apps/worker/src/inbox-retry.ts:19-82 | every fault-free step keeps the rank, and every piece of work lowers it, throwing duplicates included |
| Drain.WorkIsBounded | apps/worker/src/index.ts:38-103 | every fault-free run, however scheduled and whatever the duplicate branch does, does at most as much work as the rank |
| Drain.Progress | apps/worker/src/index.ts:125-136 | until nothing is left some worker can take a fault-free step that is work or brings it nearer, whether the duplicate branch returns or throws |
| Drain.FinishedMeansCredited | apps/worker/src/handlers/process-order-confirmed.ts:19-65 | when nothing is left every order whose event was on its way has its credit |
| Drain.FinishedMeansAllCredited | apps/worker/src/handlers/process-order-confirmed.ts:19-65 | when nothing is left and every committed message was stored, exactly the CONFIRMED orders have their credit |
| Drain.RunKeepsOnItsWay | apps/worker/src/consumer.ts:25-44 | an event that is unsent, uncommitted or in the inbox stays so along fault-free runs |
| Drain.DrainsToTheEnd | apps/worker/src/inbox-retry.ts:19-82 | from every repaired state a fault-free run reaches the end, for a duplicate branch that returns and for one that throws |
| FairDrain.CalmRoundIsFinished | apps/worker/src/index.ts:105-137 | a fault-free round of every worker in which no row and no message is handled finds that nothing is left |
| FairDrain.FairRunsFinish | apps/worker/src/index.ts:105-137 | every fault-free schedule with more rounds than the rank ends with nothing left to do, and stays so |
| Recovery.ReplayOutbox | apps/worker/src/replay.ts:58-83 | a replay of FAILED outbox rows with a limit above the table's size leaves none |
| Recovery.ReplayInbox | apps/worker/src/replay.ts:29-56 | the same for the inbox |
| Crew.FirstRuns | apps/worker/src/index.ts:111-121 | runs of the first worker of each kind are the same with any number of others |
| Recovery.Repair | apps/worker/src/replay.ts:29-83 | from every reachable state, with any number of workers, a restart and a replay of the FAILED rows repair the system |
| Recovery.RunKeepsDoomed | apps/worker/src/consumer.ts:45-51 | draining never credits an order that nothing left over names |
| Recovery.DrainedCredits | apps/worker/src/replay.ts:29-83 | every fault-free drain to the end credits every CONFIRMED order that was not lost, no other order, and no lost one unless a foreign event names it |
| Recovery.RecoveryIsBounded | apps/worker/src/index.ts:38-103 | every fault-free run after a repair does at most as much work as the rank |
| Recovery.RecoveryDrains | apps/worker/src/replay.ts:29-83 | from every reachable state repair and drain exist, end with no PENDING row, and credit exactly the CONFIRMED orders that were not lost (a lost one only if a foreign event names it) |
| Recovery.RecoveryFinishes | apps/worker/src/index.ts:105-137 | after a repair every fault-free schedule with more rounds than the rank ends with nothing left and credits exactly the CONFIRMED orders that were not lost (a lost one only if a foreign event names it) |
| RuleCache.StepKeepsCacheInv | apps/worker/src/cache/cashback-rule-cache.ts:44-82 | every call of every client keeps the cache's history consistent |
| RuleCache.StalenessIsBounded | apps/worker/src/cache/cashback-rule-cache.ts:44-105 | every returned rule was the database rule, or 5% without a cap for no row, at some time within the fill's delay plus the longest configured lifetime (or plus the call's tail, if longer) before its return |
| RuleCache.PromptIsWithinLifetime | apps/worker/src/cache/cashback-rule-cache.ts:71-105 | a rule returned within the longest configured lifetime of its cache write was in force within lifetime plus delay before the return |
| CacheCalls.RefusedWritesNothing | apps/worker/src/cache/cashback-rule-cache.ts:84-123 | a refused Redis or database call leaves both keys and the row alone |
| CacheCalls.LostWritesTheSame | apps/worker/src/cache/cashback-rule-cache.ts:95-123 | a write whose reply is lost changes the keys as an acknowledged one does |
| CacheCalls.GetReads | apps/worker/src/cache/cashback-rule-cache.ts:51-56 | a lookup before the entry expires returns its rule at once, any other is a miss |
| CacheCalls.AcquireWrites | apps/worker/src/cache/cashback-rule-cache.ts:107-115 | the lock is taken for the caller's lock time if its key is missing or expired; only an acknowledged caller fills under it, any other waits |
| CacheCalls.RecheckReads | apps/worker/src/cache/cashback-rule-cache.ts:62-69 | the second lookup comes once the configured wait is over |
| CacheCalls.FillReads | apps/worker/src/cache/cashback-rule-cache.ts:71-75 | the fill takes the row as it is, or 5% without a cap; a read that throws ends the call, after the release if it has the lock |
| CacheCalls.SetWrites | apps/worker/src/cache/cashback-rule-cache.ts:95-105 | the set replaces the entry for exactly the configured lifetime from now |
| CacheCalls.ReleaseWrites | apps/worker/src/cache/cashback-rule-cache.ts:117-123 | the release deletes the lock key, whoever set it |
| CacheCalls.UpsertWrites | apps/api/src/merchants/merchants.controller.ts:19-32 | the upsert replaces the row and leaves the key, the invalidation deletes the key |
| CacheCalls.LookupOrder | apps/worker/src/cache/cashback-rule-cache.ts:51-81 | a lookup makes its calls in this order only: get, lock, second get, read, set, release |
| CacheCalls.StopsEndCalls | apps/worker/src/cache/cashback-rule-cache.ts:44-82 | a client that stops is in no call afterwards |
| CacheCalls.DefaultIsFivePercent | apps/worker/src/cache/cashback-rule-cache.ts:72-75 | a merchant without a row gives 5% to the nearest cent, without a cap |
| SlowRelease.WithinLifetimeExactlyIfPrompt | apps/api/src/merchants/cashback-rule.service.ts:53-63 | with clients of at most a given lifetime, that holds of every answer with given delay and tail exactly when the tail is at most the lifetime |
| RuleLock.AtMostOneHolder | apps/worker/src/cache/cashback-rule-cache.ts:58-81 | if holders release in time, at most one process is between acquire and release, though release checks no owner and calls fail silently |
| RuleLock.SecondHolderExactlyAfterExpiry | apps/worker/src/cache/cashback-rule-cache.ts:107-123 | however long the holder of a timely run then takes, a second acquisition succeeds exactly when it has outlived its lock |
| RuleCoherence.CoherentAnswersAreCurrent | apps/api/src/merchants/merchants.controller.ts:18-32 | from a coherent state every rule returned before the next upsert is the current one |
| RuleCoherence.StaleExactly | apps/worker/src/cache/cashback-rule-cache.ts:51-81 | in any state, a rule that is not current can be returned before the next upsert exactly when a fill carries it or a live entry does and there is a client |
| RuleCoherence.StaleExactlyWithRacingFill | apps/api/src/merchants/merchants.controller.ts:18-32 | after an upsert, any steps, and an invalidation that takes effect, exactly when a fill that read the old rule is still under way |
| Pipeline.CreditAt | packages/domain/src/process-order-confirmed.ts:46-58 | the duplicate branch finds the order's credit exactly when it has one |
| Handlers.HandlersAgreeOnSnapshot | packages/domain/src/process-order-confirmed.ts:22-60 | with the snapshot of the merchant's row both handlers do and reply the same |
| Handlers.HandlerPosts | apps/worker/src/handlers/process-order-confirmed.ts:19-65 | the handler has the pipeline's ledger effect, fails exactly when the order cannot be credited, and reports the order's entry |
| Handlers.HandlerReplies | apps/worker/src/handlers/process-order-confirmed.ts:20-62 | fails for a missing or unconfirmed order; otherwise reports the order's cashback and currency, whether this call credited it, and the new or the earlier entry |
| Handlers.CachedHandlerAgreesWithDirect | apps/worker/src/handlers/process-order-confirmed.ts:26-64 | with any rule the cache returned, the worker's handler agrees with the domain handler on the rule table of a time within the staleness bound |
| Handlers.FreshCacheAgreesWithDirect | apps/worker/src/cache/cashback-rule-cache.ts:71-78 | with a fresh cache it is identical to the domain handler on the current table, until the next upsert |
| Handlers.EmptyCacheAgreesWithDirect | apps/worker/src/cache/cashback-rule-cache.ts:44-82 | the same from a cache without a live entry and without calls under way |
| CreditRules.CreditsUseRecentRules | apps/worker/src/handlers/process-order-confirmed.ts:24-42 | if no handler takes longer than a bound from the rule's return to the insert, every credit is the order's cashback under a rule in force within that bound plus the staleness bound before the credit was written |
| Idempotency.SavedReplyStays | apps/api/src/common/idempotency/idempotency.service.ts:20-53 | over requests one after the other a saved response is never replaced or removed |
| Idempotency.CompletedIsSaved | apps/api/src/orders/orders.controller.ts:57-65 | a completed keyed request has its response saved under its key and scope |
| Idempotency.LaterRequestsReplay | apps/api/src/orders/orders.controller.ts:27-35 | every later request with the key changes nothing; it gets a conflict if it is a create with another body, and the identical response otherwise |
| Idempotency.CreateInserts | apps/api/src/orders/orders.controller.ts:37-86 | a create without a saved response inserts one CREATED order with the body's data and replies with its id and data |
| Idempotency.SecondCreate | apps/api/src/orders/orders.controller.ts:28-35 | of two creates with one key the second inserts nothing: the first reply for the same body, a conflict for any other |
| Idempotency.ConfirmReplies | apps/api/src/orders/orders.controller.ts:121-161 | a confirm without a saved response: rejected exactly for a missing or CANCELLED order, no event id for a CONFIRMED one, the added row's id for a CREATED one |
| Idempotency.SecondConfirm | apps/api/src/orders/orders.controller.ts:130-134 | a repeated confirm changes nothing and has no event id |
| Idempotency.OnlyOwnSlot | apps/api/src/common/idempotency/idempotency.service.ts:38-52 | a request adds at most the response of its own key and scope |
| Idempotency.OrdersPerKey | apps/api/src/orders/orders.controller.ts:25-66 | a key has created one order if its response is saved, plus one for each death between insert and save |
| Idempotency.OneOrderPerKey | apps/api/src/orders/orders.controller.ts:25-66 | over completed, non-overlapping requests a key creates at most one order |
| Overlap.AloneIsServed | apps/api/src/orders/orders.controller.ts:27-65 | lookup, effect and save of a request that nothing interrupts are the served request |
| Overlap.MissesAccounted | apps/api/src/common/idempotency/idempotency.service.ts:38-52 | missed lookups are saved replies, dropped requests and requests under way; saved replies are the replaced ones plus the one that stays |
| Overlap.OrdersAreMisses | apps/api/src/orders/orders.controller.ts:29-45 | a key has created one order for each missed lookup, but for processes that died before the insert or have yet to reach it |
| Overlap.OneOrderExactlyWithoutOverlap | apps/api/src/orders/orders.controller.ts:29-63 | when all requests of a key completed it created at most one order, and no response was replaced, exactly when no lookup missed during another request |
| Overlap.LastSaveStays | apps/api/src/common/idempotency/idempotency.service.ts:38-52 | the saved response is that of the request that saved last |
| Overlap.OverlapCreatesTwice | apps/api/src/orders/orders.controller.ts:29-63 | two overlapping creates make two orders; the first caller keeps a response that later callers never get |
| Overlap.OverlappingConfirmsNeverConflict | apps/api/src/orders/orders.controller.ts:92-119 | however confirms overlap and whoever dies, each is rejected or answered for its own order, and none is told that its key was reused |
| Idempotency.ConfirmNeverConflicts | apps/api/src/orders/orders.controller.ts:92-104 | over sequential requests the conflict for a reused key is unreachable in confirm |
| Idempotency.ScopeTextsAreDistinct | apps/api/src/orders/orders.controller.ts:93 | the scope text of a confirm determines the order and is never the create scope |
| Idempotency.ConfirmIsPipelineStep | apps/api/src/orders/orders.controller.ts:121-161 | the transaction is the pipeline's atomic confirm, and yields an event id exactly when it changes something |
| Idempotency.OrdersController.ConfirmAndOutbox | apps/api/src/orders/orders.controller.ts:121-162 | rejected exactly for a missing or CANCELLED order; no change and no event id for a CONFIRMED one; for a CREATED one the status and one outbox row with the order's own data, whose id is in the reply |
| Idempotency.OrdersController.Create | apps/api/src/orders/orders.controller.ts:20-87 | without a saved response one CREATED order with the body's data; with one no change, and the saved response for the same body and a conflict for any other |
| Idempotency.OrdersController.Confirm | apps/api/src/orders/orders.controller.ts:92-119 | without a saved response the confirm transaction; with one no change and that response |
| Workers.OthersStayPut | apps/worker/src/index.ts:111-121 | whatever the other processes do, a process stays where it is and no row is gone |
| Workers.Backend.FollowsPipeline | apps/worker/src/index.ts:105-137 | whatever the methods have done is a run of the pipeline, so its tables are a reachable state |
| Workers.Backend.FindDueOutbox | apps/worker/src/index.ts:39-48 | the batch is the poll step's |
| Workers.Backend.ClaimRow | apps/worker/src/index.ts:54-59 | the row gets one more attempt if it is PENDING and stays as it is otherwise, and the count says which |
| Workers.Backend.SendEvent | apps/worker/src/index.ts:61-75 | the topic gets the event with the row's id and payload, or the row fails |
| Workers.Backend.MarkSent | apps/worker/src/index.ts:77-80 | the row becomes SENT and nothing else of it changes |
| Workers.Backend.RefreshRow | apps/worker/src/index.ts:82-83 | the attempts are those the row has now |
| Workers.Backend.SettleOutboxRow | apps/worker/src/index.ts:85-99 | FAILED at the maximum, otherwise PENDING and due exactly the backoff from now, whatever the status was |
| Workers.Backend.SettleRow | apps/worker/src/index.ts:85-99 | the row is settled by the attempts read before, whatever its status is by now, and an error here leaves the pass |
| Workers.Backend.HandlePublishFailure | apps/worker/src/index.ts:81-101 | the catch branch ends with the settled row, or leaves the pass |
| Workers.Backend.PublishRow | apps/worker/src/index.ts:53-101 | the last call of a row is a claim that found it taken, the SENT mark, or the settlement, unless the publisher leaves |
| Workers.Backend.PublishOnce | apps/worker/src/index.ts:38-103 | one pass takes only pipeline steps and goes through its whole batch unless it leaves |
| Workers.Backend.ProcessOrderConfirmed | apps/worker/src/handlers/process-order-confirmed.ts:14-74 | the handler's ledger is the specified one, and it returns exactly for a creditable order |
| Workers.Backend.FindDueInbox | apps/worker/src/inbox-retry.ts:20-25 | the batch is the poll step's |
| Workers.Backend.TryRow | apps/worker/src/inbox-retry.ts:29-35 | the ledger is posted for the order of the fetched payload, and the call is done exactly for a creditable order |
| Workers.Backend.MarkRetried | apps/worker/src/inbox-retry.ts:36-39 | the row becomes PROCESSED whatever its status was |
| Workers.Backend.CountAttempt | apps/worker/src/inbox-retry.ts:41-47 | the row gets one more attempt and the call reports that number; an error here leaves the loop |
| Workers.Backend.SettleInboxRow | apps/worker/src/inbox-retry.ts:49-76 | FAILED at the maximum, otherwise due exactly the backoff from now, and nothing else of the row changes |
| Workers.Backend.SettleAttempt | apps/worker/src/inbox-retry.ts:49-76 | the same by the counted attempts, unless the call is refused, and at the maximum a letter is due next |
| Workers.Backend.SendDeadLetter | apps/worker/src/inbox-retry.ts:55-70 | the dead-letter topic gets the row's source and payload with the counted attempts |
| Workers.Backend.HandleRetryFailure | apps/worker/src/inbox-retry.ts:40-78 | the catch branch ends with the row put off or its letter sent, or leaves the loop |
| Workers.Backend.RetryRow | apps/worker/src/inbox-retry.ts:28-78 | the last call of a row is the PROCESSED mark, the settlement or the letter, unless the loop leaves |
| Workers.Backend.RetryRound | apps/worker/src/inbox-retry.ts:19-80 | one round takes only pipeline steps and goes through its whole batch unless it leaves |
| Workers.Backend.PassOver | apps/worker/src/consumer.ts:21-23 | a message that is no OrderConfirmed event is passed over without effect |
| Workers.Backend.UpsertInbox | apps/worker/src/consumer.ts:25-37 | the inbox gets a PENDING row that is due now, or keeps the one it has for the id, and the row reported has the id |
| Workers.Backend.TryMessage | apps/worker/src/consumer.ts:39-40 | the ledger is posted for the order the message names |
| Workers.Backend.MarkConsumed | apps/worker/src/consumer.ts:41-44 | the stored row becomes PROCESSED whatever its status was |
| Workers.Backend.HandleMessage | apps/worker/src/consumer.ts:17-52 | the handler never throws: the consumer ends behind the message, or starts over at the committed offset |
| Workers.Backend.RewindInboxRow | apps/worker/src/replay.ts:44-52 | the row is PENDING and due now, with the attempts fetched or zero |
| Workers.Backend.RewindOutboxRow | apps/worker/src/replay.ts:70-79 | the same for an outbox row |
| Workers.Backend.ReplayInbox | apps/worker/src/replay.ts:29-56 | the tool fetches with its filter, limit and flag, and goes through all fetched rows unless it stops or an update fails; with ReplayTool.TouchesOnlyMatches it touches no other row |
| Workers.Backend.ReplayOutbox | apps/worker/src/replay.ts:58-83 | the same for the outbox |
| CacheClient.OthersLeaveReader | apps/api/src/merchants/cashback-rule.service.ts:38-64 | other clients never move a call, and time does not run backwards |
| CacheClient.RuleStore.ReadCache | apps/worker/src/cache/cashback-rule-cache.ts:84-93 | a hit is a live entry and the call's answer, anything else a miss |
| CacheClient.RuleStore.AcquireLock | apps/worker/src/cache/cashback-rule-cache.ts:107-115 | only an acknowledged set of a free lock counts as the lock |
| CacheClient.RuleStore.Wait | apps/worker/src/cache/cashback-rule-cache.ts:62-64 | the call goes on no earlier than the wait after its failed acquisition |
| CacheClient.RuleStore.FindRule | apps/worker/src/cache/cashback-rule-cache.ts:71-75 | the rule is the row's as it is now, or 5% without a cap |
| CacheClient.RuleStore.WriteCache | apps/worker/src/cache/cashback-rule-cache.ts:95-105 | unless refused, the entry holds the rule for exactly the configured lifetime from now; the rule is the answer whether or not the set took place |
| CacheClient.RuleStore.ReleaseLock | apps/worker/src/cache/cashback-rule-cache.ts:117-123 | the lock is deleted without a check, and the call ends even if that fails |
| CacheClient.RuleStore.Fill | apps/worker/src/cache/cashback-rule-cache.ts:71-81 | read, set and, with the lock, release; the release follows also when the read throws |
| CacheClient.RuleStore.Lookup | apps/api/src/merchants/cashback-rule.service.ts:38-64 | a call returns the newest answer, or nothing because it stopped or the database threw |
| CacheClient.RuleStore.GetRule | apps/worker/src/cache/cashback-rule-cache.ts:44-82 | what a call returns was the merchant's rule when it was read, and a hit comes within a configured lifetime of the cache write |
| CacheClient.RuleStore.UpsertRule | apps/api/src/merchants/merchants.controller.ts:18-39 | the row is written first, then the entry is deleted unless that call fails |
| Scenarios.OverlappingConfirmsAnnounceTwice | apps/api/src/orders/orders.controller.ts:121-161 | a run in which two confirms of one order both write an outbox row |
| Scenarios.ReplayBeforeSend | apps/worker/src/inbox-retry.ts:50-70 | a run after which two dead letters follow one replay |
| Scenarios.TwoLoopsSendTwice | apps/worker/src/inbox-retry.ts:19-76 | a run with two loops and no replay with two letters and two attempts where one is the maximum, as many as there can be |
| Scenarios.ReusedIdMarksTheWrongRow | apps/worker/src/consumer.ts:28-44 | a reachable PROCESSED row whose own payload names no order |
| Scenarios.SwallowedUpsertLosesOrder | apps/worker/src/consumer.ts:45-51 | a run that loses a confirmed order through a swallowed upsert |
| SlowRelease.SlowReleaseReturnsOldRule | apps/worker/src/cache/cashback-rule-cache.ts:77-81 | for any limits and delay and any tail above the lifetime, a run that returns a rule not in force in that time |
| Scenarios.SentRowGoesBack | apps/worker/src/index.ts:54-99 | a run in which a SENT row becomes PENDING again with two publishers |

## Left out

- Kafka, Prisma and Redis clients, connections, retryable error codes and process exit codes: only their effects are steps.
- The endless loops and their sleeps: the model has one pass or one round at a time, and any number of them in a run.
- Topics with several partitions: `infra/k8s/base/redpanda-topics-job.yaml` creates one.
- JSON text, UUIDs, number conversion in responses and SHA-256: abstract payloads, positions as ids, integer cents, an injective hash.
- Decimal arithmetic beyond 20 significant digits: products of cents and rates are exact here.
- The `expiresAt` column, which no code reads.
- `lastError`, `processedAt` and `sentAt`, which no code reads back.
- The fallback of one attempt for a vanished row at `apps/worker/src/index.ts:83`: rows are never deleted.
- Cached text that is not a valid rule: it counts as a failed read.
- Order cancellation and DEBIT entries: no code performs them; the statuses and signs are kept for the guards.
- Throttling, envelopes, filters, health, metrics, dashboards and infrastructure.
- Replay argument parsing and console output: the filter, the limit and the reset flag are parameters.
- RetrySchedule.AttemptsFollowSchedule: stated for a row without a stop or a replay; a stop between count and reschedule leaves the row due at once, and so does a second loop that polled it before.
- Delivery.ForeignProcessedMeansCredited: one direction only; ForeignEvents.MarkedUncreditedExactlyIfMisled has the exact condition for what can still happen to a row.
- Workers.Backend.Others: the body takes no step; the contract is what every method relies on, and Workers.OthersStayPut shows that the others' steps meet it.
- Fault-free runs of several workers of one kind after a repair: the work bound is for one of each, with the others down.
- Workers.Backend.ProcessOrderConfirmed: the cache lookup inside the transaction is an arbitrary rule here; CacheClient models the lookup.
