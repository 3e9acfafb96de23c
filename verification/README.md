# A verified model of the payment pipeline

The service accepts payments over HTTP, stores each one together with an outbox row in one
transaction, publishes the row to RabbitMQ from a dispatcher, processes the payment in a consumer and
reports the outcome to the merchant by webhook, with three delayed retries and a dead-letter queue.
What it promises (nothing accepted is lost, one payment per idempotency key, one outcome per payment,
bounded retries) is promised by no single function. It belongs to all of them together, running in
parallel and failing at any point. This project states these promises for every run and proves them.

## How it is built

**The step system** (`Pipeline`). A state holds the two tables, open requests, open dispatcher batches
with their row locks, the broker's queues, running handlers and a history nobody reads. A step is one
statement of one participant: a lookup, an insert, a commit, a fetch with locks, a publish, a mark, a
bump, a delivery, a read, an outcome update, a webhook post, a republish, an ack, reject or nack, a TTL
expiry, a tick of the clock. Any number of requests, dispatchers and handlers interleave. Any of them
may stop between two steps: `Withdraw` and `AbortBatch` end a transaction without a commit, `Requeue`
takes a delivery back while its handler may still be running, `Die` ends such a handler. `Run` says
that a sequence of steps is possible and `Exec` computes the state it leads to. `Reached(c, s)` means
that some run from the empty system ends in `s`.

**The invariants** (`Creation`, `Dispatching`, `NoLoss`, `Chains`, `Outcomes`, `RetryQueues`) are each
kept by every step; `Guarantees` draws the conclusions for every reached state.

**What is not always true** (`Loss`, `Overlap`). Two promises fail for some configurations or
schedules. The runs that break them are built step by step, and the exact condition is proved.

**Quiescence** (`Quiescence`, `AtRest`). A natural number drops with every step of progress, so the
system left alone comes to rest, and at rest everything is done.

**What clients and merchants see** (`Requested`, `Replies`, `SentOnce`, `Unposted`). What is stored of a
request, the answers to a key once it is taken, when a payment is sure to be decided once, and what becomes of a payment whose webhook never goes
out, over all runs.

**The code that changes state** (`Messaging`, `OutboxDispatcher`, `DispatcherLoop`, `PaymentService`,
`Consumer`, `Topology`) is written as classes and methods with the source's own loops and branches,
and proved against exact specifications. `BatchRun`, `RequestRun` and `HandlerRun` then show that
whatever such a method may do is a run of the step system with the same tables, the same queues and the
same answers, so the guarantees hold for it. For a request and a handler this includes what other
participants do between its first read and its writes, and for a handler between its update and its webhook.

**Arithmetic and pure code** (`RetryHeaders`, `Backoff`, `OutboxQuery`, `Amounts`).

## Where the code differs from its documentation

The model follows the code.

- The outcome update filters on the id only (`src/payments_processor/repositories/payment_repository.py:53-58`),
  so the consumer does not deduplicate when two handlers of one payment overlap.
  `Overlap.OverwritePossibleIffHazard` gives the exact condition and `Loss.WebhooksCanContradict` a run in
  which the merchant is told both outcomes. "Written once" holds for a payment under the hypothesis that
  handler windows on it do not overlap (`Guarantees.AlwaysExclusive`). `SentOnce` shows that this is so
  when its event was sent once and none of its deliveries was taken back.
- A resend is not always a replay: a request that loses the insert race gets a conflict even if its body
  is the winner's (`src/payments_processor/services/payment_service.py:38-39`).
  `Replies.ResendIsReplayedIff` gives the exact condition and `Replies.IdenticalResendCanConflict` the run.
- A webhook URL that is not allowed is not retried, although README.md:183 says so: its error is no
  `WebhookSendError` (`src/payments_processor/errors/webhook_errors.py:11,34`), so the handler ends in `nack`
  and the event goes to the dead-letter queue without a reason header. A failed name resolution counts as
  a URL that is not allowed. `Unposted.UnpostedIsNeverRetried` states what follows for whole runs.
- The retry limit is configurable, but there are three retry queues. With a higher limit a payment can be
  lost, unless publishing to a missing queue raises. `Loss.NothingLostIff` is the exact condition.

## Assumptions about Postgres and RabbitMQ

Commits are atomic and read committed; an insert waits while another open transaction holds its key;
`FOR UPDATE` locks last until the end of the transaction and `SKIP LOCKED` skips them. Queues are
durable and first in first out, except that redelivered messages may come back in any place (a handler
may take any message of `payments.new`). Unacknowledged deliveries may come back at any time.
Dead-lettering keeps the headers and adds `x-death`. Topic bindings are exact keys (section 3.1.3.3 of
the AMQP 0-9-1 specification). Whether publishing an unroutable message raises is a parameter,
`returnRaises`. Identifiers are fresh.

## Model

| member | source | states |
|---|---|---|
| `Guarantees.InvariantStep` | src/payments_processor/consumer/main.py:65-112 | every step of every participant keeps creation, lock, send, timing, chain, outcome and queue-order invariants |
| `Guarantees.InvariantAlways` | src/payments_processor/consumer/main.py:65-112 | so all of them hold after every run from the empty system |
| `Guarantees.GuardsNeverBlock` | src/payments_processor/outbox_dispatcher/main.py:30-41 | in every reached state the conditions that keep the step functions defined hold, so they rule out no publish, bump or outcome commit |
| `Guarantees.NoPaymentLost` | src/payments_processor/outbox_dispatcher/main.py:29-43 | with at most three retries, or if unroutable publishes raise: in every reached state each committed payment has a pending row, a message in some queue or held unacknowledged, or a completed webhook |
| `Loss.UnsafeLoses` | src/payments_processor/configs/consumer_config.py:6 | otherwise, for every such configuration that fetches anything, a run loses a payment: its last copy is published to a queue that does not exist and then acknowledged |
| `Loss.NothingLostIff` | src/payments_processor/constants/payments_constants.py:26 | no run loses a payment if and only if there are at most three retries, or unroutable publishes raise, or nothing is ever fetched |
| `Guarantees.OnePaymentPerKey` | src/payments_processor/services/payment_service.py:73-103 | all accepted answers for a key name the same payment and had its terms, and no other committed payment has the key |
| `Guarantees.ConflictMeansTaken` | src/payments_processor/services/payment_service.py:129-147 | every conflict ever answered is explained by exactly one committed payment with that key |
| `Guarantees.CommittedKeyIsSeen` | src/payments_processor/services/payment_service.py:73-92 | once a payment is committed, no request with its key is told that it is free, or inserts |
| `Replies.CommittedKeyDecides` | src/payments_processor/services/payment_service.py:73-83 | once a payment is committed, in every run the later answers to its key are that payment exactly if the terms are those stored, whatever description and meta say, and a conflict otherwise, with no more exceptions than open requests that had found the key free before |
| `Replies.RaceLoserNeverAccepted` | src/payments_processor/services/payment_service.py:34-41 | a request that found its key free and whose key is taken by now is never accepted, also with identical terms: whatever others do, its next step is its last, answered with a conflict or withdrawn, and leaves both tables as they are |
| `Replies.OpenRequestIsDecided` | src/payments_processor/services/payment_service.py:73-103 | once the key is taken, the answer of every open request is decided by its own phase and terms alone, whatever other requests do, and nothing is stored |
| `Replies.ResendIsReplayedIff` | src/payments_processor/services/payment_service.py:73-83 | a resend with the stored terms is answered with the stored payment if and only if it had not looked the key up before the payment was committed, and with a conflict otherwise |
| `Replies.IdenticalResendCanConflict` | src/payments_processor/services/payment_service.py:34-41 | for every key and body a run with two identical requests, one answered with the payment, the other with a conflict |
| `Guarantees.OneRowPerPayment` | src/payments_processor/services/payment_service.py:85-101 | every committed payment has exactly one outbox row, and the row's event names it |
| `Guarantees.OnePaymentPerRow` | src/payments_processor/actions/payment_action.py:31-42 | every outbox row belongs to a committed payment, through all create, replay, conflict, publish and bump steps |
| `Guarantees.SendsAreConserved` | src/payments_processor/outbox_dispatcher/main.py:29-42 | a row's sends are its publication, the sends of rolled-back batches, publishes that raised after being accepted, and the one in flight; a clean row is sent exactly once |
| `Guarantees.BatchesAreDisjoint` | src/payments_processor/repositories/outbox_repository.py:40-52 | batches open at the same time never share a row |
| `Guarantees.BatchIsAtomic` | src/payments_processor/outbox_dispatcher/main.py:29-43 | a commit leaves each row of the batch published and sent, or still pending with one more attempt and a time computed from the attempts it had, and every other row untouched |
| `Guarantees.AbortRestoresRows` | src/payments_processor/outbox_dispatcher/main.py:54-66 | a rolled-back batch leaves the table as it was, and all its rows eligible and unlocked, while its sends remain counted |
| `Guarantees.FailuresAreSpaced` | src/payments_processor/services/outbox_service.py:35-50 | a row's attempts count its committed failures, and these span at least the accumulated capped backoff in closed form |
| `Guarantees.PaymentAlwaysFound` | src/payments_processor/consumer/main.py:80-109 | in every run each handled message refers to a committed payment, so the not-found branch is never taken |
| `Guarantees.RetryQueueContents` | src/payments_processor/consumer/main.py:37-62 | retry queue n holds only messages with count n within the limit, due no earlier than 2, 10 or 42 seconds after their first failure for n = 1, 2, 3, with n failures unless a delivery was lost |
| `Guarantees.NewQueueContents` | src/payments_processor/messaging/retry_headers.py:7-32 | a message in payments.new has a count in range that comes from the explicit header, never from x-death, and after one, two or three retries has waited 2, 10 or 42 seconds since its first failure |
| `Guarantees.ExhaustedUsedEveryRetry` | src/payments_processor/consumer/main.py:41-51 | a message dead-lettered as exhausted has the limit as its count, each retry had its queue, and at least one send more than the limit has failed, exactly that many when no delivery was lost |
| `Loss.ExhaustedReachableIff` | src/payments_processor/consumer/main.py:41-51 | some run dead-letters a message as exhausted if and only if the limit is at most three and something is ever fetched |
| `Guarantees.RetryQueueInOrder` | src/payments_processor/messaging/topology.py:34-43 | in every reached state the entries of a retry queue expire in the order they entered |
| `RetryQueues.HeadIsEnough` | src/payments_processor/messaging/topology.py:34-43 | taking expired entries from the head only leaves exactly the unexpired ones |
| `RetryQueues.ExpireRun` | src/payments_processor/messaging/topology.py:34-43 | the broker's expiry steps reach that state, put exactly the expired messages into payments.new, in order and marked as dead-lettered, and change nothing else |
| `Guarantees.WebhooksAreTruthful` | src/payments_processor/consumer/main.py:82-96 | every webhook ever posted carried a final outcome that had been committed before |
| `Guarantees.WebhooksAgree` | src/payments_processor/services/webhook_service.py:66-77 | without overlapping windows on it, all webhooks of a payment carry the same outcome, the one stored |
| `Guarantees.RunsRefineView` | src/payments_processor/consumer/main.py:80-93 | without overlapping windows on any payment, each step of a run is a step, or a stutter, of the machine in which a payment leaves PENDING once |
| `Guarantees.FinalStaysFinal` | src/payments_processor/repositories/payment_repository.py:47-60 | in that machine status and processing time never change again |
| `Guarantees.OutcomeWrittenOnce` | src/payments_processor/repositories/payment_repository.py:47-60 | without overlapping windows on it, the outcome a payment has at any moment of a run is its outcome at the end, whatever happens to other payments |
| `SentOnce.SentOnceNeverOverlaps` | src/payments_processor/consumer/main.py:80-112 | if the event of a payment was sent at most once and the broker took none of its deliveries back, handler windows on it never overlapped, in any run |
| `SentOnce.CleanPaymentIsDecidedOnce` | src/payments_processor/outbox_dispatcher/main.py:29-43 | so for a payment whose row was never rolled back after a send and never doubtful, and with no delivery taken back, the outcome is written at most once and all webhooks agree with it |
| `Overlap.OverwritePossibleIffHazard` | src/payments_processor/repositories/payment_repository.py:53-58 | from every reached state, without further reads, an outcome can be overwritten if and only if two handlers of the payment are between read and commit, or one is and the payment is already processed |
| `Loss.WebhooksCanContradict` | src/payments_processor/repositories/payment_repository.py:53-58 | a run in which two webhooks of one payment carry opposite outcomes |
| `Quiescence.ProgressLowers` | src/payments_processor/consumer/main.py:37-112 | the measure over requests, rows, batches and messages, weighted by the retries left, drops with every step of progress: every ending of a handler, withdrawn requests and the rollback of a batch that cannot go on included |
| `AtRest.ProgressIsBounded` | src/payments_processor/outbox_dispatcher/main.py:54-71 | a system left alone takes at most that many steps of progress, for every configuration |
| `AtRest.ComesToRest` | src/payments_processor/outbox_dispatcher/main.py:54-71 | from every reached state, for every retry limit, the system left alone can come to rest |
| `AtRest.StopsOnlyAtRest` | src/payments_processor/consumer/main.py:95-112 | no step of progress is possible if and only if the system is at rest; then, unless republishes can vanish, each accepted payment has been notified or has a message in the dead-letter queue |
| `Loss.WithoutFetchesNoRest` | src/payments_processor/outbox_dispatcher/main.py:54-71 | with a batch size of zero a system that has accepted a payment is never at rest |
| `OutboxDispatcher.OutboxSession.FetchPending` | src/payments_processor/repositories/outbox_repository.py:40-52 | in the columns themselves: distinct PENDING rows that are due and not locked, by next attempt time and then by creation time, at most the limit; a row is left out only when the answer is full, and never for one that orders after it; exactly the locks of the rows returned are taken |
| `OutboxQuery.FetchInColumns` | src/payments_processor/repositories/outbox_repository.py:40-52 | the same of every answer the step system allows a dispatcher: what it returns, in which order, and what it may leave out, in the columns of the table |
| `OutboxQuery.FetchIsDeterminedUpToTies` | src/payments_processor/repositories/outbox_repository.py:40-52 | the query leaves no freedom but ties: two answers agree in length and, at every place, in next attempt time and creation time |
| `OutboxQuery.FetchSize` | src/payments_processor/repositories/outbox_repository.py:40-52 | it returns as many rows as are eligible, up to the limit |
| `OutboxDispatcher.OutboxSession.MarkPublished` | src/payments_processor/repositories/outbox_repository.py:54-64 | one row becomes PUBLISHED with its time and no error, all its other columns as before; no row, no effect |
| `OutboxDispatcher.OutboxSession.BumpAttempt` | src/payments_processor/repositories/outbox_repository.py:66-81 | one row gets one more attempt, the error and the next time, all its other columns as before; no row, no effect |
| `OutboxDispatcher.ProcessRow` | src/payments_processor/outbox_dispatcher/main.py:31-41 | one row: marked if its publish succeeds, bumped with the backoff of its attempts if it raises; with a database that does not fail an exception leaves the loop only for a publish that raises with 1024 attempts or more |
| `OutboxDispatcher.ProcessBatch` | src/payments_processor/outbox_dispatcher/main.py:21-43 | the batch commits as a whole, with one update per fetched row and the messages of the accepted ones in order; or an exception ends it, the table is as before and exactly the messages accepted so far are out; with a database that does not fail, only a publish that raises for a row whose delay overflows does that |
| `BatchRun.BatchIsARun` | src/payments_processor/outbox_dispatcher/main.py:21-43 | from every reached state, what `ProcessBatch` does when it commits is a run of one dispatcher's steps with the same table and queues |
| `BatchRun.AbortedBatchIsARun` | src/payments_processor/outbox_dispatcher/main.py:29-66 | what it does when an exception ends it is a run of one dispatcher that rolls back, with the same messages out and the table as before |
| `DispatcherLoop.FetchTwice` | src/payments_processor/outbox_dispatcher/main.py:54-71 | two fetches in a row are one fetch with the limits added |
| `DispatcherLoop.MidwayTwice` | src/payments_processor/outbox_dispatcher/main.py:54-71 | two batches in a row act like one batch |
| `DispatcherLoop.RunUntilSleep` | src/payments_processor/outbox_dispatcher/main.py:46-71 | without failures and new eligible rows, the loop until it sleeps acts like one unlimited batch: every eligible unlocked row sent and marked, in order |
| `DispatcherLoop.Drain` | src/payments_processor/outbox_dispatcher/main.py:54-71 | n eligible rows are cleared in n / batch size iterations, rounded up, and it sleeps only when none is left |
| `Backoff.UncappedAreExactlyBelow` | src/payments_processor/services/outbox_service.py:47-50 | the delays below the cap are exactly the first ones |
| `Backoff.DelaySumClosedForm` | src/payments_processor/services/outbox_service.py:47-50 | the accumulated delay is initial * (2^m - 1) + (k - m) * cap, with m uncapped terms |
| `RetryHeaders.ReadsBackWhatWasWritten` | src/payments_processor/messaging/retry_headers.py:7-39 | the count read is the count written, for every integer and whatever x-death says |
| `RetryHeaders.EveryFormIsRead` | src/payments_processor/messaging/retry_headers.py:7-25 | the count read from each form of the header: a number, text that is a number, anything else, no header with and without a usable x-death |
| `RetryHeaders.FallbackDecides` | src/payments_processor/messaging/retry_headers.py:11-25 | x-death can matter if and only if there is no explicit count |
| `Topology.Definitions.DeclareTopology` | src/payments_processor/messaging/topology.py:53-83 | on an empty broker, afterwards each address reaches exactly the queue the model routes to, and queues, TTLs of 2000, 8000 and 32000 ms, dead-letter targets and bindings are exactly these |
| `Messaging.Publisher.Publish` | src/payments_processor/messaging/publishers.py:13-26 | an accepted event joins the queue its routing key leads to, without headers; a refused one changes nothing |
| `Messaging.Publisher.PublishToDlx` | src/payments_processor/messaging/publishers.py:29-42 | the same through the dead-letter exchange |
| `Messaging.Publisher.PublishToQueue` | src/payments_processor/messaging/publishers.py:45-58 | straight to a queue: a message for retry queue 1, 2 or 3 joins its end and is due 2, 8 or 32 seconds later, and nothing else changes |
| `Pipeline.RetryDelays` | src/payments_processor/constants/payments_constants.py:26 | the delays of the retry queues are 2, 8 and 32 seconds, and these are the TTLs declared in milliseconds for the queues |
| `PaymentService.ConflictingFields` | src/payments_processor/services/payment_service.py:129-147 | a field is listed exactly if it differs, and none is listed exactly if the terms agree |
| `PaymentService.PaymentSession.CreatePayment` | src/payments_processor/services/payment_service.py:57-103 | a new payment and its row are written, uncommitted, exactly if the key is free at the lookup and at the insert: the payment is written with the key, amount, currency, URL, description and meta of the request, PENDING and without a processing time, and its row PENDING, due at once, without attempts; a request whose key is stored with the same terms is answered with that payment; a URL that is not allowed, an amount that is not positive, a key taken meanwhile and other terms each have their own error |
| `PaymentService.CreatePayment` | src/payments_processor/actions/payment_action.py:22-42 | both rows become visible at once, column by column as requested, when the payment is new; nothing of this request in any other case; the answer is as above |
| `Requested.StoredAsRequested` | src/payments_processor/repositories/payment_repository.py:18-38 | in every run each stored payment has the key, the terms and the description and meta of the request that created it: that request began with them, and its commit made the payment and its one row appear at once, PENDING, due from the moment the request began |
| `Requested.AskedAlways` | src/payments_processor/repositories/payment_repository.py:47-60 | key, terms, description and meta of a stored payment never change in any run |
| `Requested.OpenAsBegun` | src/payments_processor/services/payment_service.py:57-92 | in every run an open request holds the key and the body it began with, whatever others do |
| `PaymentService.PaymentSession.ApplyProcessingOutcome` | src/payments_processor/services/payment_service.py:112-127 | status and processing time are set whatever the status was; an unknown payment is an error |
| `PaymentService.CreationKeepsKeysUnique` | src/payments_processor/models/payment_model.py:63-67 | creation keeps idempotency keys unique |
| `PaymentService.StoredKeyDecides` | src/payments_processor/services/payment_service.py:73-83 | so once stored, a request with the key is answered with that payment if the terms are those stored and with a conflict if not |
| `RequestRun.CreateIsARun` | src/payments_processor/services/payment_service.py:57-103 | for a request that finds its key free, whatever others do between lookup and insert: any answer the contract of the method allows is the answer of a run of the request's steps with the same tables |
| `RequestRun.ReplayIsARun` | src/payments_processor/services/payment_service.py:73-83 | the same for a request that finds its key |
| `Consumer.RetryOrDlq` | src/payments_processor/consumer/main.py:30-62 | at the limit the message is dead-lettered with its count, the dead-letter reason and no retry reason; below it, it waits in the next retry queue with the count raised, the retry reason and no dead-letter reason, for 2, 8 or 32 seconds; with no such queue it is gone |
| `Consumer.ObtainPayment` | src/payments_processor/consumer/main.py:80-93 | a pending payment is processed and committed before it is handed on, a processed one is handed on as stored, and each failure ends in its own settlement |
| `Consumer.HandlePaymentCreated` | src/payments_processor/consumer/main.py:65-112 | tables, queues and settlement for every combination of processing, commit, URL check, request and republish results, and for deliveries the broker has taken back |
| `Consumer.WebhookShowsStored` | src/payments_processor/consumer/main.py:82-96 | a handler that reaches the webhook shows what it has stored or what was stored when it read, never a pending payment |
| `Consumer.NothingLeftIff` | src/payments_processor/consumer/main.py:95-112 | the number of messages a handler leaves; a delivery not taken back leaves none if and only if the webhook was delivered, or an unsent one was passed on to a queue that does not exist |
| `Consumer.NoQueueIff` | src/payments_processor/consumer/main.py:37-62 | that queue does not exist if and only if the count is three or more and below the limit |
| `Consumer.SendWebhook` | src/payments_processor/services/webhook_service.py:26-64 | delivered exactly for an allowed URL and a status below 400; a send error exactly for an allowed URL and a failed request, with its name as the reason, or a status from 400 on, with its own reason |
| `Unposted.UnpostedIsNeverRetried` | src/payments_processor/consumer/main.py:95-112 | in every run, a payment of which no webhook has gone out, as when its URL is never allowed, is in no retry queue, none of its messages carries a count or a reason, and it is not notified |
| `Unposted.UnpostedEndsInDlq` | src/payments_processor/consumer/main.py:110-112 | and once nothing is under way for it, it lies in the dead-letter queue without a reason |
| `HandlerRun.HandleIsARun` | src/payments_processor/consumer/main.py:80-112 | whatever others do between read and update and between update and webhook, the broker taking the delivery back included, what the handler method does with a pending or a processed payment is a run with the same tables, queues and webhook |
| `Amounts.StoredExactlyIff` | src/payments_processor/models/payment_model.py:26-32 | storing with four places keeps a value exactly if and only if it has no further digit |
| `Amounts.StoredInFourPlaces` | src/payments_processor/models/payment_model.py:26-32 | the column counts units of the fourth decimal place and rounds a fifth digit half up |
| `Amounts.TrailingZeroIsNothing` | src/payments_processor/services/payment_service.py:138-139 | a zero more at the end does not change the value: comparison is decimal |
| `Amounts.SamePlaces` | src/payments_processor/services/payment_service.py:138-139 | with equally many places, two amounts have the same value exactly if their digits agree |
| `Amounts.ReplayAgreesIff` | src/payments_processor/services/payment_service.py:138-139 | an allowed amount sent again agrees with the stored one if and only if it has the same value, however it is written |
| `Amounts.TermsAgreeIff` | src/payments_processor/services/payment_service.py:138-143 | a resent request agrees with the stored payment if and only if amount, currency and URL are the same |
| `Amounts.AllowedIsPositive` | src/payments_processor/schemas/payment_schemas.py:12-16 | an allowed amount is stored as a positive number of units below ten to the twentieth, so the table's check never fails |
| `Amounts.AllowedIff` | src/payments_processor/schemas/payment_schemas.py:12-16 | allowed are exactly the positive amounts below ten to the sixteenth that the column holds without rounding |

## Left out

- HTTP routing, authentication, dependency injection, configuration loading, logging, health probes: no protocol content.
- The emulated processing (`src/payments_processor/services/processing_service.py`): any outcome, or an exception, at any time.
- The HTTP client and the address rules of the URL check (`src/payments_processor/utils/ssrf_guard.py`): a status, a failed request or another exception, and allowed or not; signing is not part of this model.
- JSON and Pydantic encoding: an event is the id of its payment, a body is its amount, currency, URL and one opaque note.
- The count and reason fields of `x-death`: a dead-lettered message carries one entry with count one.
- How header strings convert to integers, and conversions that raise anything but a type or value error.
- Float rounding of the backoff and overflow of date arithmetic: delays are real numbers, and a row with 1024 attempts or more aborts its batch.
- A query that locks rows while they change: the fetch is one atomic step, so rows that stop matching between selection and lock are not modelled.
- A commit whose result is unknown to the client: a commit that raises has stored nothing.
- The answer of a request reaching the client: it is recorded when the transaction commits; a crash in between only withholds it.
- OutboxDispatcher.ProcessBatch: other sessions do not touch the rows it has locked while it runs; interleavings with other participants are those of the step system.
- HandlerRun.HandleIsARun: what others do falls between the read and the update and between the update and the webhook; what they do between the webhook, the republish and the settlement, and a handler that stops half-way, are in the step system only.
- Topology.Definitions.DeclareTopology: starts from an empty broker; a redeclaration with different arguments, which RabbitMQ refuses, is not modelled.
- Guarantees.ExhaustedUsedEveryRetry: the exact number of failures is for chains in which the broker took no delivery back.
- AtRest.ComesToRest: for a batch size of at least one; with zero nothing is ever dispatched (`Loss.WithoutFetchesNoRest`).
- Prefetch limits, consumer cancellation and connection recovery of RabbitMQ.
