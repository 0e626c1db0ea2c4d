# Order service: verified model

A Dafny model of the order service: the pipeline from an API request to a settled order, its queues, its
money arithmetic, its order listing and the product catalog's SKU rule. `dafny verify dfyconfig.toml` checks
all of it.

## The pipeline

`Pipeline.dfy` is a transition system. Requests commit and publish orders (two steps), check and write a
Cancel or Ship (two steps); any number of workers dequeue, load, screen, claim, pay, record, and requeue or
dead-letter, one repository or queue call per step, in any interleaving. Each call can end in three ways:
`Done`, `CleanError` (nothing happened) and `DirtyError` (it took effect, but the caller sees an error).
Workers can also die with a message in hand. Status writes are unconditional, as in the code.

A property names the environment it needs as a `Policy`: `ANYTHING` (no assumption), `RECORDED` (no
`MarkProcessed` takes effect and still reports an error), `PATIENT` (no Cancel write lands on a status other
than Created, or inside a worker's check-then-write window), `CALM` (patient, and no Ship write lands on a
status other than Paid), `ACCOUNTABLE` (patient, and no commit, publication or `MarkProcessed` takes effect and
still reports an error) and `SIMULATED` (only the sentinel wrapper and the simulated processor refuse
anything, nobody cancels). Ship requests may race with each other in all of them but `CALM`.

The proof has three layers. `OneOrder.dfy` is the automaton of a single order with its invariant.
`Places.dfy` keeps each order's record in agreement with the queue, the dead letters and the workers.
`Projection.dfy` shows that the whole system moves each order exactly as its own automaton would, whatever
the others do. `Guarantees.dfy`, `Outcomes.dfy`, `Accounting.dfy`, `Stranding.dfy` and `Whereabouts.dfy` state
the results over all runs, and `Limits.dfy` holds runs that show where a condition is needed.

The code itself is modelled in classes: `Queues.dfy`, `Repository.dfy`, `Service.dfy`, `WorkerPool.dfy`,
`Products.dfy`. `Iteration.dfy` proves that one uninterrupted pass through the worker's loop is a run of the
pipeline with the effect of the atomic operation, `WorkerPool.dfy` that the whole loop is one, `Serial.dfy`
that every serial history of operations is a calm run, and `ServiceRuns.dfy` that the service's calls are
those operations.

## The rest

`WakeUp.dfy` is the concurrent protocol of the in-memory queue (mutex sections, one-slot channel, many
waiters). `Text.dfy` and `Money.dfy` are the decimal parser and printers over wrapping 64-bit integers.
`Ordering.dfy`, `Listing.dfy` and `ListRepositories.dfy` are the two listings and their agreement.

## What the proofs turned up

- A stored order total is wrong exactly when the true total does not fit an int64 (`TotalExactIffFits`): four
  pieces at 2^62 cents are stored as a total of zero (`TotalCanVanish`).
- A validated page is right if and only if its offset fits an int64 or wraps past the end anyway; a page
  far enough out shows the front of the list again (`PageIsRightIff`, `FarPageWrapsAround`).
- The JSON text of the smallest int64 amount is not a JSON number, because it has two minus signs
  (`MarshalIsJson`); both printers still round-trip there.
- The parser takes a second sign, in front of the number, where it undoes the first for the whole part only
  (`--5.25` is 475 cents), and behind the point (`SignInFront`, `SignBehindPoint`); `AcceptedExactly` says
  what it takes altogether.
- A plus sign in front of a number is accepted, too, and changes nothing (`PlusIsIgnored`).
- A Cancel that lands between a worker's check and its write leaves the transition table
  (`StaleCancelLeavesTable`); `CalmIsExact` says exactly when a Cancel or Ship write is safe.
- A `MarkProcessed` that takes effect and still reports an error can put a settled order into the dead
  letters (`DirtyRecordBuriesPaidOrder`). `DeadLetterIsSettledIff` says exactly when: a dead letter belongs to
  a settled order if and only if that happened to the order somewhere in the run.
- The README of the service says that transient database failures are retried and, after the last retry,
  dead-lettered. A failed `MarkProcessed` is requeued, but the second attempt finds a `PROCESSING` order and
  drops the message: a charged order stays in `PROCESSING`, with no dead letter (`FailedRecordStrandsOrder`).
  `LeftInProcessingIff` says exactly when that happens: in a patient run, once nobody has a message in hand,
  some order is left in `PROCESSING` if and only if a `MarkProcessed` failed cleanly, a `PROCESSING` write
  took effect and still reported an error, or a worker died between its `PROCESSING` write and the settling
  one; `IsInProcessingIff` says it for each single order.
- The comment on `Close` says that dequeue calls in flight unblock. On a drained queue that is sure to happen
  if and only if at most one consumer sleeps (`CloseReleasesAllIff`), because the one token that `Close` posts
  wakes one consumer, and is dropped when an earlier token is still in the slot (`CloseTokenCanBeDropped`).
  With a lucky schedule one more sleeper than tokens can get away (`CloseCanReleaseAllIff`).
- Racing product calls, whose check and write are apart: a late write keeps the SKUs unique if and only if
  its SKU is still free when it lands (`LateWriteIsSafeIff`), and a late Update undoes a deactivation if and
  only if it loaded the product active (`LateUpdateRevivesIff`).

## Model

| member | source | states |
|---|---|---|
| `Guarantees.PaymentAtMostOnce` | internal/order/service.go:195-207 | in every run of every environment, races and dirty errors included, the payment processor is called at most once per order |
| `Guarantees.SettledMeansPaidOnce` | internal/order/service.go:206-229 | in every environment a Paid, Failed or Shipped order was handed to the processor exactly once |
| `Guarantees.MessagesAreConserved` | internal/worker/order_worker.go:62-117 | after every run the messages published, less those lost to a failing requeue or dead-letter call or a dying worker, less those that Process finished, are the ones queued, in hand or dead; one message per order among them; each names a stored order whose publication was tried |
| `Guarantees.WorkersLeaveEmptyHanded` | internal/worker/order_worker.go:62-67 | across all kinds of steps, a worker stops only by leaving its loop without a message or by dying |
| `Guarantees.RetryBudget` | internal/worker/order_worker.go:82-102 | queued messages are within the budget, a message in hand is on attempt RetryCount+1, a dead letter has used up exactly maxRetries, and no order gets more than maxRetries+1 attempts |
| `Guarantees.StatusIsLastWrite` | internal/order/repository.go:86-111 | after any run the store shows the last status that the steps of the run wrote to the order |
| `Guarantees.TrailIsStatusWrites` | internal/order/service.go:199-260 | the recorded history of an order is the list of all status writes of the run to it |
| `Guarantees.LifecycleIsSafe` | internal/order/status.go:43-54 | in a calm environment the statuses that a run writes to an order are a path of the transition table of strictly rising rank, with at most three writes after the first, the unchecked MarkProcessed writes included; ProcessedAt is set exactly for settled orders |
| `Guarantees.CalmIsExact` | internal/order/service.go:242-260 | an unguarded Cancel or Ship write obeys the table and keeps every worker's next write legal if and only if it finds the status it checked and, for Cancel, no worker is between its check and its write |
| `Guarantees.OrdersStayIntegral` | internal/order/repository.go:45-71 | in every environment each stored order has items, all of them its own, with item totals that multiply up and an order total that sums up |
| `Guarantees.SettledOrdersAreNeverDead` | internal/worker/order_worker.go:102 | without dirty MarkProcessed errors an order in the dead-letter list is never Paid, Failed or Shipped, then or later |
| `Guarantees.RecordedIsExact` | internal/order/service.go:210-226 | a MarkProcessed call keeps the message of a settled order out of the retry path if and only if it does not report an error after taking effect |
| `Whereabouts.DeadLetterIsSettledIff` | internal/worker/order_worker.go:102 | after a patient run a dead letter belongs to a Paid, Failed or Shipped order if and only if a MarkProcessed of that order took effect and still reported an error somewhere in the run |
| `Whereabouts.IsInProcessingIff` | README.md:147 | after a patient run an order that no worker holds is in Processing if and only if a stranding failure hit it |
| `Whereabouts.CreatedOrdersAreAccountedFor` | internal/worker/order_worker.go:62-117 | in any environment, once nothing is left to do, an order that is still Created was dead-lettered, lost its message or never had it published; no order is two of these |
| `Projection.StepProjects` | internal/order/postgres_repository.go:114-137 | a step of the whole system changes the one order it is about as that order's own automaton does, and no other order |
| `Projection.Reachable` | internal/worker/order_worker.go:50-72 | the system invariant holds after every run from a fresh start |
| `Outcomes.DrainIsBounded` | internal/worker/order_worker.go:62-102 | every run of worker steps is at most as long as the steps that the messages in queue and hand can still cause |
| `Outcomes.DequeuesAreBounded` | README.md:149 | without new orders the workers dequeue at most as often as the messages have attempts left: with none in hand, the sum of maxRetries - RetryCount + 1 over the queue |
| `Outcomes.DrainsToQuiescence` | internal/worker/order_worker.go:62-72 | with a worker left the pool can always go on until nothing is queued or in hand |
| `Outcomes.StuckIsQuiescent` | internal/worker/order_worker.go:62-72 | where no worker step but leaving is possible, nothing is queued or in hand |
| `Outcomes.OutcomeIsDeterministic` | cmd/worker/transient_failure_repo.go:25-33 | for any workers, orders and interleaving, racing Ship requests included: at rest, sentinel orders are Created with exactly one dead letter at the full retry count, failure-total orders Failed, all others Paid or Shipped, and there are no other dead letters |
| `Outcomes.SchedulesAgree` | cmd/worker/main.go:122-127 | two schedules with different pools that come to rest agree on every order, up to shipping |
| `Accounting.MetricsReconcile` | internal/order/service.go:159-229 | after every accountable run, racing Ship requests included, processed = duration samples = number of Paid or Shipped orders, failed = number of Failed orders, created = orders less those not published |
| `Limits.StaleCancelLeavesTable` | internal/order/postgres_repository.go:114-123 | a run in which every call succeeds and a racing Cancel takes an order from Created to Canceled to Processing |
| `Limits.DirtyRecordBuriesPaidOrder` | internal/worker/order_worker.go:102 | a run whose only failure is a MarkProcessed that takes effect and reports an error, and that ends with a Paid order in the dead-letter list |
| `Limits.FailedRecordStrandsOrder` | README.md:147 | a run whose only failure is one clean MarkProcessed failure, and that ends at rest with an order charged once, in Processing, and no dead letter, although retries were left |
| `Stranding.StrandingIsExact` | internal/order/service.go:195-226 | a step of a patient environment leaves no order stranded in Processing if and only if none was and the step is not one of three failures: a clean MarkProcessed failure, a Processing write that takes effect and reports an error, the death of a worker between its two writes |
| `Stranding.LeftInProcessingIff` | README.md:147 | after a patient run with no message in hand, some order is left in Processing if and only if the run had one of those failures: no other failure leaves an order in Processing, and nothing heals these |
| `Iteration.ProcessIsAtomic` | internal/order/service.go:180-230 | Process's repository calls, run without interruption, have exactly the effect of the atomic operation, for every pattern of failures |
| `Iteration.ProcessCases` | internal/order/service.go:180-230 | what the atomic operation does, case by case: when it fails, the status it leaves the order in, the processing time, the counters, and that nothing else changes |
| `Iteration.IterationIsRun` | internal/worker/order_worker.go:62-102 | one pass through the loop is a run of the pipeline |
| `Iteration.IterationIsAtomic` | internal/worker/order_worker.go:62-102 | what one pass does to queue, dead letters, orders and counters |
| `Iteration.IterationSpendsBudget` | internal/worker/order_worker.go:82-102 | one pass takes exactly one attempt off the budget of the queue if it requeues, else all that the message had left |
| `Serial.SerialIsCalm` | internal/order/service.go:83-260 | every serial history of Create, worker passes, Cancel and Ship is a calm run ending in the same state |
| `Serial.SerialLifecycle` | internal/order/service.go:232-260 | serial histories keep every order on the transition table |
| `ServiceRuns.CreateIsOperation` | internal/order/service.go:83-176 | an accepted call of Create is the operation Create of a serial history, a refused one changes nothing |
| `ServiceRuns.TransitionIsOperation` | internal/order/service.go:233-260 | a call of Cancel or Ship is the operation Transition exactly if its check passes, and changes nothing otherwise |
| `WakeUp.NoLostWakeUp` | internal/order/queue.go:87-129 | no reachable state has messages queued, no token pending or about to be posted, and everybody asleep or gone; deliveries are the enqueued messages in order, each once |
| `WakeUp.NextMessageIsTwoStepsAway` | internal/order/queue.go:108-129 | with a message queued and a consumer left, the consumers alone deliver it within two steps |
| `WakeUp.ReleasedIffEnoughTokens` | internal/order/queue.go:108-129 | a closed, drained queue can let every consumer go, or wake every one, if and only if it has a token for each sleeper |
| `WakeUp.CloseCanReleaseAllIff` | internal/order/queue.go:97-106 | after Close on a drained queue some schedule releases everybody if and only if at most one more consumer sleeps than there are tokens |
| `WakeUp.ClosedRunsEnd` | internal/order/queue.go:108-129 | a closed, drained queue comes to rest within a bound, whatever the schedule |
| `WakeUp.SureReleaseIff` | internal/order/queue.go:108-129 | every schedule of a closed, drained queue ends with every consumer gone if and only if nobody sleeps, or one does and a token is there or on its way |
| `WakeUp.CloseReleasesAllIff` | internal/order/queue.go:97-106 | Close on a drained queue is sure to unblock every Dequeue call, under every schedule, if and only if at most one consumer sleeps |
| `WakeUp.CloseTokenCanBeDropped` | internal/order/queue.go:87-106 | a reachable queue with two sleepers and a pending token, where Close can release both and is not sure to |
| `WakeUp.CloseWakesOnlyOne` | internal/order/queue.go:97-106 | a run in which Close leaves one of two sleeping consumers asleep |
| `Queues.FakeProducer.PublishOrderCreated` | internal/order/queue.go:50-62 | appends the message unless it fails cleanly |
| `Queues.FakeQueue.Enqueue` | internal/order/queue.go:87-95 | the message goes to the back and a token is in the slot |
| `Queues.FakeQueue.Close` | internal/order/queue.go:98-106 | marks the queue closed and posts a token |
| `Queues.FakeQueue.Dequeue` | internal/order/queue.go:108-129 | delivers the front message; on an empty queue says closed, cancelled or that it would sleep, and sleeps with no token left |
| `Queues.FakeRetryQueue.Requeue` | internal/order/queue.go:147-158 | records the message and, if a queue is linked, puts it behind everything queued; or changes nothing |
| `Queues.FakeRetryQueue.DeadLetter` | internal/order/queue.go:160-168 | records the message, or changes nothing |
| `Queues.RedisLists.PublishOrderCreated` | internal/queue/producer.go:30-36 | LPUSH puts the message last in consumption order, whether or not its answer arrives, or fails cleanly |
| `Queues.RedisLists.Requeue` | internal/queue/retry.go:27-33 | so does a requeue |
| `Queues.RedisLists.DeadLetter` | internal/queue/retry.go:36-42 | LPUSH on the second list, likewise |
| `Queues.RedisLists.Dequeue` | internal/queue/consumer.go:26-37 | BRPOP takes the first message in consumption order, blocks on an empty list, or ends with an error that may have cost a message |
| `Queues.TwoQueuesOneFifo` | internal/queue/consumer.go:12-13 | no sequence of pushes and pops tells the Redis list from the in-memory queue |
| `Queues.PoppedInOrder` | internal/order/queue.go:87-115 | what was popped followed by what is left is what was there followed by what was pushed |
| `Repository.OrderRepository.CreateWithItems` | internal/order/repository.go:45-71 | stores order and items together, or refuses a nil order, no items or items of another order and changes nothing |
| `Repository.OrderRepository.FindByID` | internal/order/repository.go:73-84 | returns the stored order with the very items stored under its id, or the not-found error |
| `Repository.OrderRepository.UpdateStatus` | internal/order/repository.go:86-97 | writes the status and the update time of a stored order unconditionally, and nothing else |
| `Repository.OrderRepository.MarkProcessed` | internal/order/repository.go:99-111 | writes status, processing time and update time unconditionally, and nothing else |
| `Repository.TransientFailureRepo.UpdateStatus` | cmd/worker/transient_failure_repo.go:25-33 | a Processing write is refused, changing nothing, if and only if the look-up finds an order of the sentinel total; every other call is forwarded |
| `Service.OrderService.LoadProducts` | internal/order/service.go:110-121 | the products of the lines that exist, by id |
| `Service.OrderService.PriceLines` | internal/order/service.go:123-147 | every line with the product's current price and its line total, or the first line that cannot be sold |
| `Service.RefusalIff` | internal/order/service.go:84-135 | a request is accepted if and only if it names a customer and has lines, every quantity is at least 1 and every product id set, the customer exists and is active, and every product exists and is active; one exact condition for each of the ten errors |
| `Service.FirstInvalidIff` | internal/order/service.go:90-97 | the line check reports the first line with a quantity below 1 or without a product id, and nothing if and only if there is none |
| `Service.FirstUnsellableIff` | internal/order/service.go:128-135 | the catalog check reports the first line whose product is unknown or inactive, and nothing if and only if there is none |
| `Service.OrderService.Prepare` | internal/order/service.go:83-157 | the draft order that the request asks for, priced from the catalog, or the first reason to refuse it |
| `Service.OrderService.Create` | internal/order/service.go:83-176 | succeeds if and only if the conditions of `RefusalIff` hold and both calls succeed; a refused request and a failed commit publish nothing; otherwise the order is stored as Created for this customer, with its priced items, and one ORDER_CREATED message with its id, its creation time and retry count 0 goes to the back of the queue, counted exactly if both calls succeed |
| `Service.OrderService.Process` | internal/order/service.go:180-230 | a nil id, a failed load, a missing order and one that is not Created change nothing; a Created order ends up Paid or Failed as the processor says, with its processing time and one more count; for every pattern of failures, the atomic operation of the pipeline |
| `Service.OrderService.Transition` | internal/order/service.go:242-260 | writes the new status exactly if the stored one is the demanded one, else answers invalid status and changes nothing |
| `Service.OrderService.Cancel` | internal/order/service.go:233-235 | writes Canceled exactly on Created orders (BR-ORD-007), and changes nothing otherwise |
| `Service.OrderService.Ship` | internal/order/service.go:238-240 | writes Shipped exactly on Paid orders (BR-ORD-008), and changes nothing otherwise |
| `Service.CreatedTotalIsExact` | internal/order/service.go:128-157 | the stored total is the exact price of what was asked for if and only if that fits an int64 |
| `WorkerPool.OrderWorker.HandleProcessError` | internal/worker/order_worker.go:74-117 | within the budget the message goes to the back of the queue with one more retry, unless requeueing fails; beyond it the message goes to the dead letters, unless that fails; nothing else changes |
| `WorkerPool.OrderWorker.Handle` | internal/worker/order_worker.go:68-117 | a message whose processing failed is requeued or dead-lettered in the same way, and lost only if the call that applies to it fails; one that was processed leaves queue and dead letters alone |
| `WorkerPool.OrderWorker.RunLoop` | internal/worker/order_worker.go:62-72 | whatever fails, the loop takes the pipeline through a run of worker steps and ends with an empty queue within the work bound |
| `OrderModel.TransitionTable` | internal/order/status.go:43-54 | the five transitions that are allowed, and no others |
| `OrderModel.PathIsShort` | internal/order/status.go:43-54 | a path of the table rises strictly in rank and has at most three transitions |
| `OrderModel.OrderTotal` | internal/order/model.go:40-46 | the summing loop ends at the exact sum, wrapped once |
| `OrderModel.TotalExactIffFits` | internal/order/model.go:35-46 | the stored total equals the exact total if and only if that fits an int64, although line products and partial sums may wrap |
| `OrderModel.TotalCanVanish` | internal/order/model.go:35-46 | four pieces at 2^62 cents are stored with a total of zero |
| `OrderModel.NoWrapAnywhere` | internal/money/money.go:39-46 | with positive prices and quantities and a total that fits, no line product and no partial sum wraps |
| `OrderModel.TotalIgnoresLineOrder` | internal/order/model.go:40-46 | the stored total does not depend on the order of the lines |
| `Money.ParseString` | internal/money/money.go:49-97 | the parsing loop computes the specification Parse |
| `Money.PaddingIsIgnored` | internal/money/money.go:49-53 | any number of blanks, tabs and line ends around a canonical number makes no difference |
| `Money.BlankIsNoAmount` | internal/money/money.go:50-53 | text of nothing but blanks, tabs and line ends is refused |
| `Money.VisibleIsNotPadding` | internal/money/money.go:50 | a visible ASCII character before or behind a digit is not trimmed away |
| `Text.AsciiSpaces` | internal/money/money.go:50 | the ASCII characters that are trimmed are the blank and the characters 9 to 13 |
| `Money.MissingCentsAreZero` | internal/money/money.go:76-85 | 12 reads as 12.00, and 12.5 as 12.50, for every canonical number |
| `Money.PlusIsIgnored` | internal/money/money.go:69 | a leading plus sign is accepted and changes nothing |
| `Money.DecimalShape` | internal/money/money.go:106-114 | a minus exactly for negative amounts, the whole units without leading zeros, a point, and always two digits for the cents |
| `Money.MarshalShape` | internal/money/money.go:117-130 | the same, but for the point and the zeros of a whole amount |
| `Money.DecimalRoundTrip` | internal/money/money.go:106-114 | ParseString reads every amount back from its decimal text |
| `Money.MarshalRoundTrip` | internal/money/money.go:117-130 | and from its JSON text |
| `Money.PrintersAreInjective` | internal/money/money.go:106-130 | different amounts have different texts |
| `Money.MarshalIsJson` | internal/money/money.go:117-130 | the JSON text is a number of RFC 8259, section 6, if and only if the amount is not the smallest int64 |
| `Money.ParseCanonical` | internal/money/money.go:49-97 | canonical decimal text, padded or not, is read as its exact number of cents, wrapped once, or refused when the whole part does not fit |
| `Money.ParseExactIffFits` | internal/money/money.go:49-97 | canonical text is read exactly if and only if its cents fit an int64 |
| `Money.NoIntermediateWrap` | internal/money/money.go:92-95 | where the magnitude fits, no intermediate result wraps |
| `Money.AcceptedExactly` | internal/money/money.go:49-97 | which texts ParseString accepts, exactly |
| `Money.ValueOfAccepted` | internal/money/money.go:49-97 | the value of every accepted text: a hundred times the signed whole part plus the signed fraction, negated behind a leading minus, wrapped once |
| `Money.MalformedIsRejected` | internal/money/money.go:64-82 | empty parts, a second point and three or more fraction digits are rejected |
| `Money.SignInFront` | internal/money/money.go:55-59 | for every canonical number, padded or not, a second minus sign is accepted and undoes the first for the whole part only, the fraction being subtracted |
| `Money.SignBehindPoint` | internal/money/money.go:86-92 | a minus sign behind the point is accepted and subtracts the cents, with or without a sign in front and padding |
| `WorkerPool.FailureTotalIsParsed` | cmd/worker/main.go:120-127 | the total that the simulated processor declines is what the parser makes of 13.37 |
| `Ordering.UuidOrders` | internal/order/repository.go:123-128 | byte order of UUIDs and order of their lowercase text are the same order (RFC 9562, section 4) |
| `Ordering.TextIsCanonical` | internal/order/repository.go:123-128 | the text of a UUID is its 32 hexadecimal digits, which stand for its number, with hyphens behind the first 8, 12, 16 and 20 |
| `Ordering.DigitsAreLowercase` | internal/order/repository.go:123-128 | the digits are written in lowercase |
| `Ordering.BytesArePairs` | internal/order/postgres_repository.go:154-157 | the sixteen bytes are the digits in pairs |
| `Listing.SameOrder` | internal/order/postgres_repository.go:154-157 | ORDER BY created_at, id sorts as the in-memory comparison does |
| `Listing.ListingIsUnique` | internal/order/repository.go:113-128 | the sorted result of a filter does not depend on the order in which the map is walked |
| `Listing.ListingHolds` | internal/order/repository.go:113-128 | the sorted result has exactly the stored orders of the customer and status asked for, created from the start date to the end date, both included; by creation time and then by id |
| `Listing.ListingCountsMatches` | internal/order/repository.go:130-150 | it is as long as there are matching orders |
| `Listing.WindowHolds` | internal/order/repository.go:130-138 | a page skips the pages before it and is full unless the list ends |
| `Listing.PageIsRightIff` | internal/order/repository.go:130-138 | a validated page is the intended window if and only if its offset fits an int64 or wraps past the end |
| `Listing.FarPageWrapsAround` | internal/order/repository.go:131 | a validated page that wraps to the front of the list |
| `Listing.TotalPagesIsCeiling` | internal/order/repository.go:140-143 | the page count is the exact ceiling |
| `Listing.PageWithinIsRight` | internal/order/repository.go:130-138 | every page up to TotalPages is the intended window |
| `Listing.PagesPartition` | internal/order/repository.go:113-152 | the items that List returns for pages 1 to TotalPages are together the whole result, each order once and in order |
| `Listing.LaterPageIsEmptyIff` | internal/order/repository.go:130-138 | a later page is empty if and only if its offset fits an int64 or wraps past the end |
| `Listing.PagesAgreeIff` | internal/order/postgres_repository.go:151-184 | LIMIT and OFFSET cut the same page as the slice in memory, or fail with it, unless the end of the slice overflows: an if-and-only-if for every filter |
| `ListRepositories.SortSlice` | internal/order/repository.go:123-128 | sorts in place, a permutation in the order of creation time and id text |
| `ListRepositories.List` | internal/order/repository.go:113-152 | the page that the filter cuts from the one sorted listing of the matching orders, under the page and page size asked for, with the number of all matching orders as its total |
| `ListRepositories.OrderConditions` | internal/order/postgres_repository.go:191-211 | asks for = on customer and status and for >= and <= on the dates, and the numbered conditions, bound by position, accept exactly the orders that matchesOrder accepts |
| `ListRepositories.PostgresList` | internal/order/postgres_repository.go:139-189 | for every filter, the page that LIMIT and OFFSET cut from the one sorted listing of the matching orders, with the number of all matching orders as its total, or the error for negative bounds |
| `ListRepositories.ListsAgree` | internal/order/postgres_repository.go:139-189 | the two List methods return the same result on every table and every filter whose page size is below 2^63 - 2^56 |
| `Products.RunKeepsCatalog` | internal/product/service.go:37-112 | every serial run of calls, with any repository failures, leaves unique nonempty SKUs, positive prices and non-nil ids |
| `Products.SkippedCheckWouldPass` | internal/product/service.go:88-92 | the check that Update skips for an unchanged SKU would have passed |
| `Products.LateWriteIsSafeIff` | internal/product/service.go:49-63 | a write that lands after other calls keeps the catalog if and only if its SKU is still free |
| `Products.LateUpdateRevivesIff` | internal/product/repository.go:52-60 | an Update that lands late undoes a deactivation if and only if it loaded the product active |
| `Products.RacingCreatesCollide` | internal/product/service.go:49-63 | any two Creates of one free SKU that both check before either writes store it twice |
| `Products.DeactivatedForGood` | internal/product/repository.go:62-72 | products stay stored, and a deactivated one never becomes active again |
| `Products.PaddedSkuIsRefused` | internal/product/service.go:42-51 | a stored SKU is refused to every later Create, however it is padded |
| `Products.FlawIff` | internal/product/service.go:38-48 | the first thing that is wrong with an input, one exact condition for each error |
| `Products.BlankNameIsRefused` | internal/product/service.go:38-41 | a name of nothing but blanks, tabs and line ends is refused |
| `Products.ProductService.FindBySKU` | internal/product/repository.go:84-94 | one possible answer, in whatever order the map is walked |
| `Products.ProductService.EnsureSKUUnique` | internal/product/service.go:174-186 | refuses exactly the SKUs that another product has |
| `Products.ProductService.Create` | internal/product/service.go:37-68 | which error it gives, in order; if the input is sound and no product has the trimmed SKU, stores an active product with the trimmed name and SKU and the price, created now; keeps the catalog |
| `Products.ProductService.Update` | internal/product/service.go:72-103 | which error it gives, in order; a sound input whose trimmed SKU no other product has is written over name, SKU and price, leaving id, active flag and creation time; agrees with the specification that always checks the SKU, although it skips the check when the SKU is unchanged |
| `Products.ProductService.Deactivate` | internal/product/service.go:107-112 | a stored product becomes inactive, with all its other fields and all other products as they were; an unknown one is reported |

## Left out

- HTTP, OpenAPI, logging, health checks, Prometheus text, authentication, configuration, seeding, migrations, the customer service (the shape of the product service) and `dev/`.
- The wire: pgx, go-redis and JSON payloads. The database is a map with atomic calls, Redis two lists; malformed payloads and client retries do not occur.
- SQL text: conditions and LIMIT/OFFSET are structured values with numbered placeholders; what the database does with them is written out (`CountRows`, `SelectRows`). Count and page come from one table state.
- The text of a numeric column is taken to be the text `Decimal` writes, and a UUID column is compared by its bytes.
- `ParseString` works on characters; Go's byte lengths differ only on text that both reject. `ParseNumber`, `UnmarshalJSON`, `ParseOrderStatus` and the customer and product lists (ILIKE) are not modelled.
- Time is an integer and every clock reading is arbitrary. `uuid.New` returns fresh, non-nil ids. Lists are shorter than 2^56.
- `sort.Slice` is modelled by an in-place insertion sort; the result is unique, so the algorithm does not show.
- The defaulting of page and page size in `Service.List` and its loop over `FindByID` are not modelled; `Validated` is what it lets through.
- Queues.FakeQueue.Dequeue: one call with nobody else running; the interleavings of many callers are `WakeUp.dfy`, on values rather than on the class.
- Queues.RedisLists.Dequeue: a BRPOP that pops a message and then fails is, in the pipeline, a Take followed by the death of the worker, since the loop ends on any dequeue error.
- WorkerPool.OrderWorker.RunLoop: one worker on a queue of its own, with the failure flags of the retry queue left alone while it runs; many workers, and failures that come and go, are the pipeline. It stops where `Dequeue` would sleep.
- ListRepositories.PostgresList: the capacity that the result slice asks for is not modelled, so a page size too large to allocate does not panic here.
- Repository.OrderRepository.CreateWithItems: the `OnCreate` hook is not modelled.
- Products.ProductService.Update: one call at a time; the two steps of racing calls are the lemmas on late writes, on the in-memory repository. The database's unique index is not modelled.
- Queues.FakeProducer.PublishOrderCreated: the failure flag is an argument that says how the call ends, and the `OnPublish` hook is not modelled.
- Fairness: draining is shown to be bounded and never stuck, not that the scheduler lets every worker run.
