# A verified model of the flash-sale service

The service sells limited stock under heavy load. A purchase runs through three stores: Redis admits the request
(stock counter, buy mark, pending record), Kafka carries it, and MySQL makes it an order, which is then paid or
cancelled. This project models that protocol and the algorithms beside it in Dafny 4.11 and proves what keeps the
stores consistent.

`dafny verify dfyconfig.toml` checks everything.

## How the model is built

Classes hold the state the program updates in place, one per store or component, and their methods follow the
program's code statement by statement. Each method is proved against a specification function on plain values; state
machines over the same functions then let all components interleave, and the theorems are about every reachable state
of those machines. Where both exist they are tied together: the methods of `Seckill`, `OrderCancel`, `Consumer` and
`Compensate` ensure `Runs(old state, new state)`, that is, the method is a schedule of the machine's steps.

| module | what it holds |
|---|---|
| `Entities`, `Wrappers`, `Maps`, `MapSum` | shared values, errors, Option and Result, map updates, finite sums |
| `RedisRepo`, `MysqlRepo` | the two stores: scripts, conditional updates, unique keys, the confirm and cancel transactions |
| `Pricing`, `Routing` | amounts and coupons in uint64; retry routing and backoff |
| `StockLedger`, `Adversarial` | MySQL alone, whatever Redis, Kafka and the callers do |
| `Protocol`, `Books`, `ProtocolInv`, `ProtocolTheorems`, `ProtocolRuns` | the protocol, every single store call a step; its invariant, kept as books of who holds what; its theorems; consumption counts and money over whole runs |
| `Seckill`, `OrderCancel`, `Consumer`, `Compensate`, `Purchase` | the program's own operations, and what whole purchases leave behind |
| `Redelivery` | messages consumed once more, replayed or redelivered: when that does no harm, and how much otherwise |
| `DelayQueue`, `QueueRuns` | the delayed-cancellation queue, its scanner, and its runs with crashing workers and disagreeing clocks |
| `Deadlines` | the fifteen minutes of an unpaid order, the same for timer, row and payment |
| `Payment`, `PaymentRuns` | pay requests and callbacks, and their runs with failing commits |
| `Limiter` | the token bucket, its admission bound, and key expiry |
| `CouponIssue` | issuing coupons for reviews |
| `Witnesses` | one small sale that reaches every state in which something does not go as meant |

## Which runs

* `Adversarial`: any sequence of the program's MySQL transactions, with any messages. Redis and Kafka are not
  trusted for anything. Only facts about MySQL are claimed.
* `Protocol`: Redis and MySQL calls take effect, transactions may abort cleanly for any reason, a failed send delivers
  nothing, buy marks and pending records do not expire, a message is not delivered twice, and the compensator takes up
  only reservations that nobody works on any more: their message is not under way, their request is not still being
  made, and no other give-back of the same record is in progress. Every store call of every request, consumer,
  compensator and canceller is a step of its own, so they interleave freely.
* `QueueRuns`: any number of scanners, each with its own clock; workers may stall, fail or die at any point; all
  database traffic of `Adversarial` goes on beside them. Leader election is not assumed to exclude anybody
  (internal/job/leader.go:71-86).
* `PaymentRuns`: database traffic of `Adversarial`, pay requests and callbacks. A callback reads its record, later
  locks the order and writes the record, and later still commits; commits may fail. Callbacks overlap freely, as long as
  none writes a failure over a success that came in since it read the record (`Careful`): exactly then the invariant
  survives. Callbacks that take turns are careful of themselves, and more is proved of them.

A reservation is *unresolved* when its pending record exists and its request has no order row, which is the
compensator's own test.

## Where code and intention differ

Each of these is proved as a statement over all inputs or states, together with the exact condition under which the
code does meet the intention. `Witnesses` shows of those about runs that a small sale reaches the bad case.

* `uk_user_activity_product` covers (user_id, activity_id) (scripts/seckill.sql:175), while cancelling removes the
  user's buy mark so that the user could try again. The second attempt is admitted by Redis and then dropped as an
  existing order: `Purchase.RetryAfterCancelIsDropped`, `Adversarial.OneOrderPerUserAndActivityForever`.
* The compensator relies on two minutes having passed, not on the reservation being out of everybody's hands:
  `Compensate.FixKeepsInvIffNotInProgress`, `Compensate.FixedTooEarlyOversells`, `Compensate.FixedTwice`. The second
  give-back may be a consumer's rollback, a failed send's, or a second compensator's, since a lost lease does not stop
  the task (internal/job/leader.go:71-86).
* Synchronising stock writes what was listed when the pass began, while units are held and rows move on. It does no harm
  iff the row has since lost as many units as are held: `Compensate.SyncIsHarmlessIff`; with the row's version unmoved,
  iff nothing is held: `Compensate.SyncOfUntouchedRowIff`.
* A replayed dead letter, or one consumed again because the consumer died between its rollback and its offset commit, has
  no reservation any more. Unless its consumption changes nothing it sells, or gives back, its whole quantity a second
  time, however much later: `Redelivery.ReplayIsHarmlessIff`; for any message: `Redelivery.RedeliveryIsHarmlessIff`.
* A payment noted as SUCCESS whose core commit then fails is not credited nor marked for refund as long as callbacks
  take turns: `PaymentRuns.LostPaymentStaysLost`; only an overlapping success notice can repair it:
  `PaymentRuns.StaleSuccessRepairs`.
* Two callbacks that overlap can leave a Paid order with a FAILED record: `PaymentRuns.RacingCallbacks`. Which writes are
  harmless, exactly: `PaymentRuns.StepKeepsIff`, `PaymentRuns.RunKeepsIff`.
* The bucket script stores the clock even when it went back, and the admission bound holds only for clocks that never
  do: `Limiter.BoundIffSteadyClock`.
* Invitations without a review number and without a key share one idempotency key among all users:
  `CouponIssue.InvitersShareOneCoupon`, `CouponIssue.DefaultKeysAgreeIff`.
* Percentage coupons above 100 wrap around: `Pricing.PercentSafeIffAtMost100`.

## Model

| member | source | states |
|---|---|---|
| `ProtocolTheorems.CrossStoreLedger` | internal/biz/seckill.go:336-456 | In every state any interleaving reaches, per SKU: Redis stock is never negative, and Redis stock, units held outside live orders, and Pending or Paid orders add up to what was put on sale. |
| `ProtocolTheorems.LedgerBetweenOperations` | internal/job/compensate.go:101-130 | Between operations the ledger reads off the stores: Redis stock, quantities of unresolved pending records, and live orders add up to the initial stock. |
| `ProtocolTheorems.CacheLagsByReservations` | internal/data/repo/redis_repo.go:49-60 | MySQL stock is ahead of Redis stock by exactly the units held outside orders, and never behind. |
| `ProtocolTheorems.CacheAgreesAtRest` | internal/job/compensate.go:59-78 | At rest with no unresolved reservation the two stocks are equal for every SKU. |
| `ProtocolTheorems.AdmittedMessagesFindStock` | internal/biz/seckill.go:503-555 | Redis admission implies MySQL admission: no message of a fault-free run fails for lack of stock; it is confirmed exactly when its address exists and the user has no order row in the activity. |
| `ProtocolTheorems.CouponHasOneHolder` | internal/biz/seckill.go:1126-1128 | A user coupon is Used exactly when a request or live order holds it, and never has two holders. |
| `ProtocolTheorems.LiveOrderOwnsItsCoupon` | internal/data/repo/mysql_repo.go:668-695 | The coupon of a live order is Used and belongs to no other live order and no waiting reservation. |
| `ProtocolTheorems.OnePlacePerUser` | internal/data/repo/redis_repo.go:50-58 | Every holder of a buy place has its (activity, SKU, user) mark set in Redis, and no two holders share a place. |
| `ProtocolTheorems.LiveOrdersAreMarked` | internal/biz/order_cancel.go:69-71 | The marks of live orders are set and differ from those of waiting reservations, so removing one mark uncovers nobody else. |
| `ProtocolTheorems.CancelTakesEffectOnce` | internal/biz/order_cancel.go:29-71 | With any number of concurrent cancellers MySQL stock goes back once iff the order is Cancel, and Redis stock at most once, exactly once as soon as no canceller still owes it. |
| `ProtocolInv.StepKeeps` | internal/biz/seckill.go:256-568 | Each single store call of each operation keeps the invariant of books, tables and links. |
| `ProtocolInv.RunKeeps` | internal/biz/seckill.go:256-568 | So does every interleaving of them, of any length. |
| `Adversarial.NeverOversold` | internal/data/repo/mysql_repo.go:371-410 | Whatever Redis and Kafka do, available stock and live orders add up to the initial stock per SKU; neither ever exceeds it. |
| `Adversarial.DeductedOncePerRequest` | internal/data/repo/mysql_repo.go:770-826 | However often a message is delivered, replayed or forged, its request deducts once iff an order row carries its request id, and otherwise never. |
| `Adversarial.RestockedOnceIffCancelled` | internal/biz/order_cancel.go:29-54 | Over all runs of cancellations, payments and confirmations, an order's stock is restored exactly once if it is Cancel and never otherwise. |
| `Adversarial.OneOrderPerUserAndActivityForever` | scripts/seckill.sql:173-175 | Once a user has an order row in an activity, even a cancelled one, every later message of that user for it is answered "order exists" and changes nothing. |
| `Adversarial.RunKeepsInv` | internal/data/repo/mysql_repo.go:1071-1108 | Stock balance, unique keys and both histories survive every run; order rows are never deleted, keep their identity, and leave Pending at most once. |
| `MysqlRepo.MysqlStore.ConfirmOrder` | internal/biz/seckill.go:503-555 | The confirm transaction, statement by statement, is all or nothing and fails with the first reason that applies: address, existing order, shipping row, stock. |
| `MysqlRepo.ConfirmationIs` | internal/biz/seckill.go:523-553 | A committed confirmation, table by table: one Pending row made now with the message's price, claim and amounts, the shipping row, that many units less. |
| `MysqlRepo.ConfirmationFails` | internal/biz/seckill.go:504-555 | Which inputs meet each failure: no address, existing order, too little stock; and which commit. |
| `MysqlRepo.CancellationIs` | internal/biz/order_cancel.go:32-57 | A cancellation, table by table: Pending orders only; the status, the units back, and a Used coupon Unused again. |
| `MysqlRepo.MysqlStore.CancelOrder` | internal/biz/order_cancel.go:29-57 | The cancel transaction restores stock and coupon of a Pending order, leaves any other order alone, and rolls back on failure. |
| `MysqlRepo.MysqlStore.DecreaseStock` | internal/data/repo/mysql_repo.go:368-390 | Deducts and bumps the version iff enough is available; otherwise no row changes. |
| `MysqlRepo.MysqlStore.RestoreStock` | internal/data/repo/mysql_repo.go:393-410 | Adds to an existing row; a missing row is reported. |
| `MysqlRepo.MysqlStore.CreateOrder` | internal/data/repo/mysql_repo.go:770-826 | Inserts iff no row clashes on order number, request id, or user and activity. |
| `MysqlRepo.MysqlStore.UpdateOrderStatus` | internal/data/repo/mysql_repo.go:1071-1108 | Changes the status iff the row has the expected one, and nothing else. |
| `MysqlRepo.MysqlStore.UseUserCoupon` | internal/data/repo/mysql_repo.go:668-682 | Uses a coupon iff it is Unused and not expired. |
| `MysqlRepo.MysqlStore.RestoreUserCoupon` | internal/data/repo/mysql_repo.go:684-695 | Returns a Used coupon to Unused and touches no other. |
| `MysqlRepo.MysqlStore.GetOrderByRequestID` | internal/data/repo/mysql_repo.go:952-1003 | Returns an order that carries the request id iff there is one. |
| `RedisRepo.RedisStore.DeductStock` | internal/data/repo/redis_repo.go:49-60 | The deduction script: -1 when marked, 0 when the counter is missing or short, else deducts and marks. |
| `RedisRepo.ScriptIs` | internal/data/repo/redis_repo.go:49-60 | When each of the script's three answers is given, and what it changes. |
| `RedisRepo.RedisStore.RollbackStock` | internal/data/repo/redis_repo.go:213-228 | Increments the counter, a missing one from zero, and changes nothing else. |
| `RedisRepo.RollbackUndoesDeduct` | internal/data/repo/redis_repo.go:49-60 | Rolling back stock and mark after a successful deduction restores Redis exactly. |
| `Seckill.SeckillUsecase.CreateSeckillOrder` | internal/biz/seckill.go:256-433 | The request is granted iff no limiter or lookup stands in the way, its id is unspent, it asks for no more than the limit, its user has neither a mark nor a Pending or Paid order in the activity, its coupon if any is the user's own, unused, in time, of a known kind and over its threshold, the counter covers the quantity, and the send gets through; the message it is answered with is given field by field; and exactly when each refusal is the answer is stated too. Granted, it changes exactly stock, mark, coupon, record, message and keys; refused, nothing but its idempotency key, the order number, and perhaps the mark of a user who has bought. Either way it is a schedule of the protocol and keeps the invariant. |
| `Seckill.GrantedIff` | internal/biz/seckill.go:269-364 | Which requests are granted, with which message and amounts, and which inputs meet each of: duplicate request, limit exceeded, already bought, coupon invalid, insufficient stock. |
| `Seckill.SeckillUsecase.ApplyCoupon` | internal/biz/seckill.go:1086-1131 | Prices the order and uses the coupon, or refuses for validity, owner, threshold or type and uses nothing. |
| `Seckill.SeckillUsecase.Publish` | internal/biz/seckill.go:368-420 | Record, then message; after a failed send the record, stock, mark and coupon are taken back in that order. |
| `Seckill.FailedSendRoundTrip` | internal/biz/seckill.go:403-417 | A reservation whose send failed leaves only the spent idempotency key and order number. |
| `Seckill.CouponRoundTrip` | internal/biz/seckill.go:351-354 | Using a usable coupon and restoring it gives back the coupon table. |
| `Seckill.RedisRoundTrip` | internal/biz/seckill.go:403-409 | Deduct, record, and both taken back leave Redis as it was. |
| `Seckill.GivenBackRuns` | internal/biz/seckill.go:441-455 | The four store calls of a give-back are steps of the protocol. |
| `Seckill.Deployment.GiveBackReservation` | internal/biz/seckill.go:441-455 | Stock, mark, coupon and record are given back in this order, and nothing else changes. |
| `Consumer.OrderConsumer.ProcessMessage` | internal/kafka/consumer.go:157-197 | By error and count, spelled out: one consumption ends in exactly one of: confirmed or order-exists, one retry with count one higher and its backoff, or a dead letter with the reservation given back; on a shutdown or a send that fails it is left unacknowledged and nothing changes. The new state is stated in full and is a schedule of the protocol. |
| `Consumer.OrderConsumer.RouteFailure` | internal/kafka/consumer.go:271-325 | Retry, dead letter with rollback, or drop as the error and the count decide, with the backoff of the next attempt; nothing changes when the send fails. |
| `Consumer.OrderConsumer.ConfirmSeckillOrder` | internal/biz/seckill.go:488-568 | On commit the record goes and the timer is set for fifteen minutes later; on failure nothing changes. |
| `Consumer.OrderConsumer.RollbackSeckillReservation` | internal/biz/seckill.go:436-456 | Gives back exactly what the message's reservation took. |
| `Consumer.OrderConsumer.ReplayDeadLetter` | internal/biz/seckill.go:458-485 | Puts the letter back on the retry topic with its count one higher and marks it replayed; an unknown letter or a failed send changes nothing, and a letter sent but not marked is reported as a failure. |
| `Consumer.ReplayGetsOneAttempt` | internal/biz/seckill.go:474-480 | A letter that had used up its retries gets one attempt per replay. |
| `OrderCancel.OrderCancelService.CancelTimeoutOrder` | internal/biz/order_cancel.go:26-75 | A Pending order is cancelled with everything given back in both stores; any other order and any failed transaction change nothing; it is a schedule of the protocol. |
| `OrderCancel.OrderCancelService.CancelOrder` | internal/biz/seckill.go:940-962 | Only the buyer can cancel, and only a Pending order; every other outcome leaves the state as it was. |
| `OrderCancel.TimeoutWorker.HandleTimeout` | internal/job/delay_queue.go:194-259 | A claimed order leaves the processing set exactly when the worker met no error, and then it is no longer Pending. |
| `OrderCancel.OrderIsOnSale` | internal/biz/order_cancel.go:45-47 | Restoring stock never fails: the SKU of every order exists. |
| `Purchase.DeadLetterUndoesReservation` | internal/kafka/consumer.go:308-325 | A message that ends as a dead letter undoes its reservation in both stores. |
| `Purchase.CancelUndoesPurchase` | internal/biz/order_cancel.go:41-71 | Reserve, confirm, cancel: Redis, coupons and available stock are back where they were; the cancelled row, spent keys and two row versions remain. |
| `Purchase.RetryAfterCancelIsDropped` | internal/data/repo/mysql_repo.go:770-826 | After a purchase and its cancellation, the same user's next request is granted like the first, its message is dropped without an order, and its reservation stays unresolved. |
| `Purchase.ReservedRuns` | internal/biz/seckill.go:325-420 | From every state in which the script grants a request, its whole reservation is a schedule of the protocol. |
| `ProtocolRuns.EveryOrderAddsUp` | internal/biz/seckill.go:509-521 | In every run that grants only coupons of at most 100 percent, each order row's amount is the uint64 product of its price and quantity, the discount is within it, and final amount plus discount is the amount. |
| `ProtocolRuns.ConsumedAtMostFourTimes` | internal/kafka/consumer.go:271-306 | In every run in which sends to the retry and dead-letter topics get through and offsets are committed, a request's message is consumed at most MaxRetryCount + 1 times, whatever else fails. |
| `Redelivery.RedeliveryIsHarmlessIff` | internal/kafka/consumer.go:157-197 | For every message ever sent and every later state, one more consumption of it keeps the invariant iff it changes nothing or its reservation is still on record with nobody working on it. |
| `Redelivery.RedeliverySurplus` | internal/biz/seckill.go:458-485 | What one more consumption adds to Redis stock, reservations and live orders taken together: nothing if it changes nothing or takes over the reservation, otherwise the message's quantity. |
| `Redelivery.ReplayIsHarmlessIff` | internal/biz/seckill.go:458-485 | Once a dead letter's rollback is through, a replay keeps the invariant iff it changes nothing, however much later; otherwise it overdraws the account by its whole quantity. |
| `Redelivery.DeadLetterIsOver` | internal/kafka/consumer.go:308-325 | After the final failure nothing of the request is on record, in hand or under way. |
| `Redelivery.OverStays` | internal/biz/seckill.go:280-284 | And so it stays along every run: the request's id is spent. |
| `Redelivery.SoldWithoutCouponOrMark` | internal/biz/seckill.go:436-456 | An order sold without its reservation has a coupon that is free or somebody else's, and leaves the buy marks as they were. |
| `ProtocolRuns.ReachableRecordsOnOffer` | internal/biz/seckill.go:391-400 | Every pending record is for a SKU on sale in its activity and for at least one unit. |
| `Purchase.QuotedAmountIsStored` | internal/biz/seckill.go:509-521 | The amounts quoted to the buyer are the amounts stored with the order, recomputation of zeros included, and for percentages up to 100 the discount is within the amount and the parts add up. |
| `Compensate.CompensateTask.FixPendingReservations` | internal/job/compensate.go:81-137 | From any state, leaves exactly the records younger than two minutes; ordered ones are only deleted, the others given back. It is a schedule of the protocol, and keeps its invariant, if no older record was in progress. |
| `Compensate.ReservationIsLeftAlone` | internal/job/compensate.go:97-99 | A reservation made at some time is left alone for exactly the next 120 seconds. |
| `Compensate.CompensateTask.SyncStockConsistency` | internal/job/compensate.go:51-79 | Sets each listed SKU's existing counter to the value listed when the pass began. |
| `Compensate.SyncTouchesStockOnly` | internal/job/compensate.go:59-78 | After a pass each existing counter of a listed SKU shows a value listed for it when the pass began; all other counters and everything else are untouched. |
| `Compensate.SyncIsHarmlessIff` | internal/job/compensate.go:59-77 | Writing a value listed in any earlier reachable state changes nothing, and keeps the invariant, iff the units held equal what the row has lost since; otherwise the ledger is off by exactly the difference. |
| `Compensate.SyncOfUntouchedRowIff` | internal/job/compensate.go:59-77 | With the row's version unmoved since the listing, the write is harmless iff nothing is held outside orders; otherwise it raises Redis by exactly those units. |
| `ProtocolRuns.RunEvolvesRows` | internal/data/repo/mysql_repo.go:371-410 | Along every run SKU rows stay, versions only grow, and an unmoved version means unmoved stock. |
| `Compensate.SyncChangesNothingAtRest` | internal/job/compensate.go:59-78 | At rest with every reservation resolved and no listed row touched since the listing, a pass changes nothing. |
| `Compensate.FixKeepsInvIffNotInProgress` | internal/job/compensate.go:97-130 | In every reachable state, giving back an old record keeps the invariant iff neither its message is under way nor its request nor another give-back is being worked on. |
| `Compensate.FixedTwice` | internal/job/compensate.go:112-130 | A record given back under somebody's hands: the holder keeps what it had, and Redis stock plus held units exceed the database's stock by the record's quantity. |
| `Compensate.FixedTooEarlyOversells` | internal/job/compensate.go:97-130 | Given back too early and then confirmed, a message leaves Redis ahead of MySQL by twice its quantity less what is held. |
| `Compensate.SweepKeepsYoung` | internal/job/compensate.go:81-137 | A sweep over any scan order removes exactly the old records it met and touches no order, message or thread. |
| `DelayQueue.RangeIsEarliestBatch` | internal/job/delay_queue.go:124-134 | A batch consists of due members, in score order, as many as there are up to the limit, and nothing due that is left out comes before one taken. |
| `DelayQueue.RoundInNumbers` | internal/job/delay_queue.go:82-166 | One scan claims at most a hundred orders, all that are due if fewer, each for sixty seconds; claims still running and scores of waiting orders stay, expired claims are due at once. |
| `DelayQueue.NextPollIs` | internal/job/delay_queue.go:169-191 | The next scan is when the earliest order falls due, but within one to thirty seconds, and after thirty on an empty queue. |
| `DelayQueue.RoundEffect` | internal/job/delay_queue.go:82-110 | One scan takes a batch out of due-plus-expired work, adds nothing to it, and leaves none if the batch is short. |
| `DelayQueue.DelayQueue.ClaimDueOrders` | internal/job/delay_queue.go:113-141 | The claim script moves the earliest due batch to processing with the claim's deadline. |
| `DelayQueue.DelayQueue.RequeueExpiredProcessing` | internal/job/delay_queue.go:144-166 | The requeue script moves the earliest expired batch back to main, due at once. |
| `DelayQueue.DelayQueue.RunOnce` | internal/job/delay_queue.go:82-110 | Requeue, claim, and the next poll time: at once after a full batch, thirty seconds after a claim that failed; a failed requeue is passed over. |
| `DelayQueue.DelayQueue.Drain` | internal/job/delay_queue.go:90-109 | At a fixed clock the scanner's loop ends, having claimed every due order and expired claim exactly once and nothing else. |
| `DelayQueue.NoOrderSleptPast` | internal/job/delay_queue.go:169-191 | The next poll is not later than any order that is due a second or more from now. |
| `QueueRuns.QueueLosesNothing` | internal/job/delay_queue.go:124-155 | An order whose Add took effect is in exactly one of the two sets or no longer Pending, and never in both, under any interleaving of scanners, crashes, payments and cancels. |
| `QueueRuns.NothingFiresEarly` | internal/job/delay_queue.go:147-155 | No order is claimed before its original due time by the claiming clock, although requeueing rewrites scores; no worker cancels an order that was not claimed on time. |
| `QueueRuns.UnsettledOrdersComeUp` | internal/job/delay_queue.go:82-110 | Once a clock is past an order's due time and all deadlines set so far, an unsettled order is part of the next scan's work, whatever crashed before. |
| `QueueRuns.StepKeeps` | internal/job/delay_queue.go:194-222 | Every step of scanners, workers, consumers and database keeps the queue's invariant. |
| `Payment.Cashier.PaySeckillOrder` | internal/biz/seckill.go:654-732 | Refuses by existence, owner, status and age in this order; creates the one record with the order's final amount, or answers with the existing one; after a failed commit the record stays and the answer is an error. |
| `Payment.ChargeAnswers` | internal/biz/seckill.go:668-725 | Which inputs meet each refusal of a payment: no order, another user's, not Pending, more than 900 seconds old; and what the answer says. |
| `PaymentRuns.ChargesAreDue` | internal/biz/seckill.go:668-725 | Over every step: a record or an answer for an order is added only on behalf of its buyer, while it is Pending and at most 900 seconds old. |
| `PaymentRuns.DueChargesAreAnswered` | internal/biz/seckill.go:690-725 | A buyer who asks in time for a Pending order is answered with its one record's number and its final amount. |
| `PaymentRuns.SettledIsNeverCharged` | internal/biz/seckill.go:680-683 | In every run: an order no longer Pending and without a record never gets one, and no answer for it is ever added. |
| `Deadlines.PayableForFifteenMinutes` | internal/biz/seckill.go:1160-1167 | While an order is Pending its buyer is refused as late at exactly the times more than 900 seconds after its confirmation. |
| `Deadlines.ConfirmThenPay` | internal/biz/seckill.go:560-566 | Confirmed, then asked to pay: late exactly if after the score of the order's timer, which is the confirmation plus 900. |
| `Payment.CallbackAnswers` | internal/biz/seckill.go:754-838 | Every callback answer by answer: unknown record, wrong order, wrong amount, duplicate, failure, payment, late payment; with the record and the order it leaves. |
| `Payment.Cashier.HandlePayCallback` | internal/biz/seckill.go:735-845 | Every branch of the callback with its effect on record and order; a record write that fails or changes nothing is an error and undoes the order's update, while after a failed commit the record's write stays. |
| `Payment.PayStore.UpdatePayInfoStatus` | internal/data/repo/mysql_repo.go:1231-1267 | Sets status and time of the record, and reports a write that changed no column as a missing record. |
| `Payment.PayStore.CreatePayInfo` | internal/data/repo/mysql_repo.go:314-340 | Inserts iff neither order number nor platform number is taken. |
| `PaymentRuns.PaidIffRecorded` | internal/biz/seckill.go:754-838 | In every careful run: the record says SUCCESS iff the order is Paid, or a callback is about to commit it, or that commit failed, exclusively; "success but canceled" only with a Cancel order. |
| `PaymentRuns.OneRecordOneAmount` | internal/biz/seckill.go:690-725 | One record per order, over the order's final amount; every pay request is answered with its number, which no other record has. |
| `PaymentRuns.OutcomesAreFinal` | internal/data/repo/mysql_repo.go:1094-1105 | In careful runs Paid and Cancel orders never change again and a success stays on record; with callbacks in turn a record with a success status never changes at all. |
| `PaymentRuns.LostPaymentStaysLost` | internal/biz/seckill.go:770-778 | With callbacks in turn, after a failed commit every further notice is ignored as a duplicate, so the order never becomes Paid. |
| `PaymentRuns.StaleSuccessRepairs` | internal/biz/seckill.go:825-838 | In careful runs, a second success notice that had read the record in time makes a lost payment good: order Paid, record SUCCESS, invariant kept. |
| `PaymentRuns.FailedCommitLoses` | internal/biz/seckill.go:825-838 | From every reachable state in which a payment can succeed, a failed commit leads to a reachable one in which it is lost. |
| `PaymentRuns.CancelledOnceAmongCallbacks` | internal/biz/seckill.go:806-831 | Among callbacks, stock is restored once iff the order is Cancel, never if Paid, and a later success is recorded for refund. |
| `PaymentRuns.RacingCallbacks` | internal/biz/seckill.go:755-800 | Success and failure notices that overlap leave a Paid order with a FAILED record. |
| `PaymentRuns.StepKeepsIff` | internal/biz/seckill.go:770-838 | Whatever overlaps, a step keeps the joint invariant iff it does not write a failure over a success that came in since its callback read the record; success notices are always harmless. |
| `PaymentRuns.RunKeepsIff` | internal/biz/seckill.go:754-838 | A run keeps the joint invariant at every point iff all its writes are careful in that sense. |
| `PaymentRuns.TurnsKeep` | internal/biz/seckill.go:754-838 | Callbacks that take turns are careful, leave success records alone, and never put a lost payment right. |
| `PaymentRuns.CallbackIsARun` | internal/biz/seckill.go:754-838 | The uninterrupted callback does what its separate steps do. |
| `PaymentRuns.RunKeeps` | internal/biz/seckill.go:754-838 | Every careful run ends with the joint invariant of orders and records. |
| `Limiter.WindowBound` | internal/cache/limiter.go:42-64 | Over every window of every call sequence, granted calls are at most capacity plus rate times the window. |
| `Limiter.GrantedAtMostClimb` | internal/cache/limiter.go:52-62 | Whatever the clock does, granted calls are at most capacity plus rate times the clock's forward movement. |
| `Limiter.BoundIffSteadyClock` | internal/cache/limiter.go:42-64 | For each call sequence: the bound holds in every window and for all parameters iff the clock never steps back; already from the first call to the last no other clock will do. |
| `Limiter.TokensStayWithin` | internal/cache/limiter.go:42-62 | Tokens stay between zero and the capacity. |
| `Limiter.NothingIsLost` | internal/cache/limiter.go:42-66 | Over every window of a steady clock, tokens left plus calls granted are at least the smaller of the capacity and the tokens at the start plus what flows in. |
| `Limiter.ImpatienceIsNotPunished` | internal/cache/limiter.go:52-66 | A call at least one token's time after the last granted one is granted, however many denied calls came in between. |
| `Limiter.BucketParamsAre` | internal/cache/limiter.go:77-99 | Rate, capacity and time to live for every limit, burst and window. |
| `Limiter.PacedCallsAreGranted` | internal/cache/limiter.go:52-62 | Calls at least one token's time apart are never denied when the capacity is at least one. |
| `Limiter.ExpiryInvisibleIffRefilled` | internal/cache/limiter.go:64-72 | Deleting idle keys changes no verdict on any steady call sequence iff the capacity is at most rate times time to live. |
| `Limiter.ParamsHideExpiry` | internal/cache/limiter.go:77-99 | The computed parameters meet that condition for positive limits, bursts up to three limits, and windows within the seven-day cap. |
| `Limiter.LongWindowsNeedTheBurstBound` | internal/cache/limiter.go:91-98 | For whole windows of at least twenty seconds the burst bound is also necessary. |
| `Limiter.TheThreeLimits` | internal/biz/seckill.go:269-298 | For the three limits in use expiry is invisible, and no user gets more than six requests through in a second. |
| `Limiter.RateLimiter.RunBucket` | internal/cache/limiter.go:26-74 | The script refills, caps, takes a token if there is one, and stores bucket and time to live of its own key only. |
| `Pricing.MoneyAddsUp` | internal/biz/seckill.go:1107-1123 | For both coupon kinds the discount is within the amount and final amount plus discount is the amount. |
| `Pricing.PercentExactIffNoOverflow` | internal/biz/seckill.go:1113-1114 | The discount is the true percentage iff the uint64 product does not overflow. |
| `Pricing.PercentSafeIffAtMost100` | internal/biz/seckill.go:1113-1114 | A percentage value never discounts more than the amount, for all amounts, iff it is at most 100. |
| `Pricing.ZeroMeansMissing` | internal/biz/seckill.go:509-521 | What is stored for any message: amounts that are there are taken, a zero is worked out from price, quantity and discount. |
| `Pricing.StoredAmountsAreTheQuotedOnes` | internal/biz/seckill.go:509-521 | Reading zero as missing recomputes exactly the triple that was sent, a coupon paying everything included. |
| `Routing.ErrorsDecide` | internal/kafka/error_classify.go:18-58 | For every error and count: an existing order is acknowledged; the busy signal, a text telling of timeout, deadlock or refused connection, and temporary network errors are retried below a count of three; the nine final sentinels and anything else are dead letters. |
| `ProtocolRuns.TransientErrorsGetFourAttempts` | internal/kafka/consumer.go:286-301 | Over runs: a transient error dead-letters a message exactly at its fourth consumption, and before leaves it and its reservation as they were with the count one higher. |
| `ProtocolRuns.RetryCountTells` | internal/kafka/consumer.go:286-297 | Along every run the retry count of a message under way is the number of its consumptions. |
| `Routing.LifeIsShortAndEndsOnce` | internal/kafka/consumer.go:271-306 | Whatever errors occur, a message is consumed at most three more times; all but the last consumption are retries with rising counts, the last is final. |
| `Routing.PersistentFaultIsDeadLettered` | internal/kafka/error_classify.go:18-58 | A message that only meets transient errors is consumed four times and then dead-lettered. |
| `Routing.CalculateBackoff` | internal/kafka/consumer.go:381-394 | The doubling loop computes min(10 s times 2^(n-1), 10 min) without leaving int64. |
| `Routing.BackoffNondecreasing` | internal/kafka/consumer.go:381-394 | Delays never decrease and stay between ten seconds and ten minutes. |
| `Routing.BackoffDoubles` | internal/kafka/consumer.go:381-394 | Ten seconds first, then doubling up to ten minutes. |
| `Routing.RetriesFitInGrace` | internal/job/compensate.go:97-99 | The waits before the three retries are seventy seconds together, less than the compensator's two minutes. |
| `CouponIssue.TemplatesAreNeverOverdrawn` | internal/data/repo/mysql_repo.go:591-606 | In every history, remaining and issued coupons of each template make up its total. |
| `CouponIssue.OneCouponPerKey` | internal/data/repo/mysql_repo.go:550-590 | All grants with one key after the first are answered as duplicates with that same coupon and change nothing. |
| `CouponIssue.InvitersShareOneCoupon` | internal/biz/coupon.go:43-45 | Invitations without review and key share a key: the second user is shown the first user's coupon. |
| `CouponIssue.DefaultKeysAgreeIff` | internal/biz/coupon.go:43-45 | Two default keys are equal iff review number and scene are; the user plays no part. |
| `CouponIssue.CouponsEarned` | internal/biz/coupon.go:88-139 | Which scene each request resolves to, and the coupon of each scene with its kind, value, threshold and days. |
| `CouponIssue.GrantedIs` | internal/data/repo/mysql_repo.go:550-650 | A coupon granted for the first time: its owner, scene, key, status and last day, and the template row it is counted off, reused if there is one, else made with a hundred thousand. |
| `CouponIssue.ResolvedScenesAreIssuable` | internal/biz/coupon.go:88-139 | Which requests resolve, that the resolved scene would also be accepted explicitly, has a template, and prices every order soundly. |
| `Witnesses.CompensatedTooEarly` | internal/job/compensate.go:97-130 | A reachable sale with a message still under way after two minutes, whose unit the compensator gives back. |
| `Witnesses.CompensatedThenSold` | internal/job/compensate.go:97-130 | That message is then confirmed, and Redis offers ten units where the database has nine. |
| `Witnesses.CompensatedWhileSending` | internal/biz/seckill.go:391-420 | A reachable sale in which the request itself is still sending after two minutes, and is compensated all the same. |
| `Witnesses.SynchronisedMeanwhile` | internal/job/compensate.go:67-77 | A reachable sale with one unit held, which synchronising hands to Redis a second time. |
| `Witnesses.ReplayStarvesAdmitted` | internal/biz/seckill.go:458-485 | A reachable sale with all ten units held: a dead letter is replayed and sold, eleven units are accounted for, and the message that Redis had admitted meets insufficient stock. |
| `Witnesses.SynchronisedLate` | internal/job/compensate.go:59-77 | A listing taken before a unit is reserved and confirmed: with nothing held, writing it leaves Redis at ten and the database at nine. |
| `Witnesses.RetriedInVain` | scripts/seckill.sql:173-175 | A reachable state after a cancellation in which the second attempt is granted and dropped. |
| `Witnesses.PaymentsGoWrong` | internal/biz/seckill.go:754-838 | A reachable lost payment, and from a reachable state a race that leaves a Paid order with a FAILED record. |
| `Witnesses.LostAndRepaired` | internal/biz/seckill.go:825-838 | A reachable lost payment that an overlapping success notice then makes good. |
| `Witnesses.SecondInviterGetsNothing` | internal/biz/coupon.go:43-45 | A history of two invitations in which the second user is shown the first one's coupon. |
| `CouponIssue.CouponStore.GrantUserCoupon` | internal/data/repo/mysql_repo.go:550-609 | One coupon issued and one counted off, or a duplicate answer, or with none left nothing at all; the invariant survives. |
| `CouponIssue.CouponStore.GetOrCreateCouponTemplate` | internal/data/repo/mysql_repo.go:612-650 | The matching row, or a new one with a hundred thousand coupons. |
| `CouponIssue.CouponStore.GrantCouponByReview` | internal/biz/coupon.go:34-73 | The whole grant: user, scene, key, template, transaction, with the error of the first that fails. |

## Left out

- Redis or MySQL calls that fail half way in the request path, such as the exit of CreateSeckillOrder that keeps the coupon used (internal/biz/seckill.go:337-340), are outside the fault-free runs of `Protocol`; `Adversarial` covers what MySQL keeps then.
- Expiry of buy marks, pending records and idempotency keys is not modelled; only the limiter's keys expire.
- Duplicate delivery and replays are not steps of `Protocol`: `Redelivery` says what one of them does to each of its states, and `Adversarial` what MySQL keeps through any number of them and of forged messages. Offsets are cumulative, so a message left unacknowledged may be passed over by a later one; no theorem says that it comes again.
- Compensate.SyncIsHarmlessIff: speaks of a write that is made; the program compares with the counter first, and makes none when the values agree at that moment.
- Compensate.CompensateTask.SyncStockConsistency: the listing is an input of the pass; the query's page of a thousand rows is not modelled.
- Consumer.OrderConsumer.ProcessMessage: does not model messages that do not parse, which the program sends to the dead letters without a rollback, since there is no request to speak about.
- Seckill.SeckillUsecase.CreateSeckillOrder: takes the answers of the limiters, the activity and product caches and the send as inputs; their own behaviour is not part of it.
- RedisRepo.RedisStore.DeductStock: does not model the expiry of the buy mark, because fault-free runs end before it.
- The consumer also marks order numbers as consumed in Redis (internal/kafka/consumer.go:231-235); the marks share a name space with request ids, so only a request whose id is some order's number would notice, and the model has none.
- PaymentRuns.RunKeeps: assumes that no failure notice is written over a success that came in since it read the record, which the code does not check; PaymentRuns.StepKeepsIff shows that exactly this matters.
- PaymentRuns.LostPaymentStaysLost: assumes that callbacks for one order take turns, since an overlapping one can repair the loss.
- Coupon reads and the conditional update that uses the coupon are one step; the update repeats the condition, so a coupon taken in between is refused there.
- Order numbers are naturals. Redis breaks ties between equal scores by member text, which is the numeric order for snowflake numbers of equal length.
- The queue's lock keys and the semaphore that limits concurrent workers: a busy lock is one of the failures a worker may meet, and the limit only delays dispatch.
- Crashes between the confirm transaction and the queue's Add leave an order without a timer; QueueRuns.QueueLosesNothing speaks about orders whose Add took effect.
- Limiter: token amounts are reals, the rounding of stored decimals is not modelled.
- Trimming and upper-casing of coupon scenes happen before the model's requests; source types and source ids of coupons are descriptive and not kept.
- CouponIssue.CouponStore.GrantUserCoupon: grants are transactions one after another; the branch for a concurrent insert of the same key is not reached then.
- Callback signatures, time parsing, display texts other than template names, product, image and trace fields of messages and orders.
- Product and activity caches, Bloom filter, warm-up after the start of a sale, admin updates, list pages, and leader election. The warmed-up caches are the opening state.
