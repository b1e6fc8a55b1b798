/** The reservation protocol over Redis, MySQL and Kafka as a state machine in which every single store
    call is one step, so that creators, consumers, the compensator and cancellers interleave freely.

    The runs are fault-free in the following sense: Redis and MySQL calls take effect, a transaction may
    abort cleanly for any reason, a failed send delivers nothing, keys do not expire, messages are not
    delivered twice, and the compensator looks only at reservations whose message is no longer under way. */
module Protocol {
  import opened Wrappers
  import opened Entities
  import opened RedisRepo
  import opened MysqlRepo
  import Pricing
  import Routing

  datatype CreateRequest = CreateRequest(requestId: RequestId, user: Id, activity: Id, sku: Id, quantity: int,
                                         coupon: Id, address: Id)

  /** What the product cache says; it may be stale. */
  datatype ProductInfo = ProductInfo(price: nat, limit: int)

  datatype Draft = Draft(claim: Claim, address: Id, price: nat, money: Money)

  datatype UndoStage = GiveStock | GiveMark | GiveCoupon | DropRecord

  /** Where the code working on a request has got to. */
  datatype Thread =
    | Checked(req: CreateRequest)                 // request id marked, checks going on
    | Applied(draft: Draft)                       // coupon used
    | Refused(draft: Draft)                       // the stock script said no
    | Deducted(draft: Draft)                      // the stock script said yes
    | Recorded(m: Message)                        // pending record written
    | SendFailed(m: Message)                      // message not sent, pending record to go
    | Undoing(claim: Claim, stage: UndoStage)     // giving a reservation back, one store at a time

  datatype Delivery = Delivery(m: Message, retryCount: nat)

  datatype Debt = OweStock | OweMark

  /** A cancellation whose transaction has committed: the order as it was read, and what Redis is still owed. */
  datatype CancelTask = CancelTask(no: OrderNo, order: Order, debt: Debt)

  datatype Sys = Sys(
    redis: Redis,
    db: Mysql,
    topic: map<RequestId, Delivery>,
    threads: map<RequestId, Thread>,
    cancels: map<nat, CancelTask>,
    nextNo: OrderNo,
    // histories
    issued: map<OrderNo, RequestId>,
    restocked: multiset<OrderNo>,
    cacheRestocked: multiset<OrderNo>)

  datatype Step =
    | Begin(req: CreateRequest)
    | Reject(r: RequestId)
    | ApplyCoupon(r: RequestId, product: ProductInfo, now: int)
    | RunScript(r: RequestId)
    | ReturnCoupon(r: RequestId)
    | Record(r: RequestId, now: int)
    | Send(r: RequestId, delivered: bool)
    | MarkBuyer(key: MarkKey)
    | Consume(r: RequestId, now: int, abort: Option<GoError>)
    | Settle(r: RequestId)
    | Compensate(r: RequestId)
    | Undo(r: RequestId)
    | CancelOrder(caller: nat, no: OrderNo)
    | RepayCache(caller: nat)
    | Pay(no: OrderNo)
    | GrantCoupon(id: Id, row: CouponRow)
    | ChangeAddresses(addresses: set<Id>)

  // ---- creating a reservation (internal/biz/seckill.go, CreateSeckillOrder) ----

  /** The service layer turns a non-positive quantity into one. */
  function ClaimOf(req: CreateRequest): Claim {
    Claim(req.user, req.activity, req.sku, if req.quantity <= 0 then 1 else req.quantity, req.coupon)
  }

  function DoBegin(s: Sys, req: CreateRequest): Sys {
    if req.requestId in s.redis.idempotent then s
    else
      s.(redis := s.redis.(idempotent := s.redis.idempotent + {req.requestId}),
      threads := s.threads[req.requestId := Checked(req)])
  }

  /** Every check before the coupon is used may end the request. */
  function DoReject(s: Sys, r: RequestId): Sys {
    if r in s.threads && s.threads[r].Checked? then s.(threads := s.threads - {r}) else s
  }

  /** applyCoupon's verdict on a request: the draft with its amounts, or why the coupon cannot be used. */
  function DraftFor(db: Mysql, req: CreateRequest, product: ProductInfo, now: int): Result<Draft, GoError> {
    var claim := ClaimOf(req);
    var amount := Pricing.OrderAmount(product.price, claim.quantity);
    if claim.coupon == 0 then Success(Draft(claim, req.address, product.price, Money(amount, 0, amount)))
    else if !Usable(db.coupons, claim.coupon, now)
            || db.coupons[claim.coupon].user != claim.user then Failure(Biz(CouponInvalid))
    else if amount < db.coupons[claim.coupon].minAmount
    then Failure(Infra("order amount below coupon threshold", false))
    else
      match Pricing.Discount(db.coupons[claim.coupon].kind, db.coupons[claim.coupon].value, amount)
      case None => Failure(Infra("invalid coupon type", false))
      case Some(discount) => Success(Draft(claim, req.address, product.price, Pricing.Priced(amount, discount)))
  }

  function CouponsAfter(coupons: map<Id, CouponRow>, c: Claim): map<Id, CouponRow> {
    if c.coupon > 0 && c.coupon in coupons then CouponUsedUp(coupons, c.coupon) else coupons
  }

  function DoApplyCoupon(s: Sys, r: RequestId, product: ProductInfo, now: int): Sys {
    if r in s.threads && s.threads[r].Checked? then
      match DraftFor(s.db, s.threads[r].req, product, now)
      case Failure(_) => s.(threads := s.threads - {r})
      case Success(draft) =>
        s.(threads := s.threads[r := Applied(draft)], db := s.db.(coupons := CouponsAfter(s.db.coupons, draft.claim)))
    else s
  }

  function DoRunScript(s: Sys, r: RequestId): Sys {
    if r in s.threads && s.threads[r].Applied? then
      var draft := s.threads[r].draft;
      var (redis, res) := Deduct(s.redis, draft.claim);
      s.(redis := redis, threads := s.threads[r := if res == 1 then Deducted(draft) else Refused(draft)])
    else s
  }

  function DoReturnCoupon(s: Sys, r: RequestId): Sys {
    if r in s.threads && s.threads[r].Refused? then
      s.(db := s.db.(coupons := CouponRestored(s.db.coupons, s.threads[r].draft.claim.coupon)),
      threads := s.threads - {r})
    else s
  }

  function MessageFor(no: OrderNo, r: RequestId, draft: Draft): Message {
    Message(no, r, draft.claim, draft.address, draft.price, draft.money)
  }

  function DoRecord(s: Sys, r: RequestId, now: int): Sys {
    if r in s.threads && s.threads[r].Deducted? then
      var m := MessageFor(s.nextNo, r, s.threads[r].draft);
      s.(redis := SetPending(s.redis, PendingRecord(m.orderNo, r, m.claim, now)),
      threads := s.threads[r := Recorded(m)],
      nextNo := s.nextNo + 1,
      issued := s.issued[s.nextNo := r])
    else s
  }

  function DoSend(s: Sys, r: RequestId, delivered: bool): Sys {
    if r in s.threads && s.threads[r].Recorded? then
      var m := s.threads[r].m;
      if delivered then s.(topic := s.topic[r := Delivery(m, 0)], threads := s.threads - {r})
      else s.(threads := s.threads[r := SendFailed(m)])
    else s
  }

  // ---- consuming the message (internal/kafka/consumer.go, ConfirmSeckillOrder) ----

  ghost function ConfirmOutcome(db: Mysql, m: Message, now: int, abort: Option<GoError>): Result<Mysql, GoError> {
    match abort
    case Some(e) => Failure(e)
    case None => ConfirmTx(db, m, now)
  }

  /** What becomes of a message whose processing failed: the order-exists error counts as success. */
  function AfterFailure(s: Sys, r: RequestId, d: Delivery, e: GoError): Sys {
    match Routing.Route(e, d.retryCount)
    case Acked => s.(topic := s.topic - {r})
    case Retried(count) => s.(topic := s.topic[r := Delivery(d.m, count)])
    case DeadLettered => s.(topic := s.topic - {r}, threads := s.threads[r := Undoing(d.m.claim, GiveStock)])
  }

  ghost function DoConsume(s: Sys, r: RequestId, now: int, abort: Option<GoError>): Sys {
    if r in s.topic then
      match ConfirmOutcome(s.db, s.topic[r].m, now, abort)
      case Success(db) => s.(db := db, topic := s.topic - {r})
      case Failure(e) => AfterFailure(s, r, s.topic[r], e)
    else s
  }

  /** The pending record of an ordered request goes, whether the consumer or the compensator deletes it. */
  ghost function DoSettle(s: Sys, r: RequestId): Sys {
    if HasRequest(s.db.orders, r) then s.(redis := DeletePending(s.redis, r)) else s
  }

  // ---- giving a reservation back ----

  ghost function DoCompensate(s: Sys, r: RequestId): Sys {
    if r in s.redis.pending && r !in s.topic && r !in s.threads && !HasRequest(s.db.orders, r) then
      s.(threads := s.threads[r := Undoing(s.redis.pending[r].claim, GiveStock)])
    else s
  }

  // One store call each; the order is that of RollbackSeckillReservation, of the compensator and of a failed send.

  function ForgetUnsent(s: Sys, r: RequestId, c: Claim): Sys {
    s.(redis := DeletePending(s.redis, r), threads := s.threads[r := Undoing(c, GiveStock)])
  }

  function ReturnStock(s: Sys, r: RequestId, c: Claim): Sys {
    s.(redis := Rollback(s.redis, StockKeyOf(c), c.quantity), threads := s.threads[r := Undoing(c, GiveMark)])
  }

  function ReturnMark(s: Sys, r: RequestId, c: Claim): Sys {
    s.(redis := Unmark(s.redis, MarkKeyOf(c)), threads := s.threads[r := Undoing(c, GiveCoupon)])
  }

  function ReturnClaimedCoupon(s: Sys, r: RequestId, c: Claim): Sys {
    s.(db := s.db.(coupons := CouponRestored(s.db.coupons, c.coupon)),
    threads := s.threads[r := Undoing(c, DropRecord)])
  }

  function ForgetRecord(s: Sys, r: RequestId): Sys {
    s.(redis := DeletePending(s.redis, r), threads := s.threads - {r})
  }

  function GiveBack(s: Sys, r: RequestId, c: Claim, stage: UndoStage): Sys {
    match stage
    case GiveStock => ReturnStock(s, r, c)
    case GiveMark => ReturnMark(s, r, c)
    case GiveCoupon => ReturnClaimedCoupon(s, r, c)
    case DropRecord => ForgetRecord(s, r)
  }

  function DoUndo(s: Sys, r: RequestId): Sys {
    if r in s.threads && s.threads[r].SendFailed? then ForgetUnsent(s, r, s.threads[r].m.claim)
    else if r in s.threads && s.threads[r].Undoing? then GiveBack(s, r, s.threads[r].claim, s.threads[r].stage)
    else s
  }

  // ---- cancelling and paying an order (internal/biz/order_cancel.go, HandlePayCallback) ----

  function DoCancel(s: Sys, caller: nat, no: OrderNo): Sys {
    if caller in s.cancels then s
    else
      match CancelTx(s.db, no)
      case Failure(_) => s
      case Success((db, order)) =>
        if order.status != Pending then s
        else s.(db := db, cancels := s.cancels[caller := CancelTask(no, order, OweStock)],
             restocked := s.restocked + multiset{no})
  }

  function DoRepayCache(s: Sys, caller: nat): Sys {
    if caller !in s.cancels then s
    else
      var task := s.cancels[caller];
      var c := task.order.claim;
      match task.debt
      case OweStock =>
        s.(redis := Rollback(s.redis, StockKeyOf(c), c.quantity),
        cancels := s.cancels[caller := task.(debt := OweMark)],
        cacheRestocked := s.cacheRestocked + multiset{task.no})
      case OweMark => s.(redis := Unmark(s.redis, MarkKeyOf(c)), cancels := s.cancels - {caller})
  }

  function DoPay(s: Sys, no: OrderNo): Sys {
    match StatusChanged(s.db, no, Pending, Paid)
    case Some(db) => s.(db := db)
    case None => s
  }

  function DoGrant(s: Sys, id: Id, row: CouponRow): Sys {
    if id in s.db.coupons then s else s.(db := s.db.(coupons := s.db.coupons[id := row.(status := Unused)]))
  }

  // ---- runs ----

  ghost function Do(s: Sys, step: Step): Sys {
    match step
    case Begin(req) => DoBegin(s, req)
    case Reject(r) => DoReject(s, r)
    case ApplyCoupon(r, product, now) => DoApplyCoupon(s, r, product, now)
    case RunScript(r) => DoRunScript(s, r)
    case ReturnCoupon(r) => DoReturnCoupon(s, r)
    case Record(r, now) => DoRecord(s, r, now)
    case Send(r, delivered) => DoSend(s, r, delivered)
    case MarkBuyer(key) => s.(redis := Mark(s.redis, key))
    case Consume(r, now, abort) => DoConsume(s, r, now, abort)
    case Settle(r) => DoSettle(s, r)
    case Compensate(r) => DoCompensate(s, r)
    case Undo(r) => DoUndo(s, r)
    case CancelOrder(caller, no) => DoCancel(s, caller, no)
    case RepayCache(caller) => DoRepayCache(s, caller)
    case Pay(no) => DoPay(s, no)
    case GrantCoupon(id, row) => DoGrant(s, id, row)
    case ChangeAddresses(addresses) => s.(db := s.db.(addresses := addresses))
  }

  ghost function Exec(s: Sys, steps: seq<Step>): Sys
    decreases |steps|
  {
    if steps == [] then s else Exec(Do(s, steps[0]), steps[1..])
  }

  lemma {:induction false} ExecConcat(s: Sys, a: seq<Step>, b: seq<Step>)
    ensures Exec(s, a + b) == Exec(Exec(s, a), b)
    decreases |a|
  {
    hide Do;
    if a == [] {
      assert a + b == b;
    } else {
      ExecConcat(Do(s, a[0]), a[1..], b);
      assert (a + b)[1..] == a[1..] + b;
    }
  }

  /** The protocol can get from s to t. */
  ghost predicate Runs(s: Sys, t: Sys) {
    exists steps :: t == Exec(s, steps)
  }

  lemma RunsNowhere(s: Sys)
    ensures Runs(s, s)
  {
    assert s == Exec(s, []);
  }

  lemma RunsStep(s: Sys, t: Sys, step: Step)
    requires Runs(s, t)
    ensures Runs(s, Do(t, step))
  {
    hide Do;
    var steps :| t == Exec(s, steps);
    ExecConcat(s, steps, [step]);
    assert [step][1..] == [];
    assert Exec(t, [step]) == Do(t, step);
  }

  lemma RunsChain(s: Sys, t: Sys, u: Sys)
    requires Runs(s, t) && Runs(t, u)
    ensures Runs(s, u)
  {
    hide Do;
    var before :| t == Exec(s, before);
    var after :| u == Exec(t, after);
    ExecConcat(s, before, after);
  }

  /** After warm-up, before the first request: Redis and MySQL agree, and nothing is reserved or ordered. */
  ghost predicate Opening(s: Sys, onSale: map<Id, Offer>) {
    && OffersFit(onSale)
    && s.db.skus.Keys == onSale.Keys
    && (forall sku :: sku in onSale ==>
                        && s.db.skus[sku].activity == onSale[sku].activity
                        && s.db.skus[sku].available == onSale[sku].units)
    && s.db.orders == map[] && s.db.shipping == {}
    && (forall id :: id in s.db.coupons ==> s.db.coupons[id].status == Unused)
    && s.redis == Redis(map sku | sku in onSale ::
                          StockKey(onSale[sku].activity, sku) := onSale[sku].units, {}, map[], {})
    && s.topic == map[] && s.threads == map[] && s.cancels == map[]
    && s.issued == map[] && s.restocked == multiset{} && s.cacheRestocked == multiset{}
  }
}
