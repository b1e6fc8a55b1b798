/** More that holds along every run of the protocol: reservations on record are for SKUs on sale, messages are
    consumed a bounded number of times, and the money of every order adds up. */
module ProtocolRuns {
  import opened Wrappers
  import opened Entities
  import opened RedisRepo
  import opened MysqlRepo
  import opened StockLedger
  import opened Books
  import opened Protocol
  import opened ProtocolInv
  import opened ProtocolTheorems
  import Pricing
  import Routing

  /** The steps of a request up to its message. */
  predicate Creating(step: Step) {
    step.Begin? || step.Reject? || step.ApplyCoupon? || step.RunScript? || step.ReturnCoupon? || step.Record?
    || step.Send?
  }

  predicate GivingBack(step: Step) {
    step.Compensate? || step.Undo?
  }

  /** The rest work on nobody's request. */
  predicate SameRequests(s: Sys, t: Sys) {
    t.threads == s.threads && t.topic == s.topic && t.redis.idempotent == s.redis.idempotent
  }

  lemma CancellationIsElsewhere(s: Sys, step: Step)
    requires step.CancelOrder? || step.RepayCache?
    ensures SameRequests(s, Do(s, step))
  {
    hide CancelTx, DoConsume;
  }

  lemma ElsewhereIs(s: Sys, step: Step)
    requires !Creating(step) && !GivingBack(step) && !step.Consume?
    ensures SameRequests(s, Do(s, step))
  {
    hide HasRequest, DoCancel, DoRepayCache, DoConsume;
    if step.CancelOrder? || step.RepayCache? {
      hide Do, SameRequests;
      CancellationIsElsewhere(s, step);
    }
  }

  predicate OnlyGivesBack(s: Sys, t: Sys, r: RequestId) {
    && t.topic == s.topic && t.redis.idempotent == s.redis.idempotent
    && (r in t.threads ==> t.threads[r].Undoing? || (r in s.threads && t.threads[r] == s.threads[r]))
  }

  lemma StageGivesBack(s: Sys, q: RequestId, c: Claim, stage: UndoStage, r: RequestId)
    ensures OnlyGivesBack(s, GiveBack(s, q, c, stage), r)
  {
  }

  lemma UndoGivesBack(s: Sys, q: RequestId, r: RequestId)
    ensures OnlyGivesBack(s, DoUndo(s, q), r)
  {
    hide GiveBack;
    if q in s.threads && s.threads[q].Undoing? {
      StageGivesBack(s, q, s.threads[q].claim, s.threads[q].stage, r);
    }
  }

  /** Giving back starts, advances and ends give-backs, and nothing else among the requests. */
  lemma GivingBackIs(s: Sys, step: Step, r: RequestId)
    requires GivingBack(step)
    ensures OnlyGivesBack(s, Do(s, step), r)
  {
    hide DoUndo, HasRequest;
    match step
    case Undo(q) => UndoGivesBack(s, q, r);
    case Compensate(_) =>
  }

  // ---- reservations on record ----

  ghost predicate RecordsOnOffer(s: Sys, onSale: map<Id, Offer>) {
    forall r :: r in s.redis.pending ==>
                  OnOffer(onSale, StockKeyOf(s.redis.pending[r].claim)) && 1 <= s.redis.pending[r].claim.quantity
  }

  /** A pending record was there before, or has just been written for a request that has its units. */
  predicate PendingFrom(s: Sys, t: Sys, r: RequestId)
    requires r in t.redis.pending
  {
    (r in s.redis.pending && t.redis.pending[r] == s.redis.pending[r]) ||
    (r in s.threads && s.threads[r].Deducted? && t.redis.pending[r].claim == s.threads[r].draft.claim)
  }

  lemma CreatingRecords(s: Sys, step: Step, r: RequestId)
    requires Creating(step) && r in Do(s, step).redis.pending
    ensures PendingFrom(s, Do(s, step), r)
  {
    hide DraftFor, CouponsAfter, CouponRestored;
  }

  lemma OthersRecord(s: Sys, step: Step, r: RequestId)
    requires !Creating(step) && !step.Consume? && r in Do(s, step).redis.pending
    ensures PendingFrom(s, Do(s, step), r)
  {
    hide HasRequest, CancelTx, CouponRestored, DoConsume, DoBegin, DoReject, DoApplyCoupon, DoRunScript,
      DoReturnCoupon, DoRecord, DoSend;
  }

  lemma ConsumeKeepsRedis(s: Sys, q: RequestId, now: int, abort: Option<GoError>)
    ensures DoConsume(s, q, now, abort).redis == s.redis
  {
    hide ConfirmOutcome, Routing.Route;
  }

  lemma PendingAfter(s: Sys, step: Step, r: RequestId)
    requires r in Do(s, step).redis.pending
    ensures PendingFrom(s, Do(s, step), r)
  {
    hide DoConsume;
    match step
    case Consume(q, now, abort) => ConsumeKeepsRedis(s, q, now, abort);
    case _ =>
      hide Do, PendingFrom;
        if Creating(step) {
          CreatingRecords(s, step, r);
        } else {
          OthersRecord(s, step, r);
        }
  }

  lemma RecordsStayOnOffer(s: Sys, step: Step, onSale: map<Id, Offer>)
    requires Inv(s, onSale) && RecordsOnOffer(s, onSale)
    ensures RecordsOnOffer(Do(s, step), onSale)
  {
    hide Do;
    forall r | r in Do(s, step).redis.pending
      ensures OnOffer(onSale, StockKeyOf(Do(s, step).redis.pending[r].claim))
              && 1 <= Do(s, step).redis.pending[r].claim.quantity
    {
      PendingAfter(s, step, r);
      if r in s.threads && s.threads[r].Deducted? {
        DeductedIsOnOffer(s, r, onSale);
      }
    }
  }

  lemma DeductedIsOnOffer(s: Sys, r: RequestId, onSale: map<Id, Offer>)
    requires Inv(s, onSale) && r in s.threads && s.threads[r].Deducted?
    ensures OnOffer(onSale, StockKeyOf(s.threads[r].draft.claim)) && 1 <= s.threads[r].draft.claim.quantity
  {
    HoldsAre(s);
    hide Holds, LinksOk;
    HeldIsOnOffer(View(s), onSale, ByRequest(r));
  }

  lemma {:induction false} RunStaysOnOffer(s: Sys, steps: seq<Step>, onSale: map<Id, Offer>)
    requires Inv(s, onSale) && RecordsOnOffer(s, onSale)
    ensures RecordsOnOffer(Exec(s, steps), onSale)
    decreases |steps|
  {
    hide Inv, Do, RecordsOnOffer;
    if steps != [] {
      StepKeeps(s, steps[0], onSale);
      RecordsStayOnOffer(s, steps[0], onSale);
      RunStaysOnOffer(Do(s, steps[0]), steps[1..], onSale);
    }
  }

  lemma ReachableRecordsOnOffer(s: Sys, onSale: map<Id, Offer>)
    requires Reachable(s, onSale)
    ensures RecordsOnOffer(s, onSale)
  {
    hide Inv, Do;
    var opening, steps :| Opening(opening, onSale) && s == Exec(opening, steps);
    OpeningInv(opening, onSale);
    RunStaysOnOffer(opening, steps, onSale);
  }

  // ---- what the version of a SKU row tells ----

  /** Rows are never deleted and keep their activity; the version only grows, and with it unchanged so is the stock. */
  ghost predicate RowsEvolve(before: map<Id, SkuRow>, after: map<Id, SkuRow>) {
    forall sku :: sku in before ==>
                    && sku in after && after[sku].activity == before[sku].activity
                    && before[sku].version <= after[sku].version
                    && (before[sku].version == after[sku].version ==> after[sku] == before[sku])
  }

  lemma RowsEvolveTransitive(a: map<Id, SkuRow>, b: map<Id, SkuRow>, c: map<Id, SkuRow>)
    requires RowsEvolve(a, b) && RowsEvolve(b, c)
    ensures RowsEvolve(a, c)
  {
  }

  lemma ConsumeEvolvesRows(s: Sys, q: RequestId, now: int, abort: Option<GoError>)
    ensures RowsEvolve(s.db.skus, DoConsume(s, q, now, abort).db.skus)
  {
    hide Clashes, OrderRow, Routing.Route;
  }

  lemma CancelEvolvesRows(s: Sys, caller: nat, no: OrderNo)
    ensures RowsEvolve(s.db.skus, DoCancel(s, caller, no).db.skus)
  {
  }

  lemma CreatingKeepsRows(s: Sys, step: Step)
    requires Creating(step)
    ensures Do(s, step).db.skus == s.db.skus
  {
    hide DraftFor, Deduct, CouponsAfter, CouponRestored, DoCompensate, DoUndo, DoConsume, DoSettle, DoCancel,
      DoRepayCache, DoPay, DoGrant;
  }

  lemma OthersKeepRows(s: Sys, step: Step)
    requires !step.Consume? && !step.CancelOrder?
    ensures Do(s, step).db.skus == s.db.skus
  {
    if Creating(step) {
      hide Do;
      CreatingKeepsRows(s, step);
    } else {
      hide HasRequest, CouponRestored, DoConsume, DoCancel, DoBegin, DoReject, DoApplyCoupon, DoRunScript,
        DoReturnCoupon, DoRecord, DoSend;
    }
  }

  lemma StepEvolvesRows(s: Sys, step: Step)
    ensures RowsEvolve(s.db.skus, Do(s, step).db.skus)
  {
    hide DoConsume, DoCancel;
    match step
    case Consume(q, now, abort) => ConsumeEvolvesRows(s, q, now, abort);
    case CancelOrder(caller, no) => CancelEvolvesRows(s, caller, no);
    case _ =>
      OthersKeepRows(s, step);
      hide Do;
  }

  lemma {:induction false} RunEvolvesRows(s: Sys, steps: seq<Step>)
    ensures RowsEvolve(s.db.skus, Exec(s, steps).db.skus)
    decreases |steps|
  {
    hide Do;
    if steps != [] {
      StepEvolvesRows(s, steps[0]);
      RunEvolvesRows(Do(s, steps[0]), steps[1..]);
      RowsEvolveTransitive(s.db.skus, Do(s, steps[0]).db.skus, Exec(s, steps).db.skus);
    }
  }

  // ---- how often a message is consumed ----

  /** The consumptions of request r's message along a run, retries included. */
  ghost function Consumptions(s: Sys, steps: seq<Step>, r: RequestId): nat
    decreases |steps|
  {
    if steps == [] then 0
    else Consumes(s, steps[0], r) + Consumptions(Do(s, steps[0]), steps[1..], r)
  }

  function Consumes(s: Sys, step: Step, r: RequestId): nat {
    if step.Consume? && step.r == r && r in s.topic then 1 else 0
  }

  /** The request has not been sent yet, and nothing has gone wrong with it. */
  predicate MayBeSent(s: Sys, r: RequestId) {
    r !in s.redis.idempotent ||
    (r in s.threads && (s.threads[r].Checked? || s.threads[r].Applied? || s.threads[r].Deducted?
                        || s.threads[r].Recorded?))
  }

  /** The consumptions that may still come. */
  function Left(s: Sys, r: RequestId): nat {
    if r in s.topic then
      if s.topic[r].retryCount >= Routing.MAX_RETRY_COUNT then 1
      else Routing.MAX_RETRY_COUNT + 1 - s.topic[r].retryCount
    else if MayBeSent(s, r) then Routing.MAX_RETRY_COUNT + 1
    else 0
  }

  /** What a consumption does to its own request: the message goes, or comes back with the count one higher. */
  lemma ConsumeIs(s: Sys, r: RequestId, now: int, abort: Option<GoError>)
    requires r in s.topic
    ensures var t := DoConsume(s, r, now, abort);
            && t.redis == s.redis
            && (r in t.topic ==> s.topic[r].retryCount < Routing.MAX_RETRY_COUNT
                                 && t.topic[r].retryCount == s.topic[r].retryCount + 1)
            && (r in t.threads && t.threads[r] != Undoing(s.topic[r].m.claim, GiveStock) ==> r in s.threads)
  {
    hide ConfirmTx, Routing.ClassifyOrderError;
  }

  /** And to the others: nothing. */
  lemma ConsumeIsElsewhere(s: Sys, q: RequestId, now: int, abort: Option<GoError>, r: RequestId)
    requires q != r || q !in s.topic
    ensures var t := DoConsume(s, q, now, abort);
            && t.redis == s.redis && (r in t.topic <==> r in s.topic) && (r in s.topic ==> t.topic[r] == s.topic[r])
            && (r in t.threads <==> r in s.threads) && (r in s.threads ==> t.threads[r] == s.threads[r])
  {
    hide ConfirmTx, Routing.Route;
  }

  lemma ConsumeUsesUp(s: Sys, q: RequestId, now: int, abort: Option<GoError>, r: RequestId)
    requires ThreadsOk(s) && TopicOk(s) && RecordsOk(s)
    ensures (if q == r && r in s.topic then 1 else 0) + Left(DoConsume(s, q, now, abort), r) <= Left(s, r)
  {
    if q == r && r in s.topic {
      ConsumeIs(s, r, now, abort);
      assert r in s.redis.idempotent && r !in s.threads;
    } else {
      ConsumeIsElsewhere(s, q, now, abort, r);
    }
    hide DoConsume, HasRequest;
  }

  lemma SendUsesUp(s: Sys, q: RequestId, delivered: bool, r: RequestId)
    requires ThreadsOk(s)
    ensures Left(DoSend(s, q, delivered), r) <= Left(s, r)
  {
    hide HasRequest;
  }

  /** Nothing but a send or a consumption touches the topic, and only new requests may still be sent. */
  lemma CreatingAddsNothing(s: Sys, step: Step, r: RequestId)
    requires ThreadsOk(s) && RecordsOk(s) && Creating(step) && !step.Send?
    ensures Left(Do(s, step), r) <= Left(s, r)
  {
    hide HasRequest, DraftFor, CouponsAfter, CouponRestored;
  }

  lemma GivingBackAddsNothing(s: Sys, step: Step, r: RequestId)
    requires GivingBack(step)
    ensures Left(Do(s, step), r) <= Left(s, r)
  {
    GivingBackIs(s, step, r);
    hide Do;
  }

  lemma SameLeft(s: Sys, t: Sys, r: RequestId)
    requires SameRequests(s, t)
    ensures Left(t, r) == Left(s, r)
  {
  }

  lemma StepUsesUp(s: Sys, step: Step, r: RequestId)
    requires ThreadsOk(s) && TopicOk(s) && RecordsOk(s)
    ensures Consumes(s, step, r) + Left(Do(s, step), r) <= Left(s, r)
  {
    hide Left, ThreadsOk, TopicOk, RecordsOk, DoConsume, DoSend;
    match step
    case Consume(q, now, abort) => ConsumeUsesUp(s, q, now, abort, r);
    case Send(q, delivered) => SendUsesUp(s, q, delivered, r);
    case _ =>
      if Creating(step) {
        CreatingAddsNothing(s, step, r);
      } else if GivingBack(step) {
        GivingBackAddsNothing(s, step, r);
      } else {
        ElsewhereIs(s, step);
        SameLeft(s, Do(s, step), r);
      }
  }

  lemma {:induction false} ConsumptionsAreBounded(s: Sys, steps: seq<Step>, r: RequestId, onSale: map<Id, Offer>)
    requires Inv(s, onSale)
    ensures Consumptions(s, steps, r) <= Left(s, r)
    decreases |steps|
  {
    hide Do, BooksInv, DbInv, Left, Consumes, ThreadsOk, TopicOk, RecordsOk;
    if steps != [] {
      StepUsesUp(s, steps[0], r);
      StepKeeps(s, steps[0], onSale);
      ConsumptionsAreBounded(Do(s, steps[0]), steps[1..], r, onSale);
    }
  }

  /** In every run of the protocol, in which sends to the retry and dead-letter topics get through and offsets are
      committed, a request's message is consumed at most four times. */
  lemma ConsumedAtMostFourTimes(s: Sys, steps: seq<Step>, r: RequestId, onSale: map<Id, Offer>)
    requires Opening(s, onSale)
    ensures Consumptions(s, steps, r) <= 4
  {
    OpeningInv(s, onSale);
    ConsumptionsAreBounded(s, steps, r, onSale);
  }

  function Count(s: Sys, r: RequestId): nat {
    if r in s.topic then s.topic[r].retryCount else 0
  }

  lemma ConsumeCounts(s: Sys, q: RequestId, now: int, abort: Option<GoError>, r: RequestId)
    requires ThreadsOk(s) && TopicOk(s) && RecordsOk(s) && Left(DoConsume(s, q, now, abort), r) > 0
    ensures Count(DoConsume(s, q, now, abort), r) == Count(s, r) + (if q == r && r in s.topic then 1 else 0)
  {
    if q == r && r in s.topic {
      ConsumeIs(s, r, now, abort);
      assert r in s.redis.idempotent && r !in s.threads;
    } else {
      ConsumeIsElsewhere(s, q, now, abort, r);
    }
    hide DoConsume, HasRequest;
  }

  lemma SendCounts(s: Sys, q: RequestId, delivered: bool, r: RequestId)
    requires ThreadsOk(s)
    ensures Count(DoSend(s, q, delivered), r) == Count(s, r)
  {
    hide HasRequest;
  }

  lemma CreatingKeepsTopic(s: Sys, step: Step)
    requires Creating(step) && !step.Send?
    ensures Do(s, step).topic == s.topic
  {
    hide DraftFor, Deduct, CouponsAfter, CouponRestored;
  }

  /** As long as a message can still be consumed, its retry count tells how often it has been. */
  lemma StepCounts(s: Sys, step: Step, r: RequestId)
    requires ThreadsOk(s) && TopicOk(s) && RecordsOk(s) && Left(Do(s, step), r) > 0
    ensures Count(Do(s, step), r) == Count(s, r) + Consumes(s, step, r)
  {
    hide Left, ThreadsOk, TopicOk, RecordsOk, DoConsume, DoSend;
    match step
    case Consume(q, now, abort) => ConsumeCounts(s, q, now, abort, r);
    case Send(q, delivered) => SendCounts(s, q, delivered, r);
    case _ =>
      if Creating(step) {
        CreatingKeepsTopic(s, step);
      } else if GivingBack(step) {
        GivingBackIs(s, step, r);
      } else {
        ElsewhereIs(s, step);
      }
      hide Do;
  }

  lemma {:induction false} RetryCountTells(s: Sys, steps: seq<Step>, r: RequestId, onSale: map<Id, Offer>)
    requires Inv(s, onSale) && r in Exec(s, steps).topic
    ensures Exec(s, steps).topic[r].retryCount == Count(s, r) + Consumptions(s, steps, r)
    decreases |steps|
  {
    hide Do, BooksInv, DbInv, Consumes, ThreadsOk, TopicOk, RecordsOk;
    if steps != [] {
      StepKeeps(s, steps[0], onSale);
      StaysAlive(Do(s, steps[0]), steps[1..], r, onSale);
      hide Left;
      StepCounts(s, steps[0], r);
      RetryCountTells(Do(s, steps[0]), steps[1..], r, onSale);
    }
  }

  lemma {:induction false} StaysAlive(s: Sys, steps: seq<Step>, r: RequestId, onSale: map<Id, Offer>)
    requires Inv(s, onSale) && r in Exec(s, steps).topic
    ensures Left(s, r) > 0
    decreases |steps|
  {
    if steps != [] {
      hide Do, BooksInv, DbInv, Consumes, Left, ThreadsOk, TopicOk, RecordsOk;
      StepKeeps(s, steps[0], onSale);
      StaysAlive(Do(s, steps[0]), steps[1..], r, onSale);
      StepUsesUp(s, steps[0], r);
    }
  }

  /** When a consumption dead-letters a message for a transient error, it is the fourth: the message has been consumed
      exactly three times before. So a message that meets nothing worse is given four attempts. */
  lemma TransientErrorsGetFourAttempts(s: Sys, steps: seq<Step>, r: RequestId, now: int, e: GoError,
                                       onSale: map<Id, Offer>)
    requires Opening(s, onSale) && r in Exec(s, steps).topic && Routing.Transient(e)
    ensures var t := Exec(s, steps);
            var after := Do(t, Consume(r, now, Some(e)));
            if Consumptions(s, steps, r) == 3
            then r in after.threads && r !in after.topic
            else Consumptions(s, steps, r) < 3
                 && after == t.(topic := t.topic[r := Delivery(t.topic[r].m, Consumptions(s, steps, r) + 1)])
  {
    hide Opening, Inv, Exec, Consumptions, Do, Routing.Transient;
    OpeningInv(s, onSale);
    NothingSent(s, r, onSale);
    RetryCountTells(s, steps, r, onSale);
    FourAtMost(s, steps, r, now, onSale, e);
    TransientConsumed(Exec(s, steps), r, now, e);
  }

  lemma NothingSent(s: Sys, r: RequestId, onSale: map<Id, Offer>)
    requires Opening(s, onSale)
    ensures Count(s, r) == 0
  {
  }

  lemma TransientConsumed(t: Sys, r: RequestId, now: int, e: GoError)
    requires r in t.topic && Routing.Transient(e)
    ensures var after, n := Do(t, Consume(r, now, Some(e))), t.topic[r].retryCount;
            if n < 3 then after == t.(topic := t.topic[r := Delivery(t.topic[r].m, n + 1)])
            else r in after.threads && r !in after.topic
  {
    Routing.ErrorsDecide(e, t.topic[r].retryCount);
    Routing.TransientIsNoSuccess(e);
    hide Routing.Transient, Routing.Route, ConfirmTx;
  }

  lemma FourAtMost(s: Sys, steps: seq<Step>, r: RequestId, now: int, onSale: map<Id, Offer>, e: GoError)
    requires Opening(s, onSale) && r in Exec(s, steps).topic
    ensures Consumptions(s, steps, r) <= 3
  {
    hide Do, Opening, Inv;
    var next := Consume(r, now, Some(e));
    ConsumedAtMostFourTimes(s, steps + [next], r, onSale);
    ConsumptionsAppend(s, steps, next, r);
  }

  lemma {:induction false} ConsumptionsAppend(s: Sys, steps: seq<Step>, next: Step, r: RequestId)
    ensures Consumptions(s, steps + [next], r) == Consumptions(s, steps, r) + Consumes(Exec(s, steps), next, r)
    decreases |steps|
  {
    hide Do, Consumes;
    if steps == [] {
      assert [] + [next] == [next] && [next][1..] == [];
      assert Consumptions(Do(s, next), [], r) == 0;
    } else {
      assert (steps + [next])[1..] == steps[1..] + [next];
      ConsumptionsAppend(Do(s, steps[0]), steps[1..], next, r);
    }
  }

  // ---- money ----

  predicate SoundCoupon(row: CouponRow) {
    row.value < TWO_TO_THE_64 && (row.kind == 2 ==> row.value <= 100)
  }

  predicate SoundCoupons(coupons: map<Id, CouponRow>) {
    forall id :: id in coupons ==> SoundCoupon(coupons[id])
  }

  /** Amounts as the price and the quantity make them, with a discount that fits. */
  predicate PricedRight(money: Money, price: nat, quantity: int) {
    && money.orderAmount == Pricing.OrderAmount(price, quantity)
    && money.discount <= money.orderAmount
    && money.finalAmount + money.discount == money.orderAmount
  }

  predicate ThreadPriced(t: Thread) {
    match t
    case Applied(d) => PricedRight(d.money, d.price, d.claim.quantity)
    case Refused(d) => PricedRight(d.money, d.price, d.claim.quantity)
    case Deducted(d) => PricedRight(d.money, d.price, d.claim.quantity)
    case Recorded(m) => PricedRight(m.money, m.price, m.claim.quantity)
    case SendFailed(m) => PricedRight(m.money, m.price, m.claim.quantity)
    case _ => true
  }

  predicate RowPriced(row: Order) {
    PricedRight(row.money, row.price, row.claim.quantity)
  }

  ghost predicate MoneyOk(s: Sys) {
    && SoundCoupons(s.db.coupons)
    && (forall r :: r in s.threads ==> ThreadPriced(s.threads[r]))
    && TopicPriced(s.topic)
    && (forall no :: no in s.db.orders ==> RowPriced(s.db.orders[no]))
  }

  lemma DraftIsPricedRight(db: Mysql, req: CreateRequest, product: ProductInfo, now: int)
    requires SoundCoupons(db.coupons) && DraftFor(db, req, product, now).Success?
    ensures var d := DraftFor(db, req, product, now).value;
            PricedRight(d.money, d.price, d.claim.quantity)
  {
    var amount := Pricing.OrderAmount(product.price, ClaimOf(req).quantity);
    if req.coupon != 0 {
      var row := db.coupons[req.coupon];
      assert SoundCoupon(row);
      Pricing.MoneyAddsUp(row.kind, row.value, amount);
    }
  }

  lemma RowIsPricedRight(m: Message, now: int)
    requires PricedRight(m.money, m.price, m.claim.quantity) && m.claim.quantity == ToUint32(m.claim.quantity)
    ensures RowPriced(OrderRow(m, now))
  {
    assert m.money == Pricing.Priced(Pricing.OrderAmount(m.price, m.claim.quantity), m.money.discount);
    Pricing.StoredAmountsAreTheQuotedOnes(m, m.money.discount);
  }

  predicate SoundGrant(step: Step) {
    step.GrantCoupon? ==> SoundCoupon(step.row)
  }

  lemma ConsumeKeepsCoupons(s: Sys, q: RequestId, now: int, abort: Option<GoError>)
    ensures DoConsume(s, q, now, abort).db.coupons == s.db.coupons
  {
    hide Clashes, Routing.Route;
  }

  lemma CouponsStaySound(s: Sys, step: Step)
    requires SoundCoupons(s.db.coupons) && SoundGrant(step)
    ensures SoundCoupons(Do(s, step).db.coupons)
  {
    hide DoConsume, HasRequest, DraftFor, Deduct;
    if step.Consume? {
      ConsumeKeepsCoupons(s, step.r, step.now, step.abort);
    }
  }

  lemma AppliedIsPriced(s: Sys, q: RequestId, product: ProductInfo, now: int, r: RequestId)
    requires MoneyOk(s) && r in DoApplyCoupon(s, q, product, now).threads
    ensures ThreadPriced(DoApplyCoupon(s, q, product, now).threads[r])
  {
    hide PricedRight, DraftFor, CouponsAfter;
    if q in s.threads && s.threads[q].Checked? && DraftFor(s.db, s.threads[q].req, product, now).Success? {
      DraftIsPricedRight(s.db, s.threads[q].req, product, now);
    }
  }

  lemma CreatingPriced(s: Sys, step: Step, r: RequestId)
    requires MoneyOk(s) && Creating(step) && !step.ApplyCoupon? && r in Do(s, step).threads
    ensures ThreadPriced(Do(s, step).threads[r])
  {
    hide PricedRight, DoApplyCoupon, Deduct, CouponRestored;
  }

  lemma ConsumerThreadsPriced(s: Sys, q: RequestId, now: int, abort: Option<GoError>, r: RequestId)
    requires MoneyOk(s) && r in DoConsume(s, q, now, abort).threads
    ensures ThreadPriced(DoConsume(s, q, now, abort).threads[r])
  {
    hide PricedRight, ConfirmOutcome, Routing.Route;
  }

  lemma GivingBackPriced(s: Sys, step: Step, r: RequestId)
    requires MoneyOk(s) && GivingBack(step) && r in Do(s, step).threads
    ensures ThreadPriced(Do(s, step).threads[r])
  {
    GivingBackIs(s, step, r);
    hide Do, PricedRight;
  }

  lemma ThreadWasPriced(s: Sys, r: RequestId)
    requires MoneyOk(s) && r in s.threads
    ensures ThreadPriced(s.threads[r])
  {
  }

  lemma ThreadsStayPriced(s: Sys, step: Step, r: RequestId)
    requires MoneyOk(s) && r in Do(s, step).threads
    ensures ThreadPriced(Do(s, step).threads[r])
  {
    hide MoneyOk, ThreadPriced, DoApplyCoupon, DoConsume;
    match step
    case ApplyCoupon(q, product, now) => AppliedIsPriced(s, q, product, now, r);
    case Consume(q, now, abort) => ConsumerThreadsPriced(s, q, now, abort, r);
    case _ =>
      if Creating(step) {
        CreatingPriced(s, step, r);
      } else if GivingBack(step) {
        GivingBackPriced(s, step, r);
      } else {
        ElsewhereIs(s, step);
        ThreadWasPriced(s, r);
      }
  }

  ghost predicate TopicPriced(topic: map<RequestId, Delivery>) {
    forall r :: r in topic ==> PricedRight(topic[r].m.money, topic[r].m.price, topic[r].m.claim.quantity)
  }

  lemma ConsumedTopicPriced(s: Sys, q: RequestId, now: int, abort: Option<GoError>)
    requires TopicPriced(s.topic)
    ensures TopicPriced(DoConsume(s, q, now, abort).topic)
  {
    hide PricedRight, ConfirmOutcome, Routing.Route;
  }

  lemma TopicStaysPriced(s: Sys, step: Step)
    requires MoneyOk(s)
    ensures TopicPriced(Do(s, step).topic)
  {
    hide PricedRight, HasRequest, DraftFor, CancelTx, Deduct, DoConsume;
    if step.Consume? {
      ConsumedTopicPriced(s, step.r, step.now, step.abort);
    }
  }

  lemma ConsumeAddsOneRow(s: Sys, q: RequestId, now: int, abort: Option<GoError>)
    ensures var orders := DoConsume(s, q, now, abort).db.orders;
            orders == s.db.orders ||
            (q in s.topic && orders == s.db.orders[s.topic[q].m.orderNo := OrderRow(s.topic[q].m, now)])
  {
    hide HasRequest, Clashes, OrderRow, Routing.Route;
  }

  lemma ConfirmedRowsPriced(s: Sys, q: RequestId, now: int, abort: Option<GoError>, onSale: map<Id, Offer>, no: OrderNo)
    requires Inv(s, onSale) && MoneyOk(s) && no in DoConsume(s, q, now, abort).db.orders
    ensures RowPriced(DoConsume(s, q, now, abort).db.orders[no])
  {
    ConsumeAddsOneRow(s, q, now, abort);
    if q in s.topic {
      MessageFits(s, q, onSale);
      hide Inv, PricedRight, DoConsume;
      RowIsPricedRight(s.topic[q].m, now);
    }
    hide Inv, OrderRow, DoConsume, PricedRight, RowPriced;
  }

  lemma MessageFits(s: Sys, q: RequestId, onSale: map<Id, Offer>)
    requires Inv(s, onSale) && q in s.topic
    ensures s.topic[q].m.claim.quantity == ToUint32(s.topic[q].m.claim.quantity)
  {
    ReservedQuantity(s, q, onSale);
  }

  /** Only a confirmation adds an order row; nothing else touches more than its status. */
  lemma OtherRowsPriced(s: Sys, step: Step, no: OrderNo)
    requires MoneyOk(s) && !step.Consume? && no in Do(s, step).db.orders
    ensures RowPriced(Do(s, step).db.orders[no])
  {
    hide PricedRight, DoConsume, DoCancel;
    if step.CancelOrder? {
      CancelKeepsRows(s, step.caller, step.no, no);
    } else if Creating(step) || GivingBack(step) {
      OrdersStay(s, step);
      hide Do;
    } else {
      hide HasRequest, DoBegin, DoReject, DoApplyCoupon, DoRunScript, DoReturnCoupon, DoRecord, DoSend, DoUndo;
    }
  }

  lemma CancelKeepsRows(s: Sys, caller: nat, cancelled: OrderNo, no: OrderNo)
    requires MoneyOk(s) && no in DoCancel(s, caller, cancelled).db.orders
    ensures RowPriced(DoCancel(s, caller, cancelled).db.orders[no])
  {
    hide PricedRight;
  }

  lemma OrdersStay(s: Sys, step: Step)
    requires Creating(step) || GivingBack(step)
    ensures Do(s, step).db.orders == s.db.orders
  {
    hide HasRequest, DraftFor, Deduct, CouponsAfter, CouponRestored, DoConsume, DoSettle, DoCancel, DoRepayCache, DoPay,
      DoGrant;
  }

  lemma StepKeepsMoney(s: Sys, step: Step, onSale: map<Id, Offer>)
    requires Inv(s, onSale) && MoneyOk(s) && SoundGrant(step)
    ensures MoneyOk(Do(s, step))
  {
    CouponsStaySound(s, step);
    forall r | r in Do(s, step).threads
      ensures ThreadPriced(Do(s, step).threads[r])
    {
      ThreadsStayPriced(s, step, r);
    }
    TopicStaysPriced(s, step);
    forall no | no in Do(s, step).db.orders
      ensures RowPriced(Do(s, step).db.orders[no])
    {
      RowsStayPriced(s, step, onSale, no);
    }
    hide Inv, Do, PricedRight, RowPriced, ThreadPriced, SoundCoupons;
  }

  lemma RowsStayPriced(s: Sys, step: Step, onSale: map<Id, Offer>, no: OrderNo)
    requires Inv(s, onSale) && MoneyOk(s) && no in Do(s, step).db.orders
    ensures RowPriced(Do(s, step).db.orders[no])
  {
    hide Inv, MoneyOk, RowPriced, DoConsume;
    match step
    case Consume(q, now, abort) => ConfirmedRowsPriced(s, q, now, abort, onSale, no);
    case _ => OtherRowsPriced(s, step, no);
  }

  lemma {:induction false} RunKeepsMoney(s: Sys, steps: seq<Step>, onSale: map<Id, Offer>)
    requires Inv(s, onSale) && MoneyOk(s) && forall step :: step in steps ==> SoundGrant(step)
    ensures MoneyOk(Exec(s, steps))
    decreases |steps|
  {
    hide Inv, Do, MoneyOk, SoundGrant;
    if steps != [] {
      StepKeeps(s, steps[0], onSale);
      StepKeepsMoney(s, steps[0], onSale);
      RunKeepsMoney(Do(s, steps[0]), steps[1..], onSale);
    }
  }

  /** As long as only sound coupons are granted, every order of every run costs what its price and quantity make it
      cost, less a discount that fits. */
  lemma EveryOrderAddsUp(s: Sys, steps: seq<Step>, onSale: map<Id, Offer>, no: OrderNo)
    requires Opening(s, onSale) && SoundCoupons(s.db.coupons) && forall step :: step in steps ==> SoundGrant(step)
    requires no in Exec(s, steps).db.orders
    ensures var row := Exec(s, steps).db.orders[no];
            && row.money.orderAmount == Pricing.OrderAmount(row.price, row.claim.quantity)
            && row.money.discount <= row.money.orderAmount
            && row.money.finalAmount + row.money.discount == row.money.orderAmount
  {
    OpeningMoney(s, onSale);
    OpeningInv(s, onSale);
    RunKeepsMoney(s, steps, onSale);
    hide Opening, Inv, Exec, SoundCoupons, SoundGrant;
    assert RowPriced(Exec(s, steps).db.orders[no]);
  }

  lemma OpeningMoney(s: Sys, onSale: map<Id, Offer>)
    requires Opening(s, onSale) && SoundCoupons(s.db.coupons)
    ensures MoneyOk(s)
  {
  }
}
