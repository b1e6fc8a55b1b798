/** Whole purchases: what a request, its message and a later cancellation leave behind together. */
module Purchase {
  import opened Wrappers
  import opened Entities
  import opened RedisRepo
  import opened MysqlRepo
  import opened Books
  import opened Protocol
  import opened ProtocolInv
  import opened Seckill
  import opened Consumer
  import opened OrderCancel
  import opened Maps
  import Pricing
  import Routing

  /** A request the script grants, with its draft. */
  ghost predicate Granted(s: Sys, req: CreateRequest, product: ProductInfo, now: int, draft: Draft) {
    && req.requestId !in s.redis.idempotent
    && DraftFor(s.db, req, product, now) == Success(draft)
    && Deduct(s.redis, draft.claim).1 == 1
  }

  /** Money, from the quote to the order row: what is stored is what was quoted, and it adds up for every coupon
      that prices soundly. */
  lemma QuotedAmountIsStored(db: Mysql, req: CreateRequest, product: ProductInfo, now: int, no: OrderNo, later: int)
    requires DraftFor(db, req, product, now).Success?
    requires req.coupon in db.coupons ==> db.coupons[req.coupon].value < TWO_TO_THE_64
    ensures var draft := DraftFor(db, req, product, now).value;
            var stored := OrderRow(MessageFor(no, req.requestId, draft), later).money;
            && stored == draft.money && stored.orderAmount == Pricing.OrderAmount(product.price, draft.claim.quantity)
            && ((req.coupon in db.coupons && db.coupons[req.coupon].kind == 2
                 ==> db.coupons[req.coupon].value <= 100) ==>
                  stored.discount <= stored.orderAmount && stored.finalAmount + stored.discount == stored.orderAmount)
  {
    var draft := DraftFor(db, req, product, now).value;
    var amount := Pricing.OrderAmount(product.price, draft.claim.quantity);
    if req.coupon != 0 {
      var row := db.coupons[req.coupon];
      var discount := Pricing.Discount(row.kind, row.value, amount).value;
      if row.kind == 1 || row.value <= 100 {
        Pricing.MoneyAddsUp(row.kind, row.value, amount);
      }
      Pricing.StoredAmountsAreTheQuotedOnes(MessageFor(no, req.requestId, draft), discount);
    } else {
      Pricing.StoredAmountsAreTheQuotedOnes(MessageFor(no, req.requestId, draft), 0);
    }
  }

  // ---- purchases are runs ----

  lemma UnsentRuns(s: Sys, req: CreateRequest, product: ProductInfo, now: int, draft: Draft)
    requires ThreadsOk(s) && Granted(s, req, product, now, draft)
    ensures Runs(s, Unsent(s, req, draft, now))
    ensures At(Unsent(s, req, draft, now), req.requestId, Recorded(MessageFor(s.nextNo, req.requestId, draft)))
  {
    hide DraftFor, Runs, ThreadsOk, CouponsAfter;
    var r := req.requestId;
    RunsNowhere(s);
    RunsStep(s, s, Begin(req));
    AppliedRuns(s, req, product, now);
    ScriptAfterCoupon(s, req, draft);
    var taken := CouponTaken(Begun(s, req), r, draft);
    RunsStep(s, taken, RunScript(r));
    assert DoRunScript(taken, r) == Scripted(taken, r, draft);
    RunsStep(s, Scripted(taken, r, draft), Record(r, now));
    assert DoRecord(Scripted(taken, r, draft), r, now) == Unsent(s, req, draft, now);
  }

  /** A granted request's way to its message is a run. */
  lemma ReservedRuns(s: Sys, req: CreateRequest, product: ProductInfo, now: int, draft: Draft)
    requires ThreadsOk(s) && RecordsOk(s) && Granted(s, req, product, now, draft)
    ensures StockKeyOf(draft.claim) in s.redis.stock && Runs(s, Reserved(s, req.requestId, draft, now))
  {
    var r, unsent := req.requestId, Unsent(s, req, draft, now);
    var m := MessageFor(s.nextNo, r, draft);
    UnsentRuns(s, req, product, now, draft);
    DraftClaim(s.db, req, product, now);
    DeliveredIsReserved(s, req, product, now);
    UnsentIs(s, req, draft, now);
    hide DraftFor, Runs, ThreadsOk, RecordsOk, Unsent, Reserved;
    RunsStep(s, unsent, Send(r, true));
    var sent := unsent.(topic := unsent.topic[r := Delivery(m, 0)], threads := unsent.threads - {r});
    assert DoSend(unsent, r, true) == sent;
    RunsStep(s, sent, MarkBuyer(MarkKeyOf(draft.claim)));
  }

  lemma CancelledRuns(s: Sys, caller: nat, no: OrderNo)
    requires no in s.db.orders && s.db.orders[no].status == Pending && s.db.orders[no].claim.sku in s.db.skus
    requires caller !in s.cancels
    ensures Runs(s, CancelledEverywhere(s, no))
  {
    var order := s.db.orders[no];
    var a := s.(db := Cancelled(s.db, no), cancels := s.cancels[caller := CancelTask(no, order, OweStock)],
    restocked := s.restocked + multiset{no});
    hide Runs;
    RunsNowhere(s);
    RunsStep(s, s, Step.CancelOrder(caller, no));
    assert DoCancel(s, caller, no) == a;
    RunsStep(s, a, RepayCache(caller));
    var b := DoRepayCache(a, caller);
    RunsStep(s, b, RepayCache(caller));
    PutDel(s.cancels, caller, CancelTask(no, order, OweMark));
    DelAbsent(s.cancels, caller);
    assert DoRepayCache(b, caller) == CancelledEverywhere(s, no);
  }

  // ---- what is left of them ----

  lemma ReturnedRedis(redis: Redis, r: RequestId, c: Claim, p: PendingRecord)
    requires Deduct(redis, c).1 == 1 && r !in redis.pending
    ensures var taken := Redis(redis.stock[StockKeyOf(c) := redis.stock[StockKeyOf(c)] - c.quantity],
                               redis.marks + {MarkKeyOf(c)}, redis.pending[r := p], redis.idempotent + {r});
            DeletePending(Unmark(Rollback(taken, StockKeyOf(c), c.quantity), MarkKeyOf(c)), r)
            == redis.(idempotent := redis.idempotent + {r})
  {
    var key := StockKeyOf(c);
    PutPut(redis.stock, key, redis.stock[key] - c.quantity, redis.stock[key]);
    PutSame(redis.stock, key, redis.stock[key]);
    PutDel(redis.pending, r, p);
    DelAbsent(redis.pending, r);
    assert redis.marks + {MarkKeyOf(c)} - {MarkKeyOf(c)} == redis.marks;
  }

  /** A message that ends as a dead letter undoes its reservation completely, in both stores. */
  lemma DeadLetterUndoesReservation(s: Sys, req: CreateRequest, product: ProductInfo, now: int, draft: Draft,
                                    later: int, abort: Option<GoError>)
    requires RecordsOk(s) && ThreadsOk(s) && TopicOk(s) && Granted(s, req, product, now, draft)
    ensures var t := Reserved(s, req.requestId, draft, now);
            var (u, outcome) := Consumed(t, req.requestId, later, abort);
            outcome.DeadLettered? ==> u == OnlySpent(s, req.requestId)
  {
    var r := req.requestId;
    var t := Reserved(s, r, draft, now);
    var m := MessageFor(s.nextNo, r, draft);
    assert t.topic[r] == Delivery(m, 0);
    assert t.topic - {r} == s.topic by {
      PutDel(s.topic, r, Delivery(m, 0));
      DelAbsent(s.topic, r);
    }
    ReturnedRedis(s.redis, r, draft.claim, PendingRecord(s.nextNo, r, draft.claim, now));
    CouponRoundTrip(s.db, req, product, now);
  }

  lemma GrantedFits(s: Sys, req: CreateRequest, product: ProductInfo, now: int, draft: Draft, onSale: map<Id, Offer>)
    requires Inv(s, onSale) && Granted(s, req, product, now, draft)
    ensures req.requestId !in s.redis.pending && req.requestId !in s.topic && s.nextNo !in s.db.orders
    ensures draft.claim.quantity == ToUint32(draft.claim.quantity)
    ensures Deduct(s.redis, draft.claim).1 == 1 && StockKeyOf(draft.claim) in s.redis.stock
    ensures CouponRestored(CouponsAfter(s.db.coupons, draft.claim), draft.claim.coupon) == s.db.coupons
  {
    CouponRoundTrip(s.db, req, product, now);
    DraftClaim(s.db, req, product, now);
    hide DraftFor, CouponsAfter, CouponRestored;
    assert 1 <= draft.claim.quantity;
    StockIsLimited(s, onSale, StockKeyOf(draft.claim));
  }

  lemma DraftClaim(db: Mysql, req: CreateRequest, product: ProductInfo, now: int)
    requires DraftFor(db, req, product, now).Success?
    ensures DraftFor(db, req, product, now).value.claim == ClaimOf(req)
  {
  }

  lemma StockIsLimited(s: Sys, onSale: map<Id, Offer>, key: StockKey)
    requires BooksInv(View(s), onSale) && key in s.redis.stock
    ensures s.redis.stock[key] < TWO_TO_THE_32
  {
    HeldAtLeast(Holds(s), onSale, key.sku);
  }

  lemma OrderedAndCancelled(db: Mysql, m: Message, later: int, coupons: map<Id, CouponRow>)
    requires ConfirmTx(db, m, later).Success? && m.orderNo !in db.orders
    requires m.claim.quantity == ToUint32(m.claim.quantity)
    requires CouponRestored(db.coupons, m.claim.coupon) == coupons
    ensures var sku, confirmed := m.claim.sku, ConfirmTx(db, m, later).value;
            && sku in db.skus && sku in confirmed.skus && m.orderNo in confirmed.orders
            && confirmed.orders[m.orderNo] == OrderRow(m, later)
            && OrderRow(m, later).claim == m.claim
            && Cancelled(confirmed, m.orderNo) == TracesInTables(db, m, later).(coupons := coupons)
  {
    var sku, q, row := m.claim.sku, m.claim.quantity, db.skus[m.claim.sku];
    assert m.claim.(quantity := q) == m.claim;
    PutPut(db.skus, sku, SkuRow(row.activity, row.available - q, row.version + 1), row.(version := row.version + 2));
    PutPut(db.orders, m.orderNo, OrderRow(m, later), OrderRow(m, later).(status := Cancel));
  }

  /** The tables after a purchase that was cancelled: the cancelled row stays, and the SKU row was written twice. */
  function TracesInTables(db: Mysql, m: Message, later: int): Mysql
    requires m.claim.sku in db.skus
  {
    var row := db.skus[m.claim.sku];
    db.(skus := db.skus[m.claim.sku := row.(version := row.version + 2)],
    orders := db.orders[m.orderNo := OrderRow(m, later).(status := Cancel)],
    shipping := db.shipping + {m.orderNo})
  }

  ghost function Bought(s: Sys, m: Message, draft: Draft, now: int, later: int): Sys
    requires StockKeyOf(draft.claim) in s.redis.stock
    requires ConfirmTx(Reserved(s, m.requestId, draft, now).db, m, later).Success?
  {
    var t := Reserved(s, m.requestId, draft, now);
    Confirmation(t, m.requestId, ConfirmTx(t.db, m, later).value)
  }

  /** A purchase confirmed and then cancelled: Redis, the coupons and every SKU's stock are back where they were.
      What remains is the cancelled order row, the spent keys, and two row versions. */
  lemma CancelUndoesPurchase(s: Sys, req: CreateRequest, product: ProductInfo, now: int, draft: Draft, later: int,
                             onSale: map<Id, Offer>)
    requires Inv(s, onSale) && Granted(s, req, product, now, draft)
    requires ConfirmTx(Reserved(s, req.requestId, draft, now).db, MessageFor(s.nextNo, req.requestId, draft),
                       later).Success?
    ensures var m := MessageFor(s.nextNo, req.requestId, draft);
            var u := Bought(s, m, draft, now, later);
            && m.orderNo in u.db.orders && m.claim.sku in u.db.skus && m.claim.sku in s.db.skus
            && u.db.orders[m.orderNo] == OrderRow(m, later) && OrderRow(m, later).claim == m.claim
            && CancelledEverywhere(u, m.orderNo) ==
               OnlySpent(s, m.requestId).(
               db := TracesInTables(s.db, m, later),
               restocked := s.restocked + multiset{m.orderNo}, cacheRestocked := s.cacheRestocked + multiset{m.orderNo})
  {
    hide Inv, DraftFor, ConfirmTx, CouponsAfter, CouponRestored, Cancelled, OrderRow, Deduct, Granted;
    var r := req.requestId;
    var m := MessageFor(s.nextNo, r, draft);
    GrantedFits(s, req, product, now, draft, onSale);
    OrderedAndCancelled(Reserved(s, r, draft, now).db, m, later, s.db.coupons);
    ReturnedRedis(s.redis, r, draft.claim, PendingRecord(s.nextNo, r, draft.claim, now));
    PutDel(s.topic, r, Delivery(m, 0));
    DelAbsent(s.topic, r);
  }

  /** With the coupons and Redis as they were, but for the first attempt's key, a request is granted as before. */
  lemma GrantedAgain(s: Sys, v: Sys, req: CreateRequest, product: ProductInfo, now: int, draft: Draft, again: RequestId)
    requires Granted(s, req, product, now, draft) && again !in v.redis.idempotent
    requires v.db.coupons == s.db.coupons && v.redis.stock == s.redis.stock && v.redis.marks == s.redis.marks
    ensures Granted(v, req.(requestId := again), product, now, draft)
  {
  }

  /** A request of a user whose row is in the way: its message is dropped without an order. */
  lemma RowInTheWay(w: Sys, r: RequestId, now: int, no: OrderNo)
    requires r in w.topic && w.topic[r].m.address in w.db.addresses && no in w.db.orders
    requires w.db.orders[no].claim.user == w.topic[r].m.claim.user
    requires w.db.orders[no].claim.activity == w.topic[r].m.claim.activity
    ensures Consumed(w, r, now, None) == (w.(topic := w.topic - {r}), Routing.Acked)
  {
    var m := w.topic[r].m;
    assert Clash(w.db.orders[no], OrderRow(m, now));
    assert ConfirmTx(w.db, m, now) == Failure(Biz(OrderExists));
  }

  /** The reservation and then the fate of a second attempt while the first one's row is there. */
  ghost predicate DroppedAgain(v: Sys, again: RequestId, draft: Draft, now: int, later: int)
    requires StockKeyOf(draft.claim) in v.redis.stock
  {
    var w := Reserved(v, again, draft, now);
    var dropped := w.(topic := w.topic - {again});
    Consumed(w, again, later, None) == (dropped, Routing.Acked) && Unresolved(dropped, again)
  }

  lemma SecondIsDropped(v: Sys, again: RequestId, draft: Draft, now: int, later: int, no: OrderNo)
    requires StockKeyOf(draft.claim) in v.redis.stock && draft.address in v.db.addresses
    requires no in v.db.orders && v.db.orders[no].claim == draft.claim && !HasRequest(v.db.orders, again)
    ensures DroppedAgain(v, again, draft, now, later)
  {
    RowInTheWay(Reserved(v, again, draft, now), again, later, no);
  }

  /** What a purchase and its cancellation leave in the tables stops no request but those with the spent ids. */
  lemma TracesFacts(s: Sys, m: Message, later: int, again: RequestId)
    requires RecordsOk(s) && m.claim.sku in s.db.skus && again !in s.redis.idempotent && again != m.requestId
    ensures var db := TracesInTables(s.db, m, later);
            && db.coupons == s.db.coupons && db.addresses == s.db.addresses
            && m.orderNo in db.orders && db.orders[m.orderNo].claim == OrderRow(m, later).claim
            && !HasRequest(db.orders, again)
  {
    assert !HasRequest(s.db.orders, again);
  }

  lemma AddressStands(db: Mysql, m: Message, later: int)
    requires ConfirmTx(db, m, later).Success?
    ensures m.address in db.addresses
  {
  }

  /** A second attempt after a cancellation, by the same user for the same goods: Redis admits it like the first, the
      consumer then drops its message as an existing order, and it holds its units until the compensator comes by. */
  lemma RetryAfterCancelIsDropped(s: Sys, req: CreateRequest, product: ProductInfo, now: int, draft: Draft, later: int,
                                  again: RequestId, onSale: map<Id, Offer>)
    requires Inv(s, onSale) && Granted(s, req, product, now, draft)
    requires ConfirmTx(Reserved(s, req.requestId, draft, now).db, MessageFor(s.nextNo, req.requestId, draft),
                       later).Success?
    requires again !in s.redis.idempotent && again != req.requestId
    ensures var m := MessageFor(s.nextNo, req.requestId, draft);
            var u := Bought(s, m, draft, now, later);
            && m.orderNo in u.db.orders && u.db.orders[m.orderNo].claim.sku in u.db.skus
            && var v := CancelledEverywhere(u, m.orderNo);
            && StockKeyOf(draft.claim) in v.redis.stock
            && Granted(v, req.(requestId := again), product, now, draft)
            && DroppedAgain(v, again, draft, now, later)
  {
    hide DraftFor, ConfirmTx, CouponsAfter, CouponRestored, Cancelled, OrderRow, Deduct, DroppedAgain, Granted,
      HasRequest;
    var m := MessageFor(s.nextNo, req.requestId, draft);
    assert RecordsOk(s) by {
      InvRecords(s, onSale);
    }
    hide Inv;
    CancelUndoesPurchase(s, req, product, now, draft, later, onSale);
    AddressStands(Reserved(s, req.requestId, draft, now).db, m, later);
    GrantedFits(s, req, product, now, draft, onSale);
    TracesFacts(s, m, later, again);
    var v := CancelledEverywhere(Bought(s, m, draft, now, later), m.orderNo);
    hide CancelledEverywhere, Bought, Reserved, TracesInTables;
    GrantedAgain(s, v, req, product, now, draft, again);
    SecondIsDropped(v, again, draft, now, later, m.orderNo);
  }

  lemma InvRecords(s: Sys, onSale: map<Id, Offer>)
    requires Inv(s, onSale)
    ensures RecordsOk(s)
  {
  }
}
