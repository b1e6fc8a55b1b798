/** The program's own methods over the two stores and the topic. Each runs without interruption here; its
    trace shows it to be a schedule of the protocol's steps, so every interleaving is covered by the machine. */
module Seckill {
  import opened Wrappers
  import opened Entities
  import opened RedisRepo
  import opened MysqlRepo
  import opened Protocol
  import opened ProtocolInv
  import opened Books
  import Pricing
  import opened Maps

  /** The stores a deployment shares, with the control state of the code working on them. */
  class Deployment {
    const cache: RedisStore
    const repo: MysqlStore
    var topic: map<RequestId, Delivery>
    var nextNo: OrderNo
    ghost var threads: map<RequestId, Thread>
    ghost var cancels: map<nat, CancelTask>
    ghost var issued: map<OrderNo, RequestId>
    ghost var restocked: multiset<OrderNo>
    ghost var cacheRestocked: multiset<OrderNo>

    ghost function State(): Sys
      reads this, cache, repo
    {
      Sys(cache.Value(), repo.Value(), topic, threads, cancels, nextNo, issued, restocked, cacheRestocked)
    }

    constructor (cache: RedisStore, repo: MysqlStore, firstNo: OrderNo)
      ensures this.cache == cache && this.repo == repo
      ensures State() == Sys(cache.Value(), repo.Value(), map[], map[], map[], firstNo, map[], multiset{}, multiset{})
    {
      this.cache, this.repo := cache, repo;
      topic, nextNo := map[], firstNo;
      threads, cancels, issued := map[], map[], map[];
      restocked, cacheRestocked := multiset{}, multiset{};
    }

    /** RollbackStock, RemoveUserBuy, RestoreUserCoupon, delete the pending record: one call after the other, whoever
        else may be at it. */
    method GiveBackReservation(r: RequestId, c: Claim)
      modifies cache, repo
      ensures State() == Returned(old(State()), r, c)
    {
      cache.RollbackStock(StockKeyOf(c), c.quantity);
      cache.RemoveUserBuy(MarkKeyOf(c));
      if c.coupon > 0 {
        repo.RestoreUserCoupon(c.coupon);
      }
      cache.DeletePendingReservation(r);
    }
  }

  /** All four stages of giving a reservation back. */
  ghost function GivenBack(s: Sys, r: RequestId, c: Claim): Sys {
    ForgetRecord(ReturnClaimedCoupon(ReturnMark(ReturnStock(s, r, c), r, c), r, c), r)
  }

  /** What giving a reservation back comes to: its units, its buy mark, its coupon and its record. */
  ghost function Returned(s: Sys, r: RequestId, c: Claim): Sys {
    s.(redis := DeletePending(Unmark(Rollback(s.redis, StockKeyOf(c), c.quantity), MarkKeyOf(c)), r),
    db := s.db.(coupons := CouponRestored(s.db.coupons, c.coupon)))
  }

  /** The stages together, seen apart from the thread that went through them. */
  lemma GivenBackIsReturned(s: Sys, r: RequestId, c: Claim)
    ensures GivenBack(s, r, c) == Returned(s, r, c).(threads := s.threads - {r})
  {
    var t := GivenBack(s, r, c);
    assert t.threads == s.threads - {r};
  }

  /** Taking up a reservation nobody works on and giving it back is a run, and Returned is where it ends. */
  lemma ReturnedRuns(s: Sys, t: Sys, r: RequestId, c: Claim)
    requires r !in t.threads && Runs(s, t.(threads := t.threads[r := Undoing(c, GiveStock)]))
    ensures Runs(s, Returned(t, r, c))
  {
    var u := t.(threads := t.threads[r := Undoing(c, GiveStock)]);
    GivenBackRuns(s, u, r, c);
    GivenBackIsReturned(u, r, c);
    assert u.threads - {r} == t.threads;
    hide Runs;
    assert GivenBack(u, r, c) == Returned(t, r, c);
  }

  lemma GiveBackRuns(s: Sys, t: Sys, r: RequestId, c: Claim, stage: UndoStage)
    requires Runs(s, t) && At(t, r, Undoing(c, stage))
    ensures Runs(s, GiveBack(t, r, c, stage))
  {
    RunsStep(s, t, Undo(r));
  }

  lemma GivenBackRuns(s: Sys, t: Sys, r: RequestId, c: Claim)
    requires Runs(s, t) && At(t, r, Undoing(c, GiveStock))
    ensures Runs(s, GivenBack(t, r, c))
  {
    hide Runs;
    GiveBackRuns(s, t, r, c, GiveStock);
    GiveBackRuns(s, ReturnStock(t, r, c), r, c, GiveMark);
    GiveBackRuns(s, ReturnMark(ReturnStock(t, r, c), r, c), r, c, GiveCoupon);
    GiveBackRuns(s, ReturnClaimedCoupon(ReturnMark(ReturnStock(t, r, c), r, c), r, c), r, c, DropRecord);
  }

  // ---- creating a reservation ----

  /** The verdict of the checks and of the coupon, for a request that is the first with its id. */
  ghost function PriceVerdict(s: Sys, req: CreateRequest, product: ProductInfo, now: int,
                              closed: Option<BizError>): Result<Draft, GoError> {
    match CheckVerdict(s.redis.marks, s.db.orders, req, product, closed)
    case Some(e) => Failure(e)
    case None => DraftFor(s.db, req, product, now)
  }

  ghost function CheckVerdict(marks: set<MarkKey>, orders: map<OrderNo, Order>, req: CreateRequest,
                              product: ProductInfo, closed: Option<BizError>): Option<GoError> {
    var c := ClaimOf(req);
    if closed.Some? then Some(Biz(closed.value))
    else if c.quantity > product.limit then Some(Biz(ExceedLimit))
    else if MarkKeyOf(c) in marks || HasBought(orders, c.user, c.activity) then Some(Biz(AlreadyBought))
    else None
  }

  /** CreateSeckillOrder's answer. The two limiters run first; the activity and product lookups after the
      idempotency key is taken. Their answers, and whether the message gets through, come from outside. */
  ghost function CreateVerdict(s: Sys, req: CreateRequest, product: ProductInfo, now: int,
                               limited: Option<BizError>, closed: Option<BizError>, delivered: bool)
    : Result<Draft, GoError>
  {
    var key := StockKeyOf(ClaimOf(req));
    if limited.Some? then Failure(Biz(limited.value))
    else if req.requestId in s.redis.idempotent then Failure(Biz(DuplicateRequest))
    else
      var priced := PriceVerdict(s, req, product, now, closed);
      if priced.Failure? then priced
      else if key !in s.redis.stock || s.redis.stock[key] < ClaimOf(req).quantity then Failure(Biz(InsufficientStock))
      else if !delivered then Failure(Infra("send failed", false))
      else priced
  }

  // ---- what the checks decide, read off the stores ----

  /** The units asked for; none or fewer count as one. */
  function Wanted(req: CreateRequest): int { if req.quantity > 0 then req.quantity else 1 }

  /** The user has a mark for the SKU in the activity, or a Pending or Paid order in the activity. */
  ghost predicate BoughtAlready(s: Sys, req: CreateRequest) {
    || MarkKey(req.activity, req.sku, req.user) in s.redis.marks
    || exists o :: o in s.db.orders && s.db.orders[o].claim.user == req.user
                   && s.db.orders[o].claim.activity == req.activity
                   && (s.db.orders[o].status == Pending || s.db.orders[o].status == Paid)
  }

  /** What the goods cost, in uint64. */
  function Cost(req: CreateRequest, product: ProductInfo): nat {
    product.price * (Wanted(req) % TWO_TO_THE_64) % TWO_TO_THE_64
  }

  /** The coupon is the user's own, not used up, and not past its time. */
  predicate CouponIsGood(s: Sys, req: CreateRequest, now: int) {
    && req.coupon in s.db.coupons && s.db.coupons[req.coupon].user == req.user
    && s.db.coupons[req.coupon].status == Unused && now <= s.db.coupons[req.coupon].expireTime
  }

  predicate CouponApplies(s: Sys, req: CreateRequest, product: ProductInfo, now: int) {
    req.coupon == 0 ||
    (CouponIsGood(s, req, now) && s.db.coupons[req.coupon].minAmount <= Cost(req, product)
     && (s.db.coupons[req.coupon].kind == 1 || s.db.coupons[req.coupon].kind == 2))
  }

  predicate InStock(s: Sys, req: CreateRequest) {
    StockKey(req.activity, req.sku) in s.redis.stock && Wanted(req) <= s.redis.stock[StockKey(req.activity, req.sku)]
  }

  /** A user who may buy: within the limit, for the first time, with a coupon that applies if any, while stock lasts. */
  ghost predicate MayBuy(s: Sys, req: CreateRequest, product: ProductInfo, now: int) {
    && req.requestId !in s.redis.idempotent && Wanted(req) <= product.limit && !BoughtAlready(s, req)
    && CouponApplies(s, req, product, now) && InStock(s, req)
  }

  /** What a coupon takes off: its value, but not more than the cost, or the percentage that is left to 100. */
  function TakenOff(s: Sys, req: CreateRequest, product: ProductInfo): nat {
    var cost := Cost(req, product);
    if req.coupon !in s.db.coupons || req.coupon == 0 then 0
    else if s.db.coupons[req.coupon].kind == 1 then
      if s.db.coupons[req.coupon].value < cost then s.db.coupons[req.coupon].value else cost
    else cost * ((100 - s.db.coupons[req.coupon].value) % TWO_TO_THE_64) % TWO_TO_THE_64 / 100
  }

  /** The message a granted request is answered with. */
  function Quote(s: Sys, req: CreateRequest, product: ProductInfo): Message {
    var cost, off := Cost(req, product), TakenOff(s, req, product);
    Message(s.nextNo, req.requestId, Claim(req.user, req.activity, req.sku, Wanted(req), req.coupon), req.address,
            product.price, Money(cost, off, (cost - off) % TWO_TO_THE_64))
  }

  /** Which requests are granted, with which message, and which of the checks turns the others away. */
  lemma GrantedIff(s: Sys, req: CreateRequest, product: ProductInfo, now: int,
                   limited: Option<BizError>, closed: Option<BizError>, delivered: bool)
    ensures var verdict := CreateVerdict(s, req, product, now, limited, closed, delivered);
            && (verdict.Success? <==> limited.None? && closed.None? && delivered && MayBuy(s, req, product, now))
            && (verdict.Success? ==> MessageFor(s.nextNo, req.requestId, verdict.value) == Quote(s, req, product))
            && (limited.None? && closed.None? ==> TurnedAway(s, req, product, now, ErrorOf(verdict)))
            && (limited.None? && closed.Some? && req.requestId !in s.redis.idempotent
                ==> verdict == Failure(Biz(closed.value)))
            && (limited.Some? ==> verdict == Failure(Biz(limited.value)))
  {
    BoughtIs(s, req);
    assert req.coupon != 0 && CouponIsGood(s, req, now) ==> Usable(s.db.coupons, req.coupon, now);
  }

  lemma BoughtIs(s: Sys, req: CreateRequest)
    ensures BoughtAlready(s, req) <==>
            MarkKeyOf(ClaimOf(req)) in s.redis.marks || HasBought(s.db.orders, req.user, req.activity)
  {
  }

  /** The answers of a request that meets no limiter and an open sale. */
  ghost predicate TurnedAway(s: Sys, req: CreateRequest, product: ProductInfo, now: int, err: Option<GoError>) {
    var spent, tooMany, again := req.requestId in s.redis.idempotent, Wanted(req) > product.limit,
                                 BoughtAlready(s, req);
    && (err == Some(Biz(DuplicateRequest)) <==> spent)
    && (err == Some(Biz(ExceedLimit)) <==> !spent && tooMany)
    && (err == Some(Biz(AlreadyBought)) <==> !spent && !tooMany && again)
    && (err == Some(Biz(CouponInvalid)) <==>
        !spent && !tooMany && !again && req.coupon != 0 && !CouponIsGood(s, req, now))
    && (err == Some(Biz(InsufficientStock)) <==>
        !spent && !tooMany && !again && CouponApplies(s, req, product, now) && !InStock(s, req))
  }

  function ErrorOf<T>(r: Result<T, GoError>): Option<GoError> {
    match r
    case Success(_) => None
    case Failure(e) => Some(e)
  }

  /** Everything a successful request changes. */
  ghost function Reserved(s: Sys, r: RequestId, draft: Draft, now: int): Sys
    requires StockKeyOf(draft.claim) in s.redis.stock
  {
    var c, key := draft.claim, StockKeyOf(draft.claim);
    s.(redis := Redis(s.redis.stock[key := s.redis.stock[key] - c.quantity], s.redis.marks + {MarkKeyOf(c)},
                      s.redis.pending[r := PendingRecord(s.nextNo, r, c, now)], s.redis.idempotent + {r}),
    db := s.db.(coupons := CouponsAfter(s.db.coupons, c)),
    topic := s.topic[r := Delivery(MessageFor(s.nextNo, r, draft), 0)],
    nextNo := s.nextNo + 1,
    issued := s.issued[s.nextNo := r])
  }

  /** A refused request changes neither database, nor counters, records or messages; all it may leave is a
      spent order number, its idempotency key in Redis, and there the mark of a user who has in fact bought. */
  ghost predicate LeavesNoTrace(s: Sys, t: Sys, req: CreateRequest) {
    && t.db == s.db && t.topic == s.topic && t.threads == s.threads && t.cancels == s.cancels
    && t.restocked == s.restocked && t.cacheRestocked == s.cacheRestocked
    && ((t.nextNo == s.nextNo && t.issued == s.issued) ||
        (t.nextNo == s.nextNo + 1 && t.issued == s.issued[s.nextNo := req.requestId]))
    && t.redis.stock == s.redis.stock && t.redis.pending == s.redis.pending
    && (t.redis.idempotent == s.redis.idempotent || t.redis.idempotent == s.redis.idempotent + {req.requestId})
    && (t.redis.marks == s.redis.marks ||
        (HasBought(s.db.orders, req.user, req.activity) && t.redis.marks == s.redis.marks + {MarkKeyOf(ClaimOf(req))}))
  }

  // The states a request passes through when nothing interrupts it.

  ghost function Begun(s: Sys, req: CreateRequest): Sys {
    s.(redis := s.redis.(idempotent := s.redis.idempotent + {req.requestId}),
    threads := s.threads[req.requestId := Checked(req)])
  }

  ghost function CouponTaken(s: Sys, r: RequestId, draft: Draft): Sys {
    s.(threads := s.threads[r := Applied(draft)], db := s.db.(coupons := CouponsAfter(s.db.coupons, draft.claim)))
  }

  /** A coupon that could be used comes back from a used-and-restored round as it was. */
  lemma CouponRoundTrip(db: Mysql, req: CreateRequest, product: ProductInfo, now: int)
    requires DraftFor(db, req, product, now).Success?
    ensures CouponRestored(CouponsAfter(db.coupons, ClaimOf(req)), req.coupon) == db.coupons
  {
    if req.coupon > 0 {
      assert CouponUsedUp(db.coupons, req.coupon)[req.coupon].status == Used;
      assert db.coupons[req.coupon].(status := Used).(status := Unused) == db.coupons[req.coupon];
    }
  }

  /** Deducting, recording, and taking both back leaves Redis as it was. */
  lemma RedisRoundTrip(redis: Redis, c: Claim, p: PendingRecord)
    requires Deduct(redis, c).1 == 1 && p.requestId !in redis.pending
    ensures var recorded := SetPending(Deduct(redis, c).0, p);
            var unrecorded := DeletePending(recorded, p.requestId);
            DeletePending(Unmark(Rollback(unrecorded, StockKeyOf(c), c.quantity), MarkKeyOf(c)), p.requestId) == redis
  {
    var recorded := SetPending(Deduct(redis, c).0, p);
    var unrecorded := DeletePending(recorded, p.requestId);
    assert unrecorded.pending == redis.pending;
    assert unrecorded == Deduct(redis, c).0;
    RollbackUndoesDeduct(redis, c);
    assert redis.pending - {p.requestId} == redis.pending;
  }

  /** All a request has taken when its message is about to be sent. */
  ghost function Unsent(s: Sys, req: CreateRequest, draft: Draft, now: int): Sys {
    var r := req.requestId;
    Published(Scripted(CouponTaken(Begun(s, req), r, draft), r, draft), r, draft, now)
  }

  lemma UnsentIs(s: Sys, req: CreateRequest, draft: Draft, now: int)
    ensures var r, c := req.requestId, draft.claim;
            var begun := s.redis.(idempotent := s.redis.idempotent + {r});
            Unsent(s, req, draft, now) ==
            s.(redis := SetPending(Deduct(begun, c).0, PendingRecord(s.nextNo, r, c, now)),
            db := s.db.(coupons := CouponsAfter(s.db.coupons, c)),
            threads := s.threads[r := Recorded(MessageFor(s.nextNo, r, draft))],
            nextNo := s.nextNo + 1, issued := s.issued[s.nextNo := r])
  {
    hide Deduct, CouponsAfter;
  }

  /** Only the spent idempotency key and order number remain of a request. */
  ghost function OnlySpent(s: Sys, r: RequestId): Sys {
    s.(redis := s.redis.(idempotent := s.redis.idempotent + {r}), nextNo := s.nextNo + 1,
    issued := s.issued[s.nextNo := r])
  }

  lemma SpentLeavesNoTrace(s: Sys, req: CreateRequest)
    ensures LeavesNoTrace(s, OnlySpent(s, req.requestId), req)
    ensures LeavesNoTrace(s, s.(redis := s.redis.(idempotent := s.redis.idempotent + {req.requestId})), req)
  {
  }

  /** The reservation taken back after a failed send: only the idempotency key and the order number stay used up. */
  lemma FailedSendRoundTrip(s: Sys, req: CreateRequest, product: ProductInfo, now: int)
    requires RecordsOk(s) && ThreadsOk(s) && req.requestId !in s.redis.idempotent
    requires DraftFor(s.db, req, product, now).Success?
    requires Deduct(s.redis, ClaimOf(req)).1 == 1
    ensures var draft := DraftFor(s.db, req, product, now).value;
            var r, c := req.requestId, draft.claim;
            GivenBack(ForgetUnsent(Unsent(s, req, draft, now), r, c), r, c) == OnlySpent(s, r)
  {
    var draft := DraftFor(s.db, req, product, now).value;
    var r, c := req.requestId, draft.claim;
    var begun := s.redis.(idempotent := s.redis.idempotent + {r});
    assert c == ClaimOf(req) && c.coupon == req.coupon && Deduct(begun, c).1 == 1 && r !in s.redis.pending
           && r !in s.threads;
    CouponRoundTrip(s.db, req, product, now);
    RedisRoundTrip(begun, c, PendingRecord(s.nextNo, r, c, now));
    hide DraftFor, ThreadsOk, RecordsOk, Deduct, CouponsAfter, CouponRestored, Rollback, Unmark, DeletePending,
      SetPending,
      Unsent, GivenBack, ForgetUnsent, OnlySpent, ClaimOf;
    UnsentIs(s, req, draft, now);
    TakenBack(s, Unsent(s, req, draft, now), r, c, MessageFor(s.nextNo, r, draft));
  }

  /** What was taken comes back piece by piece: Redis, the coupons, the thread. */
  lemma TakenBack(s: Sys, t: Sys, r: RequestId, c: Claim, m: Message)
    requires r !in s.threads
    requires t == s.(redis := t.redis, db := s.db.(coupons := t.db.coupons), threads := s.threads[r := Recorded(m)],
                  nextNo := s.nextNo + 1, issued := s.issued[s.nextNo := r])
    requires DeletePending(Unmark(Rollback(DeletePending(t.redis, r), StockKeyOf(c), c.quantity), MarkKeyOf(c)), r)
          == s.redis.(idempotent := s.redis.idempotent + {r})
    requires CouponRestored(t.db.coupons, c.coupon) == s.db.coupons
    ensures GivenBack(ForgetUnsent(t, r, c), r, c) == OnlySpent(s, r)
  {
    hide GivenBack, CouponRestored, Rollback, Unmark, DeletePending;
    GivenBackIsReturned(ForgetUnsent(t, r, c), r, c);
    PutPut(s.threads, r, Recorded(m), Undoing(c, GiveStock));
    PutDel(s.threads, r, Undoing(c, GiveStock));
    DelAbsent(s.threads, r);
  }

  /** The coupon makes no difference to the script. */
  lemma ScriptAfterCoupon(s: Sys, req: CreateRequest, draft: Draft)
    ensures var taken := CouponTaken(Begun(s, req), req.requestId, draft);
            At(taken, req.requestId, Applied(draft)) && taken.nextNo == s.nextNo
            && Deduct(taken.redis, draft.claim).1 == Deduct(s.redis, draft.claim).1
    ensures Deduct(s.redis, draft.claim).1 == 1 ==> StockKeyOf(draft.claim) in s.redis.stock
    ensures Deduct(s.redis, draft.claim).1 == (-1) <==> MarkKeyOf(draft.claim) in s.redis.marks
  {
  }

  /** A delivered request ends exactly as Reserved says. */
  lemma DeliveredIsReserved(s: Sys, req: CreateRequest, product: ProductInfo, now: int)
    requires RecordsOk(s) && ThreadsOk(s) && req.requestId !in s.redis.idempotent
    requires DraftFor(s.db, req, product, now).Success?
    requires Deduct(s.redis, ClaimOf(req)).1 == 1
    ensures var draft := DraftFor(s.db, req, product, now).value;
            var r := req.requestId;
            var unsent := Unsent(s, req, draft, now);
            unsent.(topic := unsent.topic[r := Delivery(MessageFor(s.nextNo, r, draft), 0)],
            threads := unsent.threads - {r},
            redis := Mark(unsent.redis, MarkKeyOf(draft.claim))) == Reserved(s, r, draft, now)
  {
    var draft := DraftFor(s.db, req, product, now).value;
    var r := req.requestId;
    assert draft.claim == ClaimOf(req) && r !in s.threads;
    hide DraftFor, ThreadsOk, RecordsOk, CouponsAfter, Unsent, ClaimOf;
    UnsentIs(s, req, draft, now);
    PutDel(s.threads, r, Recorded(MessageFor(s.nextNo, r, draft)));
    DelAbsent(s.threads, r);
    assert s.redis.marks + {MarkKeyOf(draft.claim)} + {MarkKeyOf(draft.claim)}
        == s.redis.marks + {MarkKeyOf(draft.claim)};
  }

  /** The two ways the script's refusal and a rejected check return to the state before the request. */
  lemma RefusedIsUndone(s: Sys, req: CreateRequest, product: ProductInfo, now: int)
    requires RecordsOk(s) && ThreadsOk(s) && req.requestId !in s.redis.idempotent
    requires DraftFor(s.db, req, product, now).Success?
    ensures var draft := DraftFor(s.db, req, product, now).value;
            var taken := CouponTaken(Begun(s, req), req.requestId, draft);
            taken.(threads := taken.threads - {req.requestId},
            db := taken.db.(coupons := CouponRestored(taken.db.coupons, draft.claim.coupon)))
            == s.(redis := s.redis.(idempotent := s.redis.idempotent + {req.requestId}))
  {
    CouponRoundTrip(s.db, req, product, now);
    var draft := DraftFor(s.db, req, product, now).value;
    assert CouponTaken(Begun(s, req), req.requestId, draft).threads - {req.requestId} == s.threads;
  }

  ghost function Scripted(s: Sys, r: RequestId, draft: Draft): Sys {
    s.(redis := Deduct(s.redis, draft.claim).0, threads := s.threads[r := Deducted(draft)])
  }

  ghost function Published(s: Sys, r: RequestId, draft: Draft, now: int): Sys {
    var m := MessageFor(s.nextNo, r, draft);
    s.(redis := SetPending(s.redis, PendingRecord(m.orderNo, r, m.claim, now)), threads := s.threads[r := Recorded(m)],
    nextNo := s.nextNo + 1, issued := s.issued[s.nextNo := r])
  }

  /** The checks have changed nothing but perhaps the mark of a user who has bought. */
  ghost predicate OnlyMarked(s: Sys, req: CreateRequest, checked: Sys) {
    checked == Begun(s, req) ||
    (HasBought(s.db.orders, req.user, req.activity)
     && checked == Begun(s, req).(redis := Mark(Begun(s, req).redis, MarkKeyOf(ClaimOf(req)))))
  }

  /** A rejected check is a run, and leaves the threads as they were before the request. */
  lemma RejectedRuns(s: Sys, req: CreateRequest, checked: Sys)
    requires ThreadsOk(s) && req.requestId !in s.redis.idempotent
    requires Runs(s, Begun(s, req))
    requires OnlyMarked(s, req, checked)
    ensures checked.threads - {req.requestId} == s.threads
    ensures Runs(s, checked.(threads := s.threads)) && LeavesNoTrace(s, checked.(threads := s.threads), req)
  {
    assert checked.threads == s.threads[req.requestId := Checked(req)];
    PutDel(s.threads, req.requestId, Checked(req));
    DelAbsent(s.threads, req.requestId);
    CheckedLeavesNoTrace(s, req, checked);
    hide LeavesNoTrace;
    CheckedRuns(s, Begun(s, req), checked, MarkKeyOf(ClaimOf(req)));
    RunsStep(s, checked, Reject(req.requestId));
    assert DoReject(checked, req.requestId) == checked.(threads := s.threads);
  }

  lemma CheckedLeavesNoTrace(s: Sys, req: CreateRequest, checked: Sys)
    requires OnlyMarked(s, req, checked)
    ensures LeavesNoTrace(s, checked.(threads := s.threads), req)
  {
  }

  lemma AppliedRuns(s: Sys, req: CreateRequest, product: ProductInfo, now: int)
    requires ThreadsOk(s) && req.requestId !in s.redis.idempotent
    requires Runs(s, Begun(s, req))
    ensures match DraftFor(s.db, req, product, now)
            case Failure(_) => Begun(s, req).threads - {req.requestId} == s.threads
                               && Runs(s, Begun(s, req).(threads := s.threads))
            case Success(draft) => Runs(s, CouponTaken(Begun(s, req), req.requestId, draft))
  {
    var begun, r := Begun(s, req), req.requestId;
    assert begun.threads - {r} == s.threads;
    RunsStep(s, begun, Step.ApplyCoupon(r, product, now));
    match DraftFor(s.db, req, product, now)
    case Failure(_) => assert DoApplyCoupon(begun, r, product, now) == begun.(threads := s.threads);
    case Success(draft) => assert DoApplyCoupon(begun, r, product, now) == CouponTaken(begun, r, draft);
  }

  class SeckillUsecase {
    const d: Deployment

    constructor (d: Deployment)
      ensures this.d == d
    {
      this.d := d;
    }

    /** applyCoupon: reads the coupon, prices the order, and uses the coupon up. */
    method ApplyCoupon(req: CreateRequest, product: ProductInfo, now: int) returns (res: Result<Draft, GoError>)
      modifies d.repo`coupons
      ensures res == DraftFor(old(d.repo.Value()), req, product, now)
      ensures d.repo.coupons ==
              match res
              case Success(draft) => CouponsAfter(old(d.repo.coupons), draft.claim)
              case Failure(_) => old(d.repo.coupons)
    {
      var claim := ClaimOf(req);
      var amount := Pricing.OrderAmount(product.price, claim.quantity);
      if claim.coupon == 0 {
        return Success(Draft(claim, req.address, product.price, Money(amount, 0, amount)));
      }
      if !Usable(d.repo.coupons, claim.coupon, now) || d.repo.coupons[claim.coupon].user != claim.user {
        return Failure(Biz(CouponInvalid));
      }
      var coupon := d.repo.coupons[claim.coupon];
      if amount < coupon.minAmount {
        return Failure(Infra("order amount below coupon threshold", false));
      }
      var discount := Pricing.Discount(coupon.kind, coupon.value, amount);
      if discount == None {
        return Failure(Infra("invalid coupon type", false));
      }
      var used := d.repo.UseUserCoupon(claim.coupon, now);
      return Success(Draft(claim, req.address, product.price, Pricing.Priced(amount, discount.value)));
    }

    /** The checks between the idempotency key and the coupon, which take nothing. */
    method Check(req: CreateRequest, product: ProductInfo, closed: Option<BizError>) returns (err: Option<GoError>)
      modifies d.cache`marks
      ensures err == CheckVerdict(old(d.cache.marks), d.repo.orders, req, product, closed)
      ensures d.cache.marks == old(d.cache.marks) ||
              (err.Some? && HasBought(d.repo.orders, req.user, req.activity) &&
               d.cache.marks == old(d.cache.marks) + {MarkKeyOf(ClaimOf(req))})
    {
      var c := ClaimOf(req);
      if closed.Some? {
        return Some(Biz(closed.value));
      }
      if c.quantity > product.limit {
        return Some(Biz(ExceedLimit));
      }
      if d.cache.CheckUserBuy(MarkKeyOf(c)) {
        return Some(Biz(AlreadyBought));
      }
      if HasBought(d.repo.orders, c.user, c.activity) {
        d.cache.MarkUserBuy(MarkKeyOf(c));
        return Some(Biz(AlreadyBought));
      }
      return None;
    }

    /** The script, and the coupon's return when it refuses. */
    method Reserve(r: RequestId, draft: Draft, ghost start: Sys) returns (res: int)
      requires Runs(start, d.State()) && At(d.State(), r, Applied(draft))
      modifies d`threads, d.cache, d.repo
      ensures Runs(start, d.State())
      ensures res == Deduct(old(d.cache.Value()), draft.claim).1
      ensures d.State() == if res == 1 then Scripted(old(d.State()), r, draft)
                           else old(d.State()).(threads := old(d.threads) - {r},
                                db := old(d.repo.Value()).(coupons :=
                                CouponRestored(old(d.repo.coupons), draft.claim.coupon)))
    {
      ghost var s := d.State();
      res := d.cache.DeductStock(draft.claim);
      d.threads := d.threads[r := if res == 1 then Deducted(draft) else Refused(draft)];
      RunsStep(start, s, RunScript(r));
      assert d.State() == DoRunScript(s, r);
      if res == 1 {
        return;
      }
      s := d.State();
      if draft.claim.coupon > 0 {
        d.repo.RestoreUserCoupon(draft.claim.coupon);
      }
      d.threads := d.threads - {r};
      RunsStep(start, s, ReturnCoupon(r));
      assert d.State() == DoReturnCoupon(s, r);
      PutDel(old(d.threads), r, Refused(draft));
    }

    /** Builds the message, writes the pending record and sends; a failed send is taken back at once. */
    method Publish(r: RequestId, draft: Draft, now: int, delivered: bool, ghost start: Sys) returns (no: OrderNo)
      requires Runs(start, d.State()) && At(d.State(), r, Deducted(draft))
      modifies d`threads, d`topic, d`nextNo, d`issued, d.cache, d.repo
      ensures Runs(start, d.State())
      ensures no == old(d.nextNo)
      ensures var published := Published(old(d.State()), r, draft, now);
              d.State() ==
              if delivered then
                published.(topic := published.topic[r := Delivery(MessageFor(no, r, draft), 0)],
                threads := published.threads - {r},
                redis := Mark(published.redis, MarkKeyOf(draft.claim)))
              else GivenBack(ForgetUnsent(published, r, draft.claim), r, draft.claim)
    {
      ghost var s := d.State();
      no := d.nextNo;
      var m := MessageFor(no, r, draft);
      d.nextNo := d.nextNo + 1;
      d.issued := d.issued[no := r];
      d.cache.SetPendingReservation(PendingRecord(no, r, m.claim, now));
      d.threads := d.threads[r := Recorded(m)];
      RunsStep(start, s, Record(r, now));
      assert d.State() == Published(s, r, draft, now) == DoRecord(s, r, now);
      if delivered {
        Deliver(r, m, start);
        PutDel(s.threads, r, Recorded(m));
      } else {
        TakeBack(r, m, start);
      }
    }

    /** A successful send, after which the buy mark is written once more. */
    method Deliver(r: RequestId, m: Message, ghost start: Sys)
      requires Runs(start, d.State()) && At(d.State(), r, Recorded(m))
      modifies d`threads, d`topic, d.cache`marks
      ensures Runs(start, d.State())
      ensures var s := old(d.State());
              d.State() == s.(topic := s.topic[r := Delivery(m, 0)], threads := s.threads - {r},
              redis := Mark(s.redis, MarkKeyOf(m.claim)))
    {
      ghost var s := d.State();
      d.topic := d.topic[r := Delivery(m, 0)];
      d.threads := d.threads - {r};
      RunsStep(start, s, Send(r, true));
      assert d.State() == DoSend(s, r, true);
      s := d.State();
      d.cache.MarkUserBuy(MarkKeyOf(m.claim));
      RunsStep(start, s, MarkBuyer(MarkKeyOf(m.claim)));
    }

    /** A failed send is undone at once: the pending record first, then stock, mark and coupon. */
    method TakeBack(r: RequestId, m: Message, ghost start: Sys)
      requires Runs(start, d.State()) && At(d.State(), r, Recorded(m))
      modifies d`threads, d.cache, d.repo
      ensures Runs(start, d.State())
      ensures d.State() == GivenBack(ForgetUnsent(old(d.State()), r, m.claim), r, m.claim)
    {
      hide Runs;
      Forget(r, m, start);
      GivenBackRuns(start, d.State(), r, m.claim);
      GivenBackIsReturned(d.State(), r, m.claim);
      hide GivenBack, ForgetUnsent;
      d.GiveBackReservation(r, m.claim);
      d.threads := d.threads - {r};
    }

    /** The pending record of a message that could not be sent goes first. */
    method Forget(r: RequestId, m: Message, ghost start: Sys)
      requires Runs(start, d.State()) && At(d.State(), r, Recorded(m))
      modifies d`threads, d.cache`pending
      ensures Runs(start, d.State())
      ensures d.State() == ForgetUnsent(old(d.State()), r, m.claim)
      ensures At(d.State(), r, Undoing(m.claim, GiveStock))
    {
      hide Runs;
      ghost var s := d.State();
      d.threads := d.threads[r := SendFailed(m)];
      RunsStep(start, s, Send(r, false));
      assert d.State() == DoSend(s, r, false);
      ghost var failed := d.State();
      d.cache.DeletePendingReservation(r);
      d.threads := d.threads[r := Undoing(m.claim, GiveStock)];
      RunsStep(start, failed, Undo(r));
      assert d.State() == DoUndo(failed, r);
      PutPut(s.threads, r, SendFailed(m), Undoing(m.claim, GiveStock));
    }

    /** CreateSeckillOrder. The request is granted exactly when CreateVerdict says so. Granted, it changes what
        Reserved lists and nothing else; refused for whatever reason, it leaves no trace. Either way it is a run of
        the protocol. */
    method CreateSeckillOrder(req: CreateRequest, product: ProductInfo, now: int, limited: Option<BizError>,
                              closed: Option<BizError>, delivered: bool, ghost onSale: map<Id, Offer>)
      returns (res: Result<Message, GoError>)
      requires Inv(d.State(), onSale)
      modifies d, d.cache, d.repo
      ensures Inv(d.State(), onSale) && Runs(old(d.State()), d.State())
      ensures match CreateVerdict(old(d.State()), req, product, now, limited, closed, delivered)
              case Failure(e) => res == Failure(e) && LeavesNoTrace(old(d.State()), d.State(), req)
              case Success(draft) =>
                && StockKeyOf(draft.claim) in old(d.cache.stock)
                && res == Success(MessageFor(old(d.nextNo), req.requestId, draft))
                && d.State() == Reserved(old(d.State()), req.requestId, draft, now)
      ensures res.Success? <==> limited.None? && closed.None? && delivered && MayBuy(old(d.State()), req, product, now)
      ensures res.Success? ==> res.value == Quote(old(d.State()), req, product)
      ensures limited.None? && closed.None? ==> TurnedAway(old(d.State()), req, product, now, ErrorOf(res))
    {
      hide MayBuy, TurnedAway, Quote;
      ghost var s := d.State();
      GrantedIff(s, req, product, now, limited, closed, delivered);
      RunsNowhere(s);
      if limited.Some? {
        return Failure(Biz(limited.value));
      }
      var first := d.cache.CheckAndMark(req.requestId);
      if !first {
        assert s.redis.idempotent + {req.requestId} == s.redis.idempotent;
        assert d.State() == s;
        return Failure(Biz(DuplicateRequest));
      }
      d.threads := d.threads[req.requestId := Checked(req)];
      RunsStep(s, s, Begin(req));
      assert d.State() == Begun(s, req) == DoBegin(s, req);
      res := CreateAdmitted(req, product, now, closed, delivered, s);
      RunsKeep(s, d.State(), onSale);
    }

    /** The checks, for a request that is the first with its id; one that fails them ends here. */
    method Admit(req: CreateRequest, product: ProductInfo, closed: Option<BizError>, ghost s: Sys)
      returns (err: Option<GoError>)
      requires ThreadsOk(s) && req.requestId !in s.redis.idempotent
      requires d.State() == Begun(s, req) && Runs(s, d.State())
      modifies d`threads, d.cache`marks
      ensures Runs(s, d.State())
      ensures err == CheckVerdict(s.redis.marks, s.db.orders, req, product, closed)
      ensures if err.Some? then LeavesNoTrace(s, d.State(), req) else d.State() == Begun(s, req)
    {
      hide Runs, ThreadsOk, CheckVerdict, LeavesNoTrace, HasBought;
      err := Check(req, product, closed);
      assert OnlyMarked(s, req, d.State());
      if err.Some? {
        TurnAway(req, s);
      }
    }

    method TurnAway(req: CreateRequest, ghost s: Sys)
      requires ThreadsOk(s) && req.requestId !in s.redis.idempotent
      requires OnlyMarked(s, req, d.State()) && Runs(s, Begun(s, req))
      modifies d`threads
      ensures Runs(s, d.State()) && LeavesNoTrace(s, d.State(), req)
    {
      hide Runs, ThreadsOk, LeavesNoTrace, HasBought, OnlyMarked, Begun;
      RejectedRuns(s, req, d.State());
      d.threads := d.threads - {req.requestId};
    }

    /** The checks and the coupon. */
    method Price(req: CreateRequest, product: ProductInfo, now: int, closed: Option<BizError>, ghost s: Sys)
      returns (res: Result<Draft, GoError>)
      requires ThreadsOk(s) && req.requestId !in s.redis.idempotent
      requires d.State() == Begun(s, req) && Runs(s, d.State())
      modifies d`threads, d.cache`marks, d.repo`coupons
      ensures Runs(s, d.State())
      ensures res == PriceVerdict(s, req, product, now, closed)
      ensures if res.Success? then d.State() == CouponTaken(Begun(s, req), req.requestId, res.value)
              else LeavesNoTrace(s, d.State(), req)
    {
      hide Runs, DraftFor, ThreadsOk, CheckVerdict, LeavesNoTrace, Begun, CouponTaken;
      var err := Admit(req, product, closed, s);
      if err.Some? {
        return Failure(err.value);
      }
      res := PriceChecked(req, product, now, s);
    }

    /** The coupon, once the checks have passed. */
    method PriceChecked(req: CreateRequest, product: ProductInfo, now: int, ghost s: Sys)
      returns (res: Result<Draft, GoError>)
      requires ThreadsOk(s) && req.requestId !in s.redis.idempotent
      requires d.State() == Begun(s, req) && Runs(s, d.State())
      modifies d`threads, d.repo`coupons
      ensures Runs(s, d.State())
      ensures res == DraftFor(s.db, req, product, now)
      ensures d.State() == if res.Success? then CouponTaken(Begun(s, req), req.requestId, res.value)
                           else Begun(s, req).(threads := s.threads)
      ensures LeavesNoTrace(s, Begun(s, req).(threads := s.threads), req)
    {
      hide Runs, DraftFor, ThreadsOk;
      var r := req.requestId;
      AppliedRuns(s, req, product, now);
      res := ApplyCoupon(req, product, now);
      d.threads := match res case Failure(_) => d.threads - {r} case Success(draft) => d.threads[r := Applied(draft)];
    }

    /** The rest of CreateSeckillOrder. */
    method CreateAdmitted(req: CreateRequest, product: ProductInfo, now: int, closed: Option<BizError>,
                          delivered: bool, ghost s: Sys)
      returns (res: Result<Message, GoError>)
      requires RecordsOk(s) && ThreadsOk(s) && req.requestId !in s.redis.idempotent
      requires d.State() == Begun(s, req) && Runs(s, d.State())
      modifies d, d.cache, d.repo
      ensures Runs(s, d.State())
      ensures match CreateVerdict(s, req, product, now, None, closed, delivered)
              case Failure(e) => res == Failure(e) && LeavesNoTrace(s, d.State(), req)
              case Success(draft) =>
                && StockKeyOf(draft.claim) in s.redis.stock
                && res == Success(MessageFor(s.nextNo, req.requestId, draft))
                && d.State() == Reserved(s, req.requestId, draft, now)
    {
      hide Runs, DraftFor, ThreadsOk, RecordsOk, CheckVerdict, LeavesNoTrace, Reserved, Begun, CouponTaken;
      var drafted := Price(req, product, now, closed, s);
      if drafted.Failure? {
        return Failure(drafted.error);
      }
      PricedDraft(s, req, product, now, closed);
      res := Place(req, product, drafted.value, now, delivered, s);
    }

    /** Script, pending record and message, for a draft whose coupon has been used. */
    method Place(req: CreateRequest, product: ProductInfo, draft: Draft, now: int, delivered: bool, ghost s: Sys)
      returns (res: Result<Message, GoError>)
      requires RecordsOk(s) && ThreadsOk(s) && req.requestId !in s.redis.idempotent
      requires DraftFor(s.db, req, product, now) == Success(draft) && draft.claim == ClaimOf(req)
      requires d.State() == CouponTaken(Begun(s, req), req.requestId, draft) && Runs(s, d.State())
      modifies d, d.cache, d.repo
      ensures Runs(s, d.State())
      ensures if Deduct(s.redis, draft.claim).1 == 1 && delivered
              then StockKeyOf(draft.claim) in s.redis.stock
                   && res == Success(MessageFor(s.nextNo, req.requestId, draft))
                   && d.State() == Reserved(s, req.requestId, draft, now)
              else LeavesNoTrace(s, d.State(), req)
                   && res == Failure(if Deduct(s.redis, draft.claim).1 == 1 then Infra("send failed", false)
                                     else if MarkKeyOf(draft.claim) in s.redis.marks then Biz(AlreadyBought)
                                     else Biz(InsufficientStock))
    {
      hide Runs, DraftFor, ThreadsOk, RecordsOk, ClaimOf, LeavesNoTrace, Reserved, CouponTaken, Begun, CouponsAfter,
        CouponRestored, Deduct;
      SpentLeavesNoTrace(s, req);
      ScriptAfterCoupon(s, req, draft);
      var reserved := Reserve(req.requestId, draft, s);
      if reserved != 1 {
        RefusedIsUndone(s, req, product, now);
        return Failure(Biz(if reserved == -1 then AlreadyBought else InsufficientStock));
      }
      var no := Publish(req.requestId, draft, now, delivered, s);
      if delivered {
        DeliveredIsReserved(s, req, product, now);
        return Success(MessageFor(no, req.requestId, draft));
      }
      FailedSendRoundTrip(s, req, product, now);
      return Failure(Infra("send failed", false));
    }
  }

  lemma PricedDraft(s: Sys, req: CreateRequest, product: ProductInfo, now: int, closed: Option<BizError>)
    requires PriceVerdict(s, req, product, now, closed).Success?
    ensures DraftFor(s.db, req, product, now) == PriceVerdict(s, req, product, now, closed)
    ensures PriceVerdict(s, req, product, now, closed).value.claim == ClaimOf(req)
    ensures MarkKeyOf(ClaimOf(req)) !in s.redis.marks
  {
  }

  /** The check's only effect, a mark, is a step of the protocol too. */
  lemma CheckedRuns(s: Sys, begun: Sys, checked: Sys, key: MarkKey)
    requires Runs(s, begun)
    requires checked == begun || checked == begun.(redis := Mark(begun.redis, key))
    ensures Runs(s, checked)
  {
    RunsStep(s, begun, MarkBuyer(key));
  }
}
