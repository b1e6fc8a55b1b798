/** The inductive invariant of the protocol and the proof that every step keeps it: each step is shown to
    be one or two moves of the books. */
module ProtocolInv {
  import opened Wrappers
  import opened Entities
  import opened RedisRepo
  import opened MysqlRepo
  import opened StockLedger
  import opened Books
  import opened Protocol
  import Adversarial
  import Routing
  import opened Maps

  // ---- the books of a state ----

  function Full(c: Claim): Hold { Hold(c, true, true, true) }

  /** What a request holds while some thread works on it. */
  function ThreadHold(t: Thread): Hold {
    match t
    case Checked(req) => Hold(ClaimOf(req), false, false, false)
    case Applied(d) => Hold(d.claim, false, false, true)
    case Refused(d) => Hold(d.claim, false, false, true)
    case Deducted(d) => Full(d.claim)
    case Recorded(m) => Full(m.claim)
    case SendFailed(m) => Full(m.claim)
    case Undoing(c, GiveStock) => Full(c)
    case Undoing(c, GiveMark) => Hold(c, false, true, true)
    case Undoing(c, GiveCoupon) => Hold(c, false, false, true)
    case Undoing(c, DropRecord) => Hold(c, false, false, false)
  }

  /** The compensator's test: a pending record whose request has no order row. */
  ghost predicate Unresolved(s: Sys, r: RequestId) {
    r in s.redis.pending && !HasRequest(s.db.orders, r)
  }

  ghost predicate IsHolder(s: Sys, k: Holder) {
    match k
    case ByRequest(r) => r in s.threads || Unresolved(s, r)
    case ByOrder(no) => no in s.db.orders && Active(s.db.orders[no])
    case ByCancel(caller) => caller in s.cancels
  }

  ghost function HoldOf(s: Sys, k: Holder): Hold
    requires IsHolder(s, k)
  {
    match k
    case ByRequest(r) => if r in s.threads then ThreadHold(s.threads[r]) else Full(s.redis.pending[r].claim)
    case ByOrder(no) => Full(s.db.orders[no].claim)
    case ByCancel(caller) => Hold(s.cancels[caller].order.claim, s.cancels[caller].debt == OweStock, true, false)
  }

  ghost function Holders(s: Sys): set<Holder> {
    (set r | r in s.threads.Keys + s.redis.pending.Keys && IsHolder(s, ByRequest(r)) :: ByRequest(r))
    + (set no | no in s.db.orders && IsHolder(s, ByOrder(no)) :: ByOrder(no))
    + (set caller | caller in s.cancels :: ByCancel(caller))
  }

  lemma HoldersAre(s: Sys)
    ensures forall k :: k in Holders(s) <==> IsHolder(s, k)
  {
  }

  ghost function Holds(s: Sys): map<Holder, Hold> {
    HoldersAre(s);
    map k | k in Holders(s) :: HoldOf(s, k)
  }

  lemma HoldsAre(s: Sys)
    ensures forall k :: k in Holds(s) <==> IsHolder(s, k)
    ensures forall k :: k in Holds(s) ==> Holds(s)[k] == HoldOf(s, k)
  {
    HoldersAre(s);
  }

  ghost function View(s: Sys): Books {
    Books(Holds(s), s.redis.stock, s.redis.marks, s.db.coupons)
  }

  // ---- the invariant ----

  ghost predicate MessageOk(s: Sys, m: Message, r: RequestId) {
    m.requestId == r && m.orderNo in s.issued && s.issued[m.orderNo] == r
  }

  ghost predicate ThreadOk(s: Sys, r: RequestId, t: Thread) {
    match t
    case Checked(req) => req.requestId == r && r !in s.redis.pending
    case Applied(d) => r !in s.redis.pending && d.claim.quantity >= 1
    case Refused(_) => r !in s.redis.pending
    case Deducted(_) => r !in s.redis.pending
    case Recorded(m) => MessageOk(s, m, r) && r in s.redis.pending && s.redis.pending[r].claim == m.claim
    case SendFailed(_) => true
    case Undoing(_, _) => true
  }

  ghost predicate ThreadsOk(s: Sys) {
    forall r :: r in s.threads ==>
                  && r in s.redis.idempotent
                  && r !in s.topic
                  && !HasRequest(s.db.orders, r)
                  && ThreadOk(s, r, s.threads[r])
  }

  /** A message under way has its reservation on record, and no order yet. */
  ghost predicate TopicOk(s: Sys) {
    forall r :: r in s.topic ==>
                  && MessageOk(s, s.topic[r].m, r)
                  && r in s.redis.pending && s.redis.pending[r].claim == s.topic[r].m.claim
                  && !HasRequest(s.db.orders, r)
  }

  ghost predicate RecordsOk(s: Sys) {
    && s.redis.pending.Keys <= s.redis.idempotent
    && (forall no :: no in s.db.orders ==>
                       && no in s.issued && s.issued[no] == s.db.orders[no].requestId
                       && s.db.orders[no].requestId in s.redis.idempotent)
    && (forall no :: no in s.issued ==> no < s.nextNo)
  }

  ghost predicate Owed(s: Sys, no: OrderNo) {
    exists caller :: caller in s.cancels && s.cancels[caller].no == no && s.cancels[caller].debt == OweStock
  }

  /** Callers that owe Redis something each cancelled a different order, which is now Cancel. */
  ghost predicate CancelsOk(s: Sys) {
    && (forall c :: c in s.cancels ==>
                      && s.cancels[c].no in s.db.orders
                      && s.db.orders[s.cancels[c].no].status == Cancel
                      && s.db.orders[s.cancels[c].no].claim == s.cancels[c].order.claim)
    && (forall c, d | c in s.cancels && d in s.cancels && c != d :: s.cancels[c].no != s.cancels[d].no)
  }

  ghost predicate HistoryOk(s: Sys) {
    forall no ::
      && s.restocked[no] == Adversarial.CancelCount(s.db.orders, no)
      && s.cacheRestocked[no] + (if Owed(s, no) then 1 else 0) == s.restocked[no]
  }

  ghost predicate LinksOk(s: Sys) {
    ThreadsOk(s) && TopicOk(s) && RecordsOk(s) && CancelsOk(s) && HistoryOk(s)
  }

  ghost predicate Inv(s: Sys, onSale: map<Id, Offer>) {
    BooksInv(View(s), onSale) && DbInv(s.db, onSale) && LinksOk(s)
  }

  // ---- how steps show in the books ----

  /** Two states that agree on everything but request r have the same other holders. */
  ghost predicate AgreeExcept(s: Sys, t: Sys, r: RequestId) {
    && t.db.orders == s.db.orders && t.cancels == s.cancels
    && Touches(s.threads, t.threads, r)
    && Touches(s.redis.pending, t.redis.pending, r)
  }

  lemma OtherRequests(s: Sys, t: Sys, r: RequestId, k: Holder)
    requires AgreeExcept(s, t, r) && k != ByRequest(r)
    ensures IsHolder(t, k) <==> IsHolder(s, k)
    ensures IsHolder(t, k) ==> HoldOf(t, k) == HoldOf(s, k)
  {
    hide HasRequest;
    TouchesOnly(s.threads, t.threads, r);
    TouchesOnly(s.redis.pending, t.redis.pending, r);
  }

  lemma RequestChanged(s: Sys, t: Sys, r: RequestId)
    requires AgreeExcept(s, t, r)
    ensures IsHolder(t, ByRequest(r)) ==> Holds(t) == Holds(s)[ByRequest(r) := HoldOf(t, ByRequest(r))]
    ensures !IsHolder(t, ByRequest(r)) ==> Holds(t) == Holds(s) - {ByRequest(r)}
  {
    HoldsAre(s);
    HoldsAre(t);
    hide Holds, IsHolder, HoldOf, HasRequest;
    forall k | k != ByRequest(r)
      ensures IsHolder(t, k) <==> IsHolder(s, k)
      ensures IsHolder(t, k) ==> HoldOf(t, k) == HoldOf(s, k)
    {
      OtherRequests(s, t, r, k);
    }
  }

  lemma SameHold(s: Sys, t: Sys, r: RequestId)
    requires AgreeExcept(s, t, r)
    requires IsHolder(s, ByRequest(r)) <==> IsHolder(t, ByRequest(r))
    requires IsHolder(s, ByRequest(r)) ==> HoldOf(t, ByRequest(r)) == HoldOf(s, ByRequest(r))
    ensures Holds(t) == Holds(s)
  {
    HoldsAre(s);
    RequestChanged(s, t, r);
    if IsHolder(s, ByRequest(r)) {
      PutSame(Holds(s), ByRequest(r), HoldOf(s, ByRequest(r)));
    } else {
      DelAbsent(Holds(s), ByRequest(r));
    }
  }

  /** A step on request r: all other requests, the orders, the cancellations and the histories stay. */
  ghost predicate StepOn(s: Sys, t: Sys, r: RequestId) {
    && AgreeExcept(s, t, r)
    && Touches(s.topic, t.topic, r)
    && t.restocked == s.restocked && t.cacheRestocked == s.cacheRestocked
    && (t.redis.idempotent == s.redis.idempotent || t.redis.idempotent == s.redis.idempotent + {r})
    && ((t.issued == s.issued && t.nextNo == s.nextNo)
        || (t.issued == s.issued[s.nextNo := r] && t.nextNo == s.nextNo + 1))
  }

  /** The links of one request. */
  ghost predicate RequestOk(s: Sys, r: RequestId) {
    && (r in s.redis.pending ==> r in s.redis.idempotent)
    && (r in s.threads ==>
          r in s.redis.idempotent && r !in s.topic && !HasRequest(s.db.orders, r) && ThreadOk(s, r, s.threads[r]))
    && (r in s.topic ==>
          && MessageOk(s, s.topic[r].m, r)
          && r in s.redis.pending && s.redis.pending[r].claim == s.topic[r].m.claim
          && !HasRequest(s.db.orders, r))
  }

  lemma AllRequestsOk(s: Sys)
    ensures (forall r :: RequestOk(s, r)) <==> ThreadsOk(s) && TopicOk(s) && s.redis.pending.Keys <= s.redis.idempotent
  {
    if forall r :: RequestOk(s, r) {
      assert ThreadsOk(s) by {
        forall r | r in s.threads
          ensures r in s.redis.idempotent && r !in s.topic && !HasRequest(s.db.orders, r)
                  && ThreadOk(s, r, s.threads[r])
        {
          assert RequestOk(s, r);
        }
      }
      assert TopicOk(s) by {
        forall r | r in s.topic
          ensures RequestOk(s, r)
        {
        }
      }
      forall r | r in s.redis.pending
        ensures r in s.redis.idempotent
      {
        assert RequestOk(s, r);
      }
    }
  }

  lemma OtherRequestOk(s: Sys, t: Sys, r: RequestId, q: RequestId)
    requires StepOn(s, t, r) && q != r && RequestOk(s, q) && RecordsOk(s)
    ensures RequestOk(t, q)
  {
    TouchesOnly(s.threads, t.threads, r);
    TouchesOnly(s.redis.pending, t.redis.pending, r);
    TouchesOnly(s.topic, t.topic, r);
  }

  lemma LinksExcept(s: Sys, t: Sys, r: RequestId)
    requires LinksOk(s) && StepOn(s, t, r) && RequestOk(t, r)
    ensures LinksOk(t)
  {
    AllRequestsOk(s);
    AllRequestsOk(t);
    forall q
      ensures RequestOk(t, q)
    {
      if q != r {
        OtherRequestOk(s, t, r, q);
      }
    }
    forall no
      ensures Owed(t, no) <==> Owed(s, no)
    {
    }
  }

  /** A Cancelled or unchanged set of orders keeps DbInv when only coupons and addresses change. */
  lemma DbAside(db: Mysql, after: Mysql, onSale: map<Id, Offer>)
    requires DbInv(db, onSale)
    requires after == db.(coupons := after.coupons, addresses := after.addresses)
    ensures DbInv(after, onSale)
  {
  }

  /** A request id never marked has no order. */
  lemma Unordered(s: Sys, r: RequestId)
    requires RecordsOk(s) && r !in s.redis.idempotent
    ensures !HasRequest(s.db.orders, r)
  {
  }

  // Each step: how it shows in the books (View), that it keeps the links (Links), and both together (Keeps).

  lemma BeginView(s: Sys, req: CreateRequest)
    requires RecordsOk(s) && req.requestId !in s.redis.idempotent && ThreadsOk(s)
    ensures ByRequest(req.requestId) !in View(s).holds
    ensures View(DoBegin(s, req)) == Open(View(s), ByRequest(req.requestId), ClaimOf(req))
  {
    HoldsAre(s);
    RequestChanged(s, DoBegin(s, req), req.requestId);
  }

  lemma BeginLinks(s: Sys, req: CreateRequest)
    requires LinksOk(s)
    ensures LinksOk(DoBegin(s, req))
  {
    if req.requestId !in s.redis.idempotent {
      Unordered(s, req.requestId);
      LinksExcept(s, DoBegin(s, req), req.requestId);
    }
  }

  lemma BeginKeeps(s: Sys, req: CreateRequest, onSale: map<Id, Offer>)
    requires Inv(s, onSale)
    ensures Inv(DoBegin(s, req), onSale)
  {
    if req.requestId !in s.redis.idempotent {
      BeginView(s, req);
      OpenKeeps(View(s), onSale, ByRequest(req.requestId), ClaimOf(req));
      BeginLinks(s, req);
    }
  }

  ghost predicate At(s: Sys, r: RequestId, t: Thread) {
    r in s.threads && s.threads[r] == t
  }

  /** A thread that ends, or moves on within the same books. */
  lemma ThreadView(s: Sys, t: Sys, r: RequestId)
    requires r in s.threads && AgreeExcept(s, t, r)
    ensures ByRequest(r) in View(s).holds && View(s).holds[ByRequest(r)] == ThreadHold(s.threads[r])
    ensures r in t.threads ==> Holds(t) == Holds(s)[ByRequest(r) := ThreadHold(t.threads[r])]
    ensures r !in t.threads && !Unresolved(t, r) ==> Holds(t) == Holds(s) - {ByRequest(r)}
    ensures r !in t.threads && Unresolved(t, r) ==> Holds(t) == Holds(s)[ByRequest(r) := Full(t.redis.pending[r].claim)]
  {
    HoldsAre(s);
    RequestChanged(s, t, r);
  }

  lemma RejectKeeps(s: Sys, r: RequestId, onSale: map<Id, Offer>)
    requires Inv(s, onSale)
    ensures Inv(DoReject(s, r), onSale)
  {
    var t := DoReject(s, r);
    if r in s.threads && s.threads[r].Checked? {
      assert ThreadOk(s, r, s.threads[r]);
      ThreadView(s, t, r);
      CloseKeeps(View(s), onSale, ByRequest(r));
      assert View(t) == Close(View(s), ByRequest(r));
      LinksExcept(s, t, r);
    }
  }

  lemma ApplyCouponStep(s: Sys, r: RequestId, product: ProductInfo, now: int)
    ensures StepOn(s, DoApplyCoupon(s, r, product, now), r)
    ensures DoApplyCoupon(s, r, product, now).db == s.db.(coupons := DoApplyCoupon(s, r, product, now).db.coupons)
  {
    hide DraftFor;
  }

  lemma ApplyCouponLinks(s: Sys, r: RequestId, product: ProductInfo, now: int)
    requires LinksOk(s) && r in s.threads && s.threads[r].Checked?
    ensures LinksOk(DoApplyCoupon(s, r, product, now))
  {
    var t := DoApplyCoupon(s, r, product, now);
    assert ThreadOk(s, r, s.threads[r]);
    assert RequestOk(t, r);
    ApplyCouponStep(s, r, product, now);
    LinksExcept(s, t, r);
  }

  lemma ApplyCouponView(s: Sys, r: RequestId, product: ProductInfo, now: int)
    requires r in s.threads && s.threads[r].Checked? && ThreadOk(s, r, s.threads[r])
    ensures ByRequest(r) in View(s).holds && View(s).holds[ByRequest(r)] == ThreadHold(s.threads[r])
    ensures View(DoApplyCoupon(s, r, product, now)) ==
            if DraftFor(s.db, s.threads[r].req, product, now).Failure?
            then Close(View(s), ByRequest(r)) else TakeCoupon(View(s), ByRequest(r))
  {
    hide Holds, IsHolder, HoldOf, HasRequest;
    ThreadView(s, DoApplyCoupon(s, r, product, now), r);
  }

  lemma ApplyCouponBooks(s: Sys, r: RequestId, product: ProductInfo, now: int, onSale: map<Id, Offer>)
    requires BooksInv(View(s), onSale)
    requires r in s.threads && s.threads[r].Checked? && ThreadOk(s, r, s.threads[r])
    ensures BooksInv(View(DoApplyCoupon(s, r, product, now)), onSale)
  {
    ApplyCouponView(s, r, product, now);
    if DraftFor(s.db, s.threads[r].req, product, now).Failure? {
      CloseKeeps(View(s), onSale, ByRequest(r));
    } else {
      TakeCouponKeeps(View(s), onSale, ByRequest(r));
    }
  }

  lemma ApplyCouponKeeps(s: Sys, r: RequestId, product: ProductInfo, now: int, onSale: map<Id, Offer>)
    requires Inv(s, onSale)
    ensures Inv(DoApplyCoupon(s, r, product, now), onSale)
  {
    if r in s.threads && s.threads[r].Checked? {
      assert ThreadOk(s, r, s.threads[r]);
      ApplyCouponLinks(s, r, product, now);
      ApplyCouponBooks(s, r, product, now, onSale);
      ApplyCouponStep(s, r, product, now);
      DbAside(s.db, DoApplyCoupon(s, r, product, now).db, onSale);
    }
  }

  lemma RunScriptLinks(s: Sys, r: RequestId)
    requires LinksOk(s)
    ensures LinksOk(DoRunScript(s, r))
  {
    if r in s.threads && s.threads[r].Applied? {
      LinksExcept(s, DoRunScript(s, r), r);
    }
  }

  lemma RunScriptView(s: Sys, r: RequestId)
    requires r in s.threads && s.threads[r].Applied?
    ensures var k := ByRequest(r);
            && k in View(s).holds && View(s).holds[k] == ThreadHold(s.threads[r])
            && View(DoRunScript(s, r)) ==
               if Deduct(s.redis, s.threads[r].draft.claim).1 == 1 then TakeStock(View(s), k) else View(s)
  {
    hide Holds, IsHolder, HoldOf, HasRequest;
    ThreadView(s, DoRunScript(s, r), r);
  }

  lemma RunScriptKeeps(s: Sys, r: RequestId, onSale: map<Id, Offer>)
    requires Inv(s, onSale)
    ensures Inv(DoRunScript(s, r), onSale)
  {
    RunScriptLinks(s, r);
    if r in s.threads && s.threads[r].Applied? {
      assert ThreadOk(s, r, s.threads[r]);
      RunScriptView(s, r);
      if Deduct(s.redis, s.threads[r].draft.claim).1 == 1 {
        TakeStockKeeps(View(s), onSale, ByRequest(r));
      }
    }
  }

  lemma ReturnCouponView(s: Sys, r: RequestId)
    requires r in s.threads && s.threads[r].Refused? && ThreadOk(s, r, s.threads[r])
    ensures var k := ByRequest(r);
            && k in View(s).holds && View(s).holds[k] == ThreadHold(s.threads[r])
            && View(DoReturnCoupon(s, r)) == Close(DropCoupon(View(s), k), k)
  {
    hide Holds, IsHolder, HoldOf, HasRequest;
    ThreadView(s, DoReturnCoupon(s, r), r);
    PutDel(View(s).holds, ByRequest(r), ThreadHold(s.threads[r]).(coupon := false));
  }

  lemma ReturnCouponLinks(s: Sys, r: RequestId)
    requires LinksOk(s)
    ensures LinksOk(DoReturnCoupon(s, r))
  {
    if r in s.threads && s.threads[r].Refused? {
      LinksExcept(s, DoReturnCoupon(s, r), r);
    }
  }

  lemma ReturnCouponKeeps(s: Sys, r: RequestId, onSale: map<Id, Offer>)
    requires Inv(s, onSale)
    ensures Inv(DoReturnCoupon(s, r), onSale)
  {
    ReturnCouponLinks(s, r);
    DbAside(s.db, DoReturnCoupon(s, r).db, onSale);
    if r in s.threads && s.threads[r].Refused? {
      var k := ByRequest(r);
      assert ThreadOk(s, r, s.threads[r]);
      ReturnCouponView(s, r);
      DropCouponKeeps(View(s), onSale, k);
      CloseKeeps(DropCoupon(View(s), k), onSale, k);
    }
  }

  lemma RecordLinks(s: Sys, r: RequestId, now: int)
    requires LinksOk(s)
    ensures LinksOk(DoRecord(s, r, now))
  {
    if r in s.threads && s.threads[r].Deducted? {
      LinksExcept(s, DoRecord(s, r, now), r);
    }
  }

  lemma RecordKeeps(s: Sys, r: RequestId, now: int, onSale: map<Id, Offer>)
    requires Inv(s, onSale)
    ensures Inv(DoRecord(s, r, now), onSale)
  {
    RecordLinks(s, r, now);
    if r in s.threads && s.threads[r].Deducted? {
      SameHold(s, DoRecord(s, r, now), r);
    }
  }

  lemma SendLinks(s: Sys, r: RequestId, delivered: bool)
    requires LinksOk(s)
    ensures LinksOk(DoSend(s, r, delivered))
  {
    if r in s.threads && s.threads[r].Recorded? {
      LinksExcept(s, DoSend(s, r, delivered), r);
    }
  }

  lemma SendKeeps(s: Sys, r: RequestId, delivered: bool, onSale: map<Id, Offer>)
    requires Inv(s, onSale)
    ensures Inv(DoSend(s, r, delivered), onSale)
  {
    SendLinks(s, r, delivered);
    if r in s.threads && s.threads[r].Recorded? {
      assert ThreadOk(s, r, s.threads[r]);
      SameHold(s, DoSend(s, r, delivered), r);
    }
  }

  lemma MarkBuyerLinks(s: Sys, key: MarkKey)
    requires LinksOk(s)
    ensures LinksOk(s.(redis := Mark(s.redis, key)))
  {
    LinksExcept(s, s.(redis := Mark(s.redis, key)), "");
  }

  lemma MarkBuyerKeeps(s: Sys, key: MarkKey, onSale: map<Id, Offer>)
    requires Inv(s, onSale)
    ensures Inv(s.(redis := Mark(s.redis, key)), onSale)
  {
    MarkBuyerLinks(s, key);
    SameHold(s, s.(redis := Mark(s.redis, key)), "");
    ExtraMarkKeeps(View(s), onSale, key);
  }

  lemma SettleLinks(s: Sys, r: RequestId)
    requires LinksOk(s)
    ensures LinksOk(DoSettle(s, r))
  {
    if HasRequest(s.db.orders, r) {
      LinksExcept(s, DoSettle(s, r), r);
    }
  }

  lemma SettleKeeps(s: Sys, r: RequestId, onSale: map<Id, Offer>)
    requires Inv(s, onSale)
    ensures Inv(DoSettle(s, r), onSale)
  {
    SettleLinks(s, r);
    if HasRequest(s.db.orders, r) {
      SameHold(s, DoSettle(s, r), r);
    }
  }

  lemma CompensateLinks(s: Sys, r: RequestId)
    requires LinksOk(s)
    ensures LinksOk(DoCompensate(s, r))
  {
    LinksExcept(s, DoCompensate(s, r), r);
  }

  lemma CompensateView(s: Sys, r: RequestId)
    ensures View(DoCompensate(s, r)) == View(s)
  {
    SameHold(s, DoCompensate(s, r), r);
  }

  lemma CompensateKeeps(s: Sys, r: RequestId, onSale: map<Id, Offer>)
    requires Inv(s, onSale)
    ensures Inv(DoCompensate(s, r), onSale)
  {
    CompensateLinks(s, r);
    CompensateView(s, r);
  }

  // Giving a reservation back, stage by stage.

  lemma ForgetUnsentKeeps(s: Sys, r: RequestId, onSale: map<Id, Offer>)
    requires Inv(s, onSale) && r in s.threads && s.threads[r].SendFailed?
    ensures Inv(ForgetUnsent(s, r, s.threads[r].m.claim), onSale)
  {
    var t := ForgetUnsent(s, r, s.threads[r].m.claim);
    SameHold(s, t, r);
    LinksExcept(s, t, r);
  }

  lemma RollbackAdds(redis: Redis, key: StockKey, quantity: int)
    requires key in redis.stock
    ensures Rollback(redis, key, quantity) == redis.(stock := redis.stock[key := redis.stock[key] + quantity])
  {
  }

  lemma ReturnStockHolds(s: Sys, r: RequestId, c: Claim)
    requires At(s, r, Undoing(c, GiveStock))
    ensures var k := ByRequest(r);
            && k in Holds(s) && Holds(s)[k] == Full(c)
            && Holds(ReturnStock(s, r, c)) == Holds(s)[k := Full(c).(stock := false)]
  {
    hide Holds, IsHolder, HoldOf, HasRequest;
    ThreadView(s, ReturnStock(s, r, c), r);
  }

  lemma ReturnStockView(s: Sys, r: RequestId, c: Claim)
    requires At(s, r, Undoing(c, GiveStock)) && StockKeyOf(c) in s.redis.stock
    ensures ByRequest(r) in View(s).holds && View(s).holds[ByRequest(r)] == Full(c)
    ensures View(ReturnStock(s, r, c)) == DropStock(View(s), ByRequest(r))
  {
    ReturnStockHolds(s, r, c);
    RollbackAdds(s.redis, StockKeyOf(c), c.quantity);
  }

  lemma ReturnStockBooks(s: Sys, r: RequestId, c: Claim, onSale: map<Id, Offer>)
    requires BooksInv(View(s), onSale) && At(s, r, Undoing(c, GiveStock))
    ensures BooksInv(View(ReturnStock(s, r, c)), onSale)
  {
    ReturnStockHolds(s, r, c);
    ReturnStockView(s, r, c);
    DropStockKeeps(View(s), onSale, ByRequest(r));
  }

  lemma ReturnMarkView(s: Sys, r: RequestId, c: Claim)
    requires At(s, r, Undoing(c, GiveMark))
    ensures var k := ByRequest(r);
            k in View(s).holds && View(s).holds[k].mark && View(ReturnMark(s, r, c)) == DropMark(View(s), k)
  {
    hide Holds, IsHolder, HoldOf, HasRequest;
    ThreadView(s, ReturnMark(s, r, c), r);
  }

  lemma ReturnMarkBooks(s: Sys, r: RequestId, c: Claim, onSale: map<Id, Offer>)
    requires BooksInv(View(s), onSale) && At(s, r, Undoing(c, GiveMark))
    ensures BooksInv(View(ReturnMark(s, r, c)), onSale)
  {
    ReturnMarkView(s, r, c);
    DropMarkKeeps(View(s), onSale, ByRequest(r));
  }

  lemma ReturnClaimedCouponView(s: Sys, r: RequestId, c: Claim)
    requires At(s, r, Undoing(c, GiveCoupon))
    ensures var k := ByRequest(r);
            k in View(s).holds && View(s).holds[k].coupon
            && View(ReturnClaimedCoupon(s, r, c)) == DropCoupon(View(s), k)
  {
    hide Holds, IsHolder, HoldOf, HasRequest;
    ThreadView(s, ReturnClaimedCoupon(s, r, c), r);
  }

  lemma ReturnClaimedCouponBooks(s: Sys, r: RequestId, c: Claim, onSale: map<Id, Offer>)
    requires BooksInv(View(s), onSale) && At(s, r, Undoing(c, GiveCoupon))
    ensures BooksInv(View(ReturnClaimedCoupon(s, r, c)), onSale)
  {
    ReturnClaimedCouponView(s, r, c);
    DropCouponKeeps(View(s), onSale, ByRequest(r));
  }

  lemma ForgetRecordView(s: Sys, r: RequestId, c: Claim)
    requires At(s, r, Undoing(c, DropRecord))
    ensures var k := ByRequest(r);
            && k in View(s).holds && View(s).holds[k] == Hold(c, false, false, false)
            && View(ForgetRecord(s, r)) == Close(View(s), k)
  {
    hide Holds, IsHolder, HoldOf, HasRequest;
    ThreadView(s, ForgetRecord(s, r), r);
  }

  lemma ForgetRecordBooks(s: Sys, r: RequestId, c: Claim, onSale: map<Id, Offer>)
    requires BooksInv(View(s), onSale) && At(s, r, Undoing(c, DropRecord))
    ensures BooksInv(View(ForgetRecord(s, r)), onSale)
  {
    ForgetRecordView(s, r, c);
    CloseKeeps(View(s), onSale, ByRequest(r));
  }

  lemma GiveBackBooks(s: Sys, r: RequestId, c: Claim, stage: UndoStage, onSale: map<Id, Offer>)
    requires BooksInv(View(s), onSale) && At(s, r, Undoing(c, stage))
    ensures BooksInv(View(GiveBack(s, r, c, stage)), onSale)
  {
    match stage
    case GiveStock => ReturnStockBooks(s, r, c, onSale);
    case GiveMark => ReturnMarkBooks(s, r, c, onSale);
    case GiveCoupon => ReturnClaimedCouponBooks(s, r, c, onSale);
    case DropRecord => ForgetRecordBooks(s, r, c, onSale);
  }

  lemma GiveBackStep(s: Sys, r: RequestId, c: Claim, stage: UndoStage)
    ensures StepOn(s, GiveBack(s, r, c, stage), r)
    ensures GiveBack(s, r, c, stage).db == s.db.(coupons := GiveBack(s, r, c, stage).db.coupons)
  {
  }

  lemma GiveBackLinks(s: Sys, r: RequestId, c: Claim, stage: UndoStage)
    requires LinksOk(s) && At(s, r, Undoing(c, stage))
    ensures LinksOk(GiveBack(s, r, c, stage))
  {
    GiveBackStep(s, r, c, stage);
    LinksExcept(s, GiveBack(s, r, c, stage), r);
  }

  lemma UndoKeeps(s: Sys, r: RequestId, onSale: map<Id, Offer>)
    requires Inv(s, onSale)
    ensures Inv(DoUndo(s, r), onSale)
  {
    if r in s.threads && s.threads[r].SendFailed? {
      ForgetUnsentKeeps(s, r, onSale);
    } else if r in s.threads && s.threads[r].Undoing? {
      var c, stage := s.threads[r].claim, s.threads[r].stage;
      GiveBackLinks(s, r, c, stage);
      GiveBackBooks(s, r, c, stage, onSale);
      GiveBackStep(s, r, c, stage);
      DbAside(s.db, GiveBack(s, r, c, stage).db, onSale);
    }
  }

  // Consuming a message.

  /** The order row takes over exactly what the reservation held; uint32 conversion changes nothing. */
  lemma ConfirmView(s: Sys, t: Sys, r: RequestId, now: int)
    requires ThreadsOk(s) && TopicOk(s) && r in s.topic
    requires s.topic[r].m.claim.quantity == ToUint32(s.topic[r].m.claim.quantity)
    requires ConfirmTx(s.db, s.topic[r].m, now).Success?
    requires t == s.(db := Confirmed(s.db, s.topic[r].m, now), topic := s.topic - {r})
    ensures var from, to := ByRequest(r), ByOrder(s.topic[r].m.orderNo);
            && from in View(s).holds && View(s).holds[from] == Full(s.topic[r].m.claim)
            && to !in View(s).holds
            && View(t) == PassOn(View(s), from, to)
  {
    hide Holds, IsHolder, HoldOf, HasRequest, ThreadOk, ConfirmTx, Clashes;
    HoldsAre(s);
    HoldsAre(t);
    ConfirmEnds(s, t, r, now);
    forall k {
      ConfirmHolders(s, t, r, now, k);
    }
  }

  lemma ConfirmEnds(s: Sys, t: Sys, r: RequestId, now: int)
    requires ThreadsOk(s) && TopicOk(s) && r in s.topic
    requires ConfirmTx(s.db, s.topic[r].m, now).Success?
    requires t == s.(db := Confirmed(s.db, s.topic[r].m, now), topic := s.topic - {r})
    ensures IsHolder(s, ByRequest(r)) && HoldOf(s, ByRequest(r)) == Full(s.topic[r].m.claim)
    ensures !IsHolder(s, ByOrder(s.topic[r].m.orderNo))
    ensures t.db.coupons == s.db.coupons
  {
  }

  lemma ConfirmHolders(s: Sys, t: Sys, r: RequestId, now: int, k: Holder)
    requires ThreadsOk(s) && TopicOk(s) && r in s.topic
    requires s.topic[r].m.claim.quantity == ToUint32(s.topic[r].m.claim.quantity)
    requires ConfirmTx(s.db, s.topic[r].m, now).Success?
    requires t == s.(db := Confirmed(s.db, s.topic[r].m, now), topic := s.topic - {r})
    ensures var from, to := ByRequest(r), ByOrder(s.topic[r].m.orderNo);
            && (IsHolder(t, k) <==> k == to || (IsHolder(s, k) && k != from))
            && (IsHolder(t, k) ==> IsHolder(s, if k == to then from else k)
                                   && HoldOf(t, k) == HoldOf(s, if k == to then from else k))
  {
    var m := s.topic[r].m;
    assert t.db.orders == s.db.orders[m.orderNo := OrderRow(m, now)];
    Adversarial.InsertedRequests(s.db.orders, m.orderNo, OrderRow(m, now));
    match k
    case ByRequest(q) => assert Unresolved(t, q) <==> Unresolved(s, q) && q != r;
    case ByOrder(no) =>
    case ByCancel(_) =>
  }

  lemma ConfirmBooks(s: Sys, t: Sys, r: RequestId, now: int, onSale: map<Id, Offer>)
    requires BooksInv(View(s), onSale) && ThreadsOk(s) && TopicOk(s) && r in s.topic
    requires ConfirmTx(s.db, s.topic[r].m, now).Success?
    requires t == s.(db := Confirmed(s.db, s.topic[r].m, now), topic := s.topic - {r})
    ensures BooksInv(View(t), onSale)
  {
    ReservedQuantity(s, r, onSale);
    ConfirmView(s, t, r, now);
    PassOnKeeps(View(s), onSale, ByRequest(r), ByOrder(s.topic[r].m.orderNo));
  }

  /** A message under way asks for at least one unit and at most what an unsigned 32-bit column holds. */
  lemma ReservedQuantity(s: Sys, r: RequestId, onSale: map<Id, Offer>)
    requires BooksInv(View(s), onSale) && ThreadsOk(s) && TopicOk(s) && r in s.topic
    ensures ByRequest(r) in Holds(s) && Holds(s)[ByRequest(r)] == Full(s.topic[r].m.claim)
    ensures OnOffer(onSale, StockKeyOf(s.topic[r].m.claim))
    ensures 1 <= s.topic[r].m.claim.quantity == ToUint32(s.topic[r].m.claim.quantity)
  {
    hide BooksInv, ThreadsOk, TopicOk, Holds, HasRequest;
    MessageHolds(s, r);
    HeldIsOnOffer(View(s), onSale, ByRequest(r));
  }

  lemma MessageHolds(s: Sys, r: RequestId)
    requires ThreadsOk(s) && TopicOk(s) && r in s.topic
    ensures ByRequest(r) in Holds(s) && Holds(s)[ByRequest(r)] == Full(s.topic[r].m.claim)
  {
    HoldsAre(s);
    assert Unresolved(s, r) && r !in s.threads;
  }

  lemma HeldIsOnOffer(b: Books, onSale: map<Id, Offer>, k: Holder)
    requires BooksInv(b, onSale) && k in b.holds && b.holds[k].stock
    ensures OnOffer(onSale, StockKeyOf(b.holds[k].claim))
    ensures 1 <= b.holds[k].claim.quantity == ToUint32(b.holds[k].claim.quantity)
  {
  }

  lemma ConfirmedRequests(s: Sys, t: Sys, r: RequestId, now: int)
    requires ThreadsOk(s) && TopicOk(s) && r in s.topic
    requires ConfirmTx(s.db, s.topic[r].m, now).Success?
    requires t == s.(db := Confirmed(s.db, s.topic[r].m, now), topic := s.topic - {r})
    ensures ThreadsOk(t) && TopicOk(t)
  {
    var m := s.topic[r].m;
    assert t.db.orders == s.db.orders[m.orderNo := OrderRow(m, now)];
    Adversarial.InsertedRequests(s.db.orders, m.orderNo, OrderRow(m, now));
  }

  /** The tables seen from outside the transaction: one new Pending row, nothing else among the orders. */
  lemma ConfirmedOrders(db: Mysql, m: Message, now: int)
    requires ConfirmTx(db, m, now).Success?
    ensures m.orderNo !in db.orders && OrderRow(m, now).status == Pending && OrderRow(m, now).requestId == m.requestId
    ensures ConfirmTx(db, m, now).value.orders == db.orders[m.orderNo := OrderRow(m, now)]
    ensures ConfirmTx(db, m, now).value == Confirmed(db, m, now)
  {
  }

  lemma ConfirmedRecords(s: Sys, t: Sys, r: RequestId, row: Order)
    requires RecordsOk(s) && TopicOk(s) && r in s.topic && row.requestId == r
    requires t == s.(db := t.db, topic := t.topic) && t.db.orders == s.db.orders[s.topic[r].m.orderNo := row]
    ensures RecordsOk(t)
  {
  }

  lemma ConfirmedCancels(s: Sys, t: Sys, no: OrderNo, row: Order)
    requires CancelsOk(s) && no !in s.db.orders
    requires t == s.(db := t.db, topic := t.topic) && t.db.orders == s.db.orders[no := row]
    ensures CancelsOk(t)
  {
  }

  lemma ConfirmedHistory(s: Sys, t: Sys, no: OrderNo, row: Order)
    requires HistoryOk(s) && no !in s.db.orders && row.status == Pending
    requires t == s.(db := t.db, topic := t.topic) && t.db.orders == s.db.orders[no := row]
    ensures HistoryOk(t)
  {
    forall o
      ensures Owed(t, o) <==> Owed(s, o)
    {
    }
  }

  lemma ConfirmLinks(s: Sys, t: Sys, r: RequestId, now: int)
    requires LinksOk(s) && r in s.topic
    requires ConfirmTx(s.db, s.topic[r].m, now).Success?
    requires t == s.(db := Confirmed(s.db, s.topic[r].m, now), topic := s.topic - {r})
    ensures LinksOk(t)
  {
    var m := s.topic[r].m;
    assert m.requestId == r;
    ConfirmedRequests(s, t, r, now);
    ConfirmedOrders(s.db, m, now);
    hide ThreadsOk, TopicOk, RecordsOk, CancelsOk, HistoryOk, ConfirmTx, OrderRow;
    ConfirmedRecords(s, t, r, OrderRow(m, now));
    ConfirmedCancels(s, t, m.orderNo, OrderRow(m, now));
    ConfirmedHistory(s, t, m.orderNo, OrderRow(m, now));
  }

  lemma AfterFailureView(s: Sys, r: RequestId, e: GoError)
    requires ThreadsOk(s) && TopicOk(s) && r in s.topic
    ensures View(AfterFailure(s, r, s.topic[r], e)) == View(s)
    ensures AfterFailure(s, r, s.topic[r], e).db == s.db
  {
    assert Unresolved(s, r) && r !in s.threads;
    SameHold(s, AfterFailure(s, r, s.topic[r], e), r);
  }

  lemma AfterFailureLinks(s: Sys, r: RequestId, e: GoError)
    requires LinksOk(s) && r in s.topic
    ensures LinksOk(AfterFailure(s, r, s.topic[r], e))
  {
    hide Routing.ClassifyOrderError, HasRequest;
    var t := AfterFailure(s, r, s.topic[r], e);
    assert RequestOk(t, r);
    LinksExcept(s, t, r);
  }

  lemma ConfirmedKeeps(s: Sys, r: RequestId, now: int, onSale: map<Id, Offer>)
    requires Inv(s, onSale) && r in s.topic && ConfirmTx(s.db, s.topic[r].m, now).Success?
    ensures Inv(s.(db := Confirmed(s.db, s.topic[r].m, now), topic := s.topic - {r}), onSale)
  {
    var t := s.(db := Confirmed(s.db, s.topic[r].m, now), topic := s.topic - {r});
    ConfirmBooks(s, t, r, now, onSale);
    ConfirmLinks(s, t, r, now);
    ConfirmKeeps(s.db, onSale, s.topic[r].m, now);
  }

  lemma FailedKeeps(s: Sys, r: RequestId, e: GoError, onSale: map<Id, Offer>)
    requires Inv(s, onSale) && r in s.topic
    ensures Inv(AfterFailure(s, r, s.topic[r], e), onSale)
  {
    hide AfterFailure, BooksInv, DbInv, ThreadsOk, TopicOk, RecordsOk, CancelsOk, HistoryOk;
    AfterFailureView(s, r, e);
    AfterFailureLinks(s, r, e);
  }

  lemma ConsumeKeeps(s: Sys, r: RequestId, now: int, abort: Option<GoError>, onSale: map<Id, Offer>)
    requires Inv(s, onSale)
    ensures Inv(DoConsume(s, r, now, abort), onSale)
  {
    hide Inv, AfterFailure;
    if r in s.topic {
      var outcome := ConfirmOutcome(s.db, s.topic[r].m, now, abort);
      if outcome.Success? {
        ConfirmedKeeps(s, r, now, onSale);
      } else {
        FailedKeeps(s, r, outcome.error, onSale);
      }
    }
  }

  // Cancelling and paying.

  ghost function AfterCancel(s: Sys, caller: nat, no: OrderNo): Sys
    requires no in s.db.orders && s.db.orders[no].claim.sku in s.db.skus
  {
    s.(db := Cancelled(s.db, no),
    cancels := s.cancels[caller := CancelTask(no, s.db.orders[no], OweStock)],
    restocked := s.restocked + multiset{no})
  }

  lemma AfterCancelHolders(s: Sys, caller: nat, no: OrderNo, k: Holder)
    requires no in s.db.orders && s.db.orders[no].claim.sku in s.db.skus
    requires s.db.orders[no].status == Pending && caller !in s.cancels
    ensures var t := AfterCancel(s, caller, no);
            && (IsHolder(t, k) <==> k == ByCancel(caller) || (IsHolder(s, k) && k != ByOrder(no)))
            && (IsHolder(t, k) && k != ByCancel(caller) ==> HoldOf(t, k) == HoldOf(s, k))
  {
    var t := AfterCancel(s, caller, no);
    assert t.db.orders == WithStatus(s.db.orders, no, Cancel);
    Adversarial.SameRequests(s.db.orders, no, Cancel);
    match k
    case ByRequest(q) => assert Unresolved(t, q) <==> Unresolved(s, q);
    case ByOrder(_) =>
    case ByCancel(_) =>
  }

  lemma CancelledHolders(s: Sys, caller: nat, no: OrderNo)
    requires no in s.db.orders && s.db.orders[no].claim.sku in s.db.skus
    requires s.db.orders[no].status == Pending && caller !in s.cancels
    ensures IsHolder(s, ByOrder(no)) && HoldOf(s, ByOrder(no)) == Full(s.db.orders[no].claim)
    ensures !IsHolder(s, ByCancel(caller))
    ensures var t := AfterCancel(s, caller, no);
            IsHolder(t, ByCancel(caller))
            && HoldOf(t, ByCancel(caller)) == Full(s.db.orders[no].claim).(coupon := false)
  {
  }

  lemma AfterCancelHolds(s: Sys, caller: nat, no: OrderNo)
    requires no in s.db.orders && s.db.orders[no].claim.sku in s.db.skus
    requires s.db.orders[no].status == Pending && caller !in s.cancels
    ensures ByOrder(no) in Holds(s) && Holds(s)[ByOrder(no)] == Full(s.db.orders[no].claim)
    ensures ByCancel(caller) !in Holds(s)
    ensures Holds(AfterCancel(s, caller, no)) ==
            (Holds(s) - {ByOrder(no)})[ByCancel(caller) := Full(s.db.orders[no].claim).(coupon := false)]
  {
    hide Holds, IsHolder, HoldOf, HasRequest, AfterCancel;
    var t := AfterCancel(s, caller, no);
    HoldsAre(s);
    HoldsAre(t);
    CancelledHolders(s, caller, no);
    forall k {
      AfterCancelHolders(s, caller, no, k);
    }
  }

  lemma AfterCancelView(s: Sys, caller: nat, no: OrderNo)
    requires no in s.db.orders && s.db.orders[no].claim.sku in s.db.skus
    requires s.db.orders[no].status == Pending && caller !in s.cancels
    ensures var from, to := ByOrder(no), ByCancel(caller);
            && from in View(s).holds && View(s).holds[from] == Full(s.db.orders[no].claim)
            && to !in View(s).holds
            && View(AfterCancel(s, caller, no)) == PassOn(DropCoupon(View(s), from), from, to)
  {
    AfterCancelHolds(s, caller, no);
    PutDel(Holds(s), ByOrder(no), Full(s.db.orders[no].claim).(coupon := false));
  }

  lemma AfterCancelBooks(s: Sys, caller: nat, no: OrderNo, onSale: map<Id, Offer>)
    requires BooksInv(View(s), onSale)
    requires no in s.db.orders && s.db.orders[no].claim.sku in s.db.skus
    requires s.db.orders[no].status == Pending && caller !in s.cancels
    ensures BooksInv(View(AfterCancel(s, caller, no)), onSale)
  {
    AfterCancelView(s, caller, no);
    DropCouponKeeps(View(s), onSale, ByOrder(no));
    PassOnKeeps(DropCoupon(View(s), ByOrder(no)), onSale, ByOrder(no), ByCancel(caller));
  }

  lemma PendingOwesNothing(s: Sys, no: OrderNo)
    requires CancelsOk(s) && no in s.db.orders && s.db.orders[no].status == Pending
    ensures !Owed(s, no)
    ensures forall c :: c in s.cancels ==> s.cancels[c].no != no
  {
  }

  lemma NewDebt(s: Sys, caller: nat, no: OrderNo)
    requires no in s.db.orders && s.db.orders[no].claim.sku in s.db.skus && caller !in s.cancels
    ensures forall o :: Owed(AfterCancel(s, caller, no), o) <==> Owed(s, o) || o == no
  {
    var t := AfterCancel(s, caller, no);
    assert t.cancels[caller].no == no;
    forall o
      ensures Owed(t, o) <==> Owed(s, o) || o == no
    {
      if Owed(s, o) {
        var c :| c in s.cancels && s.cancels[c].no == o && s.cancels[c].debt == OweStock;
        assert c in t.cancels && t.cancels[c] == s.cancels[c];
      }
    }
  }

  lemma AfterCancelHistory(s: Sys, caller: nat, no: OrderNo)
    requires CancelsOk(s) && HistoryOk(s)
    requires no in s.db.orders && s.db.orders[no].claim.sku in s.db.skus
    requires s.db.orders[no].status == Pending && caller !in s.cancels
    ensures CancelsOk(AfterCancel(s, caller, no)) && HistoryOk(AfterCancel(s, caller, no))
  {
    assert AfterCancel(s, caller, no).db.orders == WithStatus(s.db.orders, no, Cancel);
    PendingOwesNothing(s, no);
    NewDebt(s, caller, no);
  }

  lemma AfterCancelLinks(s: Sys, caller: nat, no: OrderNo)
    requires LinksOk(s)
    requires no in s.db.orders && s.db.orders[no].claim.sku in s.db.skus
    requires s.db.orders[no].status == Pending && caller !in s.cancels
    ensures LinksOk(AfterCancel(s, caller, no))
  {
    StatusLinks(s, AfterCancel(s, caller, no), no, Cancel);
    AfterCancelHistory(s, caller, no);
  }

  /** Threads, messages and records do not depend on the status of an order. */
  lemma StatusLinks(s: Sys, t: Sys, no: OrderNo, status: Status)
    requires ThreadsOk(s) && TopicOk(s) && RecordsOk(s) && no in s.db.orders
    requires t.db.orders == WithStatus(s.db.orders, no, status)
    requires t.redis == s.redis && t.topic == s.topic && t.threads == s.threads && t.issued == s.issued
             && t.nextNo == s.nextNo
    ensures ThreadsOk(t) && TopicOk(t) && RecordsOk(t)
  {
    Adversarial.SameRequests(s.db.orders, no, status);
  }

  lemma CancelOrderKeeps(s: Sys, caller: nat, no: OrderNo, onSale: map<Id, Offer>)
    requires Inv(s, onSale)
    ensures Inv(DoCancel(s, caller, no), onSale)
  {
    hide BooksInv, LinksOk;
    if caller !in s.cancels && no in s.db.orders && s.db.orders[no].status == Pending {
      AfterCancelBooks(s, caller, no, onSale);
      AfterCancelLinks(s, caller, no);
      CancelledKeeps(s.db, onSale, no);
      assert DoCancel(s, caller, no) == AfterCancel(s, caller, no);
    }
  }

  /** Two states that differ in one cancellation have the same other holders. */
  lemma CancelChanged(s: Sys, t: Sys, caller: nat)
    requires t.db == s.db && t.threads == s.threads && t.redis.pending == s.redis.pending
    requires Touches(s.cancels, t.cancels, caller) && caller in s.cancels
    ensures ByCancel(caller) in Holds(s)
    ensures Holds(t) == if caller in t.cancels then Holds(s)[ByCancel(caller) := HoldOf(t, ByCancel(caller))]
                        else Holds(s) - {ByCancel(caller)}
  {
    HoldsAre(s);
    HoldsAre(t);
    assert IsHolder(s, ByCancel(caller)) && (IsHolder(t, ByCancel(caller)) <==> caller in t.cancels);
    hide Holds, IsHolder, HoldOf, HasRequest;
    forall k | k != ByCancel(caller)
      ensures IsHolder(t, k) <==> IsHolder(s, k)
      ensures IsHolder(t, k) ==> HoldOf(t, k) == HoldOf(s, k)
    {
      OtherCancels(s, t, caller, k);
    }
  }

  lemma OtherCancels(s: Sys, t: Sys, caller: nat, k: Holder)
    requires t.db == s.db && t.threads == s.threads && t.redis.pending == s.redis.pending
    requires Touches(s.cancels, t.cancels, caller) && k != ByCancel(caller)
    ensures IsHolder(t, k) <==> IsHolder(s, k)
    ensures IsHolder(t, k) ==> HoldOf(t, k) == HoldOf(s, k)
  {
    hide HasRequest;
    TouchesOnly(s.cancels, t.cancels, caller);
  }

  function RepayStock(s: Sys, caller: nat): Sys
    requires caller in s.cancels
  {
    var task := s.cancels[caller];
    s.(redis := Rollback(s.redis, StockKeyOf(task.order.claim), task.order.claim.quantity),
    cancels := s.cancels[caller := task.(debt := OweMark)],
    cacheRestocked := s.cacheRestocked + multiset{task.no})
  }

  function RepayMark(s: Sys, caller: nat): Sys
    requires caller in s.cancels
  {
    s.(redis := Unmark(s.redis, MarkKeyOf(s.cancels[caller].order.claim)), cancels := s.cancels - {caller})
  }

  lemma RepayStockView(s: Sys, caller: nat)
    requires caller in s.cancels && s.cancels[caller].debt == OweStock
    requires StockKeyOf(s.cancels[caller].order.claim) in s.redis.stock
    ensures var k := ByCancel(caller);
            && k in View(s).holds && View(s).holds[k] == Hold(s.cancels[caller].order.claim, true, true, false)
            && View(RepayStock(s, caller)) == DropStock(View(s), k)
  {
    var c := s.cancels[caller].order.claim;
    var key := StockKeyOf(c);
    assert Rollback(s.redis, key, c.quantity)
        == s.redis.(stock := s.redis.stock[key := s.redis.stock[key] + c.quantity]);
    HoldsAre(s);
    CancelChanged(s, RepayStock(s, caller), caller);
  }

  lemma RepayStockBooks(s: Sys, caller: nat, onSale: map<Id, Offer>)
    requires BooksInv(View(s), onSale) && caller in s.cancels && s.cancels[caller].debt == OweStock
    ensures BooksInv(View(RepayStock(s, caller)), onSale)
  {
    HoldsAre(s);
    assert View(s).holds[ByCancel(caller)].stock;
    RepayStockView(s, caller);
    DropStockKeeps(View(s), onSale, ByCancel(caller));
  }

  lemma RepayMarkView(s: Sys, caller: nat)
    requires caller in s.cancels && s.cancels[caller].debt == OweMark
    ensures var k := ByCancel(caller);
            && k in View(s).holds && View(s).holds[k] == Hold(s.cancels[caller].order.claim, false, true, false)
            && View(RepayMark(s, caller)) == Close(DropMark(View(s), k), k)
  {
    HoldsAre(s);
    CancelChanged(s, RepayMark(s, caller), caller);
    PutDel(View(s).holds, ByCancel(caller), View(s).holds[ByCancel(caller)].(mark := false));
  }

  lemma RepayMarkBooks(s: Sys, caller: nat, onSale: map<Id, Offer>)
    requires BooksInv(View(s), onSale) && caller in s.cancels && s.cancels[caller].debt == OweMark
    ensures BooksInv(View(RepayMark(s, caller)), onSale)
  {
    RepayMarkView(s, caller);
    DropMarkKeeps(View(s), onSale, ByCancel(caller));
    CloseKeeps(DropMark(View(s), ByCancel(caller)), onSale, ByCancel(caller));
  }

  lemma RepayStockLinks(s: Sys, caller: nat)
    requires LinksOk(s) && caller in s.cancels && s.cancels[caller].debt == OweStock
    ensures LinksOk(RepayStock(s, caller))
  {
    var t := RepayStock(s, caller);
    var no := s.cancels[caller].no;
    assert Owed(s, no) && !Owed(t, no);
    forall o | o != no
      ensures Owed(t, o) <==> Owed(s, o)
    {
      if Owed(s, o) {
        var c :| c in s.cancels && s.cancels[c].no == o && s.cancels[c].debt == OweStock;
        assert c in t.cancels && t.cancels[c] == s.cancels[c];
      }
    }
  }

  lemma RepayMarkLinks(s: Sys, caller: nat)
    requires LinksOk(s) && caller in s.cancels && s.cancels[caller].debt == OweMark
    ensures LinksOk(RepayMark(s, caller))
  {
    var t := RepayMark(s, caller);
    forall o
      ensures Owed(t, o) <==> Owed(s, o)
    {
      if Owed(s, o) {
        var c :| c in s.cancels && s.cancels[c].no == o && s.cancels[c].debt == OweStock;
        assert c in t.cancels && t.cancels[c] == s.cancels[c];
      }
    }
  }

  lemma RepayCacheKeeps(s: Sys, caller: nat, onSale: map<Id, Offer>)
    requires Inv(s, onSale)
    ensures Inv(DoRepayCache(s, caller), onSale)
  {
    if caller in s.cancels {
      if s.cancels[caller].debt == OweStock {
        RepayStockBooks(s, caller, onSale);
        RepayStockLinks(s, caller);
        assert DoRepayCache(s, caller) == RepayStock(s, caller);
      } else {
        RepayMarkBooks(s, caller, onSale);
        RepayMarkLinks(s, caller);
        assert DoRepayCache(s, caller) == RepayMark(s, caller);
      }
    }
  }

  lemma PayView(s: Sys, no: OrderNo)
    requires no in s.db.orders && s.db.orders[no].status == Pending
    ensures View(DoPay(s, no)) == View(s)
  {
    var t := DoPay(s, no);
    assert t.db.orders == WithStatus(s.db.orders, no, Paid);
    Adversarial.SameRequests(s.db.orders, no, Paid);
    HoldsAre(s);
    HoldsAre(t);
    assert Holds(t) == Holds(s) by {
      forall k
        ensures k in Holds(t) <==> k in Holds(s)
        ensures k in Holds(t) ==> Holds(t)[k] == Holds(s)[k]
      {
        match k
        case ByRequest(q) => assert Unresolved(t, q) <==> Unresolved(s, q);
        case ByOrder(_) =>
        case ByCancel(_) =>
      }
    }
  }

  lemma PayLinks(s: Sys, no: OrderNo)
    requires LinksOk(s) && no in s.db.orders && s.db.orders[no].status == Pending
    ensures LinksOk(DoPay(s, no))
  {
    var t := DoPay(s, no);
    StatusLinks(s, t, no, Paid);
    assert CancelsOk(t);
    forall o
      ensures Owed(t, o) <==> Owed(s, o)
    {
    }
  }

  lemma PayOrderKeeps(s: Sys, no: OrderNo, onSale: map<Id, Offer>)
    requires Inv(s, onSale)
    ensures Inv(DoPay(s, no), onSale)
  {
    if no in s.db.orders && s.db.orders[no].status == Pending {
      PayView(s, no);
      PayLinks(s, no);
      PayKeeps(s.db, onSale, no);
      assert DoPay(s, no).db == s.db.(orders := WithStatus(s.db.orders, no, Paid));
      hide View, BooksInv, DbInv, ThreadsOk, TopicOk, RecordsOk, CancelsOk, HistoryOk, DoPay, WithStatus;
    }
  }

  lemma SetAsideLinks(s: Sys, t: Sys)
    requires LinksOk(s) && t == s.(db := s.db.(coupons := t.db.coupons, addresses := t.db.addresses))
    ensures LinksOk(t)
  {
    LinksExcept(s, t, "");
  }

  lemma GrantView(s: Sys, id: Id, row: CouponRow)
    requires id !in s.db.coupons
    ensures View(DoGrant(s, id, row)) == View(s).(coupons := s.db.coupons[id := row.(status := Unused)])
  {
    SameHold(s, DoGrant(s, id, row), "");
  }

  lemma GrantKeeps(s: Sys, id: Id, row: CouponRow, onSale: map<Id, Offer>)
    requires Inv(s, onSale)
    ensures Inv(DoGrant(s, id, row), onSale)
  {
    if id !in s.db.coupons {
      GrantView(s, id, row);
      NewCouponKeeps(View(s), onSale, id, row.(status := Unused));
      SetAsideLinks(s, DoGrant(s, id, row));
      DbAside(s.db, DoGrant(s, id, row).db, onSale);
    }
  }

  lemma AddressesKeep(s: Sys, addresses: set<Id>, onSale: map<Id, Offer>)
    requires Inv(s, onSale)
    ensures Inv(s.(db := s.db.(addresses := addresses)), onSale)
  {
    var t := s.(db := s.db.(addresses := addresses));
    SameHold(s, t, "");
    SetAsideLinks(s, t);
    DbAside(s.db, t.db, onSale);
  }

  // ---- the whole machine ----

  lemma StepKeeps(s: Sys, step: Step, onSale: map<Id, Offer>)
    requires Inv(s, onSale)
    ensures Inv(Do(s, step), onSale)
  {
    hide Inv;
    match step
    case Begin(req) => BeginKeeps(s, req, onSale);
    case Reject(r) => RejectKeeps(s, r, onSale);
    case ApplyCoupon(r, product, now) => ApplyCouponKeeps(s, r, product, now, onSale);
    case RunScript(r) => RunScriptKeeps(s, r, onSale);
    case ReturnCoupon(r) => ReturnCouponKeeps(s, r, onSale);
    case Record(r, now) => RecordKeeps(s, r, now, onSale);
    case Send(r, delivered) => SendKeeps(s, r, delivered, onSale);
    case MarkBuyer(key) => MarkBuyerKeeps(s, key, onSale);
    case Consume(r, now, abort) => ConsumeKeeps(s, r, now, abort, onSale);
    case Settle(r) => SettleKeeps(s, r, onSale);
    case Compensate(r) => CompensateKeeps(s, r, onSale);
    case Undo(r) => UndoKeeps(s, r, onSale);
    case CancelOrder(caller, no) => CancelOrderKeeps(s, caller, no, onSale);
    case RepayCache(caller) => RepayCacheKeeps(s, caller, onSale);
    case Pay(no) => PayOrderKeeps(s, no, onSale);
    case GrantCoupon(id, row) => GrantKeeps(s, id, row, onSale);
    case ChangeAddresses(addresses) => AddressesKeep(s, addresses, onSale);
  }

  lemma {:induction false} RunKeeps(s: Sys, steps: seq<Step>, onSale: map<Id, Offer>)
    requires Inv(s, onSale)
    ensures Inv(Exec(s, steps), onSale)
    decreases |steps|
  {
    if steps != [] {
      StepKeeps(s, steps[0], onSale);
      RunKeeps(Do(s, steps[0]), steps[1..], onSale);
    }
  }

  lemma RunsKeep(s: Sys, t: Sys, onSale: map<Id, Offer>)
    requires Runs(s, t) && Inv(s, onSale)
    ensures Inv(t, onSale)
  {
    hide Do, Inv;
    var steps :| t == Exec(s, steps);
    RunKeeps(s, steps, onSale);
  }

  lemma OpeningBooks(s: Sys, onSale: map<Id, Offer>)
    requires Opening(s, onSale)
    ensures BooksInv(View(s), onSale)
  {
    NoHolders(s);
    OpeningStock(s, onSale);
    EmptyBooks(View(s), onSale);
  }

  lemma OpeningStock(s: Sys, onSale: map<Id, Offer>)
    requires Opening(s, onSale)
    ensures forall key :: key in s.redis.stock <==> OnOffer(onSale, key)
    ensures forall key :: OnOffer(onSale, key) ==> key in s.redis.stock && s.redis.stock[key] == onSale[key.sku].units
  {
    forall key
      ensures key in s.redis.stock <==> OnOffer(onSale, key)
    {
      if OnOffer(onSale, key) {
        assert key == StockKey(onSale[key.sku].activity, key.sku);
      }
    }
  }

  lemma NoHolders(s: Sys)
    requires s.threads == map[] && s.redis.pending == map[] && s.db.orders == map[] && s.cancels == map[]
    ensures Holds(s) == map[]
  {
    HoldsAre(s);
    forall k
      ensures !IsHolder(s, k)
    {
    }
  }

  lemma OpeningInv(s: Sys, onSale: map<Id, Offer>)
    requires Opening(s, onSale)
    ensures Inv(s, onSale)
  {
    OpeningBooks(s, onSale);
    Adversarial.OpeningInv(Adversarial.DbRun(s.db, multiset{}, multiset{}), onSale);
    assert LinksOk(s);
  }
}
