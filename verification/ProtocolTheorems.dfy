/** What the protocol promises in every state that any interleaving can reach. */
module ProtocolTheorems {
  import opened Wrappers
  import opened Entities
  import opened MapSum
  import opened MysqlRepo
  import opened StockLedger
  import opened Books
  import opened Protocol
  import opened ProtocolInv

  ghost predicate Reachable(s: Sys, onSale: map<Id, Offer>) {
    exists opening, steps :: Opening(opening, onSale) && s == Exec(opening, steps)
  }

  lemma ReachableInv(s: Sys, onSale: map<Id, Offer>)
    requires Reachable(s, onSale)
    ensures Inv(s, onSale)
  {
    var opening, steps :| Opening(opening, onSale) && s == Exec(opening, steps);
    OpeningInv(opening, onSale);
    RunKeeps(opening, steps, onSale);
  }

  lemma ReachableRuns(s: Sys, t: Sys, onSale: map<Id, Offer>)
    requires Reachable(s, onSale) && Runs(s, t)
    ensures Reachable(t, onSale)
  {
    hide Do, Opening;
    var opening, before :| Opening(opening, onSale) && s == Exec(opening, before);
    var after :| t == Exec(s, after);
    ExecConcat(opening, before, after);
  }

  // ---- stock ----

  /** Units held by anything but a live order: reservations not yet confirmed or being given back, and
      cancelled orders whose units Redis has not got back yet. */
  ghost function OffOrderHolds(s: Sys): map<Holder, Hold> {
    RestPart(Holds(s))
  }

  ghost function OrderPart(holds: map<Holder, Hold>): map<Holder, Hold> {
    map k | k in holds && k.ByOrder? :: holds[k]
  }

  ghost function RestPart(holds: map<Holder, Hold>): map<Holder, Hold> {
    map k | k in holds && !k.ByOrder? :: holds[k]
  }

  lemma HeldParts(holds: map<Holder, Hold>, sku: Id)
    ensures Held(holds, sku) == Held(OrderPart(holds), sku) + Held(RestPart(holds), sku)
  {
    var a, b := Units(OrderPart(holds), sku), Units(RestPart(holds), sku);
    SumUnion(a, b);
    assert Units(holds, sku) == a + b;
  }

  ghost function OffOrder(s: Sys, sku: Id): int {
    Held(OffOrderHolds(s), sku)
  }

  lemma OrderHolder(s: Sys, no: OrderNo)
    ensures ByOrder(no) in Holds(s) <==> no in s.db.orders && Active(s.db.orders[no])
    ensures ByOrder(no) in Holds(s) ==> Holds(s)[ByOrder(no)] == Full(s.db.orders[no].claim)
  {
    HoldsAre(s);
  }

  lemma RequestHolder(s: Sys, r: RequestId)
    requires Unresolved(s, r) && r !in s.threads
    ensures ByRequest(r) in Holds(s) && Holds(s)[ByRequest(r)] == Full(s.redis.pending[r].claim)
  {
    HoldsAre(s);
  }

  lemma RekeyedOrders(orders: map<OrderNo, Order>, holds: map<Holder, Hold>, sku: Id)
    requires forall k :: k in holds ==> k.ByOrder?
    requires forall no :: ByOrder(no) in holds <==> no in orders && Active(orders[no])
    requires forall no :: ByOrder(no) in holds ==> holds[ByOrder(no)] == Full(orders[no].claim)
    ensures Held(holds, sku) == Ordered(orders, sku)
  {
    var all := OrderedUnits(orders, sku);
    var gone := set no | no in orders && !Active(orders[no]);
    SumDropZeros(all, gone);
    var live, held := all - gone, Units(holds, sku);
    assert held.Keys == set no | no in live :: ByOrder(no) by {
      forall k | k in holds
        ensures k.no in live
      {
        assert k == ByOrder(k.no);
      }
    }
    SumRekey(live, held, no => ByOrder(no));
  }

  lemma HeldSplits(s: Sys, sku: Id)
    ensures Held(Holds(s), sku) == Ordered(s.db.orders, sku) + OffOrder(s, sku)
  {
    var orders := OrderPart(Holds(s));
    forall no {
      OrderHolder(s, no);
    }
    RekeyedOrders(s.db.orders, orders, sku);
    HeldParts(Holds(s), sku);
  }

  /** The cross-store ledger, at every point of every interleaving: Redis stock is never negative, and with the
      units of live orders and the units held off order it makes up what was put on sale. */
  lemma CrossStoreLedger(s: Sys, onSale: map<Id, Offer>, key: StockKey)
    requires Reachable(s, onSale) && OnOffer(onSale, key)
    ensures key in s.redis.stock && s.redis.stock[key] >= 0
    ensures s.redis.stock[key] + OffOrder(s, key.sku) + Ordered(s.db.orders, key.sku) == onSale[key.sku].units
  {
    ReachableInv(s, onSale);
    HeldSplits(s, key.sku);
  }

  /** MySQL stock is ahead of Redis stock by exactly the units held off order, so never behind it. */
  lemma CacheLagsByReservations(s: Sys, onSale: map<Id, Offer>, key: StockKey)
    requires Reachable(s, onSale) && OnOffer(onSale, key)
    ensures key in s.redis.stock && key.sku in s.db.skus
    ensures s.db.skus[key.sku].available == s.redis.stock[key] + OffOrder(s, key.sku)
    ensures OffOrder(s, key.sku) >= 0
  {
    ReachableInv(s, onSale);
    HeldSplits(s, key.sku);
    OffOrderCovers(s, onSale, key.sku);
  }

  lemma OffOrderCovers(s: Sys, onSale: map<Id, Offer>, sku: Id)
    requires BooksInv(View(s), onSale)
    ensures OffOrder(s, sku) >= 0
    ensures forall k :: k in OffOrderHolds(s) ==> OffOrder(s, sku) >= Units(OffOrderHolds(s), sku)[k]
  {
    HeldAtLeast(OffOrderHolds(s), onSale, sku);
  }

  /** No code is between two store calls of a reservation, its return, or a cancellation. */
  predicate Quiet(s: Sys) {
    s.threads == map[] && s.cancels == map[]
  }

  /** Per pending record, the units it reserves: none once its request has an order row. */
  ghost function UnitsOnRecord(s: Sys, sku: Id): map<RequestId, int> {
    map r | r in s.redis.pending ::
      if Unresolved(s, r) && s.redis.pending[r].claim.sku == sku then s.redis.pending[r].claim.quantity else 0
  }

  ghost function OnRecord(s: Sys, sku: Id): int {
    Sum(UnitsOnRecord(s, sku))
  }

  lemma RekeyedReservations(s: Sys, holds: map<Holder, Hold>, sku: Id)
    requires forall k :: k in holds ==> k.ByRequest?
    requires forall r :: ByRequest(r) in holds <==> Unresolved(s, r)
    requires forall r :: Unresolved(s, r) ==> holds[ByRequest(r)] == Full(s.redis.pending[r].claim)
    ensures Held(holds, sku) == OnRecord(s, sku)
  {
    var all := UnitsOnRecord(s, sku);
    var settled := set r | r in s.redis.pending && !Unresolved(s, r);
    SumDropZeros(all, settled);
    var open, held := all - settled, Units(holds, sku);
    assert held.Keys == set r | r in open :: ByRequest(r) by {
      forall k | k in holds
        ensures k.id in open
      {
        assert k == ByRequest(k.id);
      }
    }
    SumRekey(open, held, r => ByRequest(r));
  }

  lemma QuietOffOrder(s: Sys, sku: Id)
    requires Quiet(s)
    ensures OffOrder(s, sku) == OnRecord(s, sku)
  {
    HoldsAre(s);
    RekeyedReservations(s, OffOrderHolds(s), sku);
  }

  /** Between operations the ledger reads straight off the stores: Redis stock, pending records without an
      order, and Pending or Paid orders add up to what was put on sale. */
  lemma LedgerBetweenOperations(s: Sys, onSale: map<Id, Offer>, key: StockKey)
    requires Reachable(s, onSale) && Quiet(s) && OnOffer(onSale, key)
    ensures key in s.redis.stock
    ensures s.redis.stock[key] + OnRecord(s, key.sku) + Ordered(s.db.orders, key.sku) == onSale[key.sku].units
  {
    CrossStoreLedger(s, onSale, key);
    QuietOffOrder(s, key.sku);
  }

  /** At rest, with every reservation resolved, the cache shows exactly the database's stock. */
  lemma CacheAgreesAtRest(s: Sys, onSale: map<Id, Offer>, key: StockKey)
    requires Reachable(s, onSale) && Quiet(s) && OnOffer(onSale, key)
    requires forall r :: !Unresolved(s, r)
    ensures key in s.redis.stock && key.sku in s.db.skus
    ensures s.redis.stock[key] == s.db.skus[key.sku].available
  {
    CacheLagsByReservations(s, onSale, key);
    QuietOffOrder(s, key.sku);
    SumDropZeros(UnitsOnRecord(s, key.sku), s.redis.pending.Keys);
    assert UnitsOnRecord(s, key.sku) - s.redis.pending.Keys == map[];
  }

  // ---- admission ----

  ghost predicate HasUserActivity(orders: map<OrderNo, Order>, c: Claim) {
    exists no :: no in orders && orders[no].claim.user == c.user && orders[no].claim.activity == c.activity
  }

  lemma StockCovers(s: Sys, onSale: map<Id, Offer>, r: RequestId)
    requires Inv(s, onSale) && r in s.topic
    ensures var c := s.topic[r].m.claim;
            && c.sku in s.db.skus && s.db.skus[c.sku].available >= ToUint32(c.quantity)
  {
    ReservedQuantity(s, r, onSale);
    var c := s.topic[r].m.claim;
    HeldSplits(s, c.sku);
    OffOrderCovers(s, onSale, c.sku);
    assert Units(OffOrderHolds(s), c.sku)[ByRequest(r)] == c.quantity;
  }

  /** The unique keys can only be hit through the (user, activity) one: request and order numbers are fresh. */
  lemma DuplicateIffBoughtBefore(s: Sys, r: RequestId, now: int)
    requires TopicOk(s) && RecordsOk(s) && r in s.topic
    ensures var m := s.topic[r].m;
            Duplicate(s.db.orders, m.orderNo, OrderRow(m, now)) <==> HasUserActivity(s.db.orders, m.claim)
  {
    var m := s.topic[r].m;
    var row := OrderRow(m, now);
    if HasUserActivity(s.db.orders, m.claim) {
      var no :| no in s.db.orders && s.db.orders[no].claim.user == m.claim.user
                && s.db.orders[no].claim.activity == m.claim.activity;
      assert Clash(s.db.orders[no], row);
    }
    if Clashes(s.db.orders, row) {
      var no :| no in s.db.orders && Clash(s.db.orders[no], row);
      assert s.db.orders[no].requestId != r;
    }
  }

  /** Redis admission implies database admission: whenever the consumer takes up a message of a fault-free run, stock
      suffices. The transaction commits exactly when the address still exists and the user has no order row in the
      activity yet, not even a cancelled one. */
  lemma AdmittedMessagesFindStock(s: Sys, onSale: map<Id, Offer>, r: RequestId, now: int)
    requires Reachable(s, onSale) && r in s.topic
    ensures s.topic[r].m.claim.sku in s.db.skus
    ensures s.db.skus[s.topic[r].m.claim.sku].available >= ToUint32(s.topic[r].m.claim.quantity)
    ensures var m := s.topic[r].m;
            ConfirmTx(s.db, m, now) ==
            if m.address !in s.db.addresses then Failure(Biz(AddressNotFound))
            else if HasUserActivity(s.db.orders, m.claim) then Failure(Biz(OrderExists))
            else Success(Confirmed(s.db, m, now))
  {
    NothingElseFails(s, onSale, r, now);
  }

  lemma NothingElseFails(s: Sys, onSale: map<Id, Offer>, r: RequestId, now: int)
    requires Reachable(s, onSale) && r in s.topic
    ensures var m := s.topic[r].m;
            && m.claim.sku in s.db.skus && s.db.skus[m.claim.sku].available >= ToUint32(m.claim.quantity)
            && m.orderNo !in s.db.shipping
            && (Duplicate(s.db.orders, m.orderNo, OrderRow(m, now)) <==> HasUserActivity(s.db.orders, m.claim))
  {
    ReachableInv(s, onSale);
    StockCovers(s, onSale, r);
    DuplicateIffBoughtBefore(s, r, now);
    NumberUnused(s, r, onSale);
  }

  lemma NumberUnused(s: Sys, r: RequestId, onSale: map<Id, Offer>)
    requires Inv(s, onSale) && r in s.topic
    ensures s.topic[r].m.orderNo !in s.db.shipping
  {
    assert !HasRequest(s.db.orders, r);
  }

  // ---- coupons and buy places ----

  /** Holder k has coupon id. */
  ghost predicate HasCoupon(s: Sys, k: Holder, id: Id) {
    k in Holds(s) && HoldsCoupon(Holds(s)[k]) && Holds(s)[k].claim.coupon == id
  }

  /** A user coupon is Used exactly when somebody holds it, and whoever holds it is the only one. */
  lemma CouponHasOneHolder(s: Sys, onSale: map<Id, Offer>, id: Id)
    requires Reachable(s, onSale) && id in s.db.coupons
    ensures s.db.coupons[id].status == Used <==> exists k :: HasCoupon(s, k, id)
    ensures forall j, k :: HasCoupon(s, j, id) && HasCoupon(s, k, id) ==> j == k
  {
    ReachableInv(s, onSale);
    CouponHolders(s, Holds(s), id);
  }

  lemma CouponHolders(s: Sys, holds: map<Holder, Hold>, id: Id)
    requires holds == Holds(s) && CouponsOk(holds, s.db.coupons) && id in s.db.coupons
    ensures s.db.coupons[id].status == Used <==> exists k :: HasCoupon(s, k, id)
    ensures forall j, k :: HasCoupon(s, j, id) && HasCoupon(s, k, id) ==> j == k
  {
    if HasHolder(holds, id) {
      var k :| k in holds && HoldsCoupon(holds[k]) && holds[k].claim.coupon == id;
      assert HasCoupon(s, k, id);
    }
  }

  /** In terms of the stores: a live order's coupon is Used, no other live order has it, and no waiting reservation
      does. */
  lemma LiveOrderOwnsItsCoupon(s: Sys, onSale: map<Id, Offer>, no: OrderNo)
    requires Reachable(s, onSale) && no in s.db.orders && Active(s.db.orders[no]) && s.db.orders[no].claim.coupon > 0
    ensures var id := s.db.orders[no].claim.coupon;
            && id in s.db.coupons && s.db.coupons[id].status == Used
            && (forall o :: o in s.db.orders && Active(s.db.orders[o]) && s.db.orders[o].claim.coupon == id ==> o == no)
            && (forall r :: Unresolved(s, r) && r !in s.threads ==> s.redis.pending[r].claim.coupon != id)
  {
    ReachableInv(s, onSale);
    OrderCouponIsItsOwn(s, no);
  }

  lemma OrderCouponIsItsOwn(s: Sys, no: OrderNo)
    requires CouponsOk(Holds(s), s.db.coupons)
    requires no in s.db.orders && Active(s.db.orders[no]) && s.db.orders[no].claim.coupon > 0
    ensures var id := s.db.orders[no].claim.coupon;
            && id in s.db.coupons && s.db.coupons[id].status == Used
            && (forall o :: o in s.db.orders && Active(s.db.orders[o]) && s.db.orders[o].claim.coupon == id ==> o == no)
            && (forall r :: Unresolved(s, r) && r !in s.threads ==> s.redis.pending[r].claim.coupon != id)
  {
    OrderCoupon(s, no);
    var id := s.db.orders[no].claim.coupon;
    forall o | o in s.db.orders && Active(s.db.orders[o]) && s.db.orders[o].claim.coupon == id
      ensures o == no
    {
      OrderHolder(s, o);
    }
    forall r | Unresolved(s, r) && r !in s.threads
      ensures s.redis.pending[r].claim.coupon != id
    {
      RequestHolder(s, r);
    }
  }

  lemma OrderCoupon(s: Sys, no: OrderNo)
    requires CouponsOk(Holds(s), s.db.coupons)
    requires no in s.db.orders && Active(s.db.orders[no]) && s.db.orders[no].claim.coupon > 0
    ensures var id := s.db.orders[no].claim.coupon;
            && id in s.db.coupons && s.db.coupons[id].status == Used
            && HasCoupon(s, ByOrder(no), id)
            && (forall k :: k in Holds(s) && k != ByOrder(no) && HoldsCoupon(Holds(s)[k])
                            ==> Holds(s)[k].claim.coupon != id)
  {
    OrderHolder(s, no);
    var holds := Holds(s);
    assert HoldsCoupon(holds[ByOrder(no)]);
  }

  /** Every reservation and every live order has its (activity, SKU, user) mark in Redis, and no two share one. */
  lemma OnePlacePerUser(s: Sys, onSale: map<Id, Offer>, j: Holder, k: Holder)
    requires Reachable(s, onSale)
    requires j in Holds(s) && Holds(s)[j].mark
    ensures MarkKeyOf(Holds(s)[j].claim) in s.redis.marks
    ensures k in Holds(s) && Holds(s)[k].mark && MarkKeyOf(Holds(s)[k].claim) == MarkKeyOf(Holds(s)[j].claim) ==> j == k
  {
    ReachableInv(s, onSale);
  }

  /** In terms of the stores: the marks of live orders and of waiting reservations are set, and all different. */
  lemma LiveOrdersAreMarked(s: Sys, onSale: map<Id, Offer>, no: OrderNo)
    requires Reachable(s, onSale) && no in s.db.orders && Active(s.db.orders[no])
    ensures MarkKeyOf(s.db.orders[no].claim) in s.redis.marks
    ensures forall r :: Unresolved(s, r) && r !in s.threads ==>
                          && MarkKeyOf(s.redis.pending[r].claim) in s.redis.marks
                          && MarkKeyOf(s.redis.pending[r].claim) != MarkKeyOf(s.db.orders[no].claim)
  {
    ReachableInv(s, onSale);
    OrderHolder(s, no);
    OnePlacePerUser(s, onSale, ByOrder(no), ByOrder(no));
    forall r | Unresolved(s, r) && r !in s.threads
      ensures MarkKeyOf(s.redis.pending[r].claim) in s.redis.marks
      ensures MarkKeyOf(s.redis.pending[r].claim) != MarkKeyOf(s.db.orders[no].claim)
    {
      RequestHolder(s, r);
      OnePlacePerUser(s, onSale, ByRequest(r), ByOrder(no));
    }
  }

  // ---- cancellation ----

  /** Any number of callers may cancel an order: MySQL stock goes back once if the order ends Cancel and never
      otherwise, and Redis stock goes back at most once, exactly once as soon as nobody owes it any more. */
  lemma CancelTakesEffectOnce(s: Sys, onSale: map<Id, Offer>, no: OrderNo)
    requires Reachable(s, onSale)
    ensures s.restocked[no] == if no in s.db.orders && s.db.orders[no].status == Cancel then 1 else 0
    ensures s.cacheRestocked[no] <= s.restocked[no]
    ensures s.cacheRestocked[no] == s.restocked[no] <==> !Owed(s, no)
    ensures forall c, d :: c in s.cancels && d in s.cancels && s.cancels[c].no == s.cancels[d].no ==> c == d
  {
    ReachableInv(s, onSale);
  }
}
