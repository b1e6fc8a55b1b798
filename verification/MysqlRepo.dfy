/** The MySQL side of the sale (internal/data/repo/mysql_repo.go): SKU rows, orders, shipping rows and
    user coupons, with the unique keys of scripts/seckill.sql, and the transactions the program runs on them. */
module MysqlRepo {
  import opened Wrappers
  import opened Entities
  import Pricing

  datatype SkuRow = SkuRow(activity: Id, available: nat, version: nat)

  /** Addresses are the ids that exist and are not deleted (user database). */
  datatype Mysql = Mysql(
    skus: map<Id, SkuRow>,
    orders: map<OrderNo, Order>,
    shipping: set<OrderNo>,
    coupons: map<Id, CouponRow>,
    addresses: set<Id>)

  // ---- lookups ----

  ghost predicate HasRequest(orders: map<OrderNo, Order>, id: RequestId) {
    exists o :: o in orders && orders[o].requestId == id
  }

  /** Two rows clash on uk_request_id or on uk_user_activity_product; despite its name the latter covers
      (user_id, activity_id), whatever the status of the orders. */
  predicate Clash(a: Order, b: Order) {
    a.requestId == b.requestId || (a.claim.user == b.claim.user && a.claim.activity == b.claim.activity)
  }

  ghost predicate Clashes(orders: map<OrderNo, Order>, row: Order) {
    exists o {:trigger Clash(orders[o], row)} :: o in orders && Clash(orders[o], row)
  }

  /** CheckUserBuyRecord: only Pending and Paid orders count. */
  predicate HasBought(orders: map<OrderNo, Order>, user: Id, activity: Id) {
    exists o | o in orders :: orders[o].claim.user == user && orders[o].claim.activity == activity
                              && orders[o].status != Cancel
  }

  ghost predicate Duplicate(orders: map<OrderNo, Order>, no: OrderNo, row: Order) {
    no in orders || Clashes(orders, row)
  }

  // ---- specification of the statements ----

  /** Conditional UPDATE: None is "no row affected". The version is bumped but never compared. */
  function Decreased(db: Mysql, sku: Id, quantity: nat): Option<Mysql> {
    if sku in db.skus && db.skus[sku].available >= quantity then
      Some(db.(skus := db.skus[sku :=
           db.skus[sku].(available := db.skus[sku].available - quantity, version := db.skus[sku].version + 1)]))
    else None
  }

  function Increased(db: Mysql, sku: Id, quantity: nat): Option<Mysql> {
    if sku in db.skus then
      Some(db.(skus := db.skus[sku :=
           db.skus[sku].(available := db.skus[sku].available + quantity, version := db.skus[sku].version + 1)]))
    else None
  }

  function StatusChanged(db: Mysql, no: OrderNo, from: Status, to: Status): Option<Mysql> {
    if no in db.orders && db.orders[no].status == from then
      Some(db.(orders := db.orders[no := db.orders[no].(status := to)]))
    else None
  }

  predicate Usable(coupons: map<Id, CouponRow>, id: Id, now: int) {
    id in coupons && coupons[id].status == Unused && coupons[id].expireTime >= now
  }

  function CouponUsedUp(coupons: map<Id, CouponRow>, id: Id): map<Id, CouponRow>
    requires id in coupons
  {
    coupons[id := coupons[id].(status := Used)]
  }

  /** RestoreUserCoupon: affects the row only when it is Used, and is silent otherwise. Id 0 means no coupon. */
  function CouponRestored(coupons: map<Id, CouponRow>, id: Id): map<Id, CouponRow> {
    if id > 0 && id in coupons && coupons[id].status == Used then coupons[id := coupons[id].(status := Unused)]
    else coupons
  }

  // ---- specification of the transactions ----

  /** The row CreateOrder writes: the quantity column is an unsigned 32-bit integer. */
  function OrderRow(m: Message, now: int): Order {
    Order(m.requestId, m.claim.(quantity := ToUint32(m.claim.quantity)), m.price, Pricing.Stored(m), Pending, now)
  }

  /** Effect of a committed ConfirmSeckillOrder transaction. */
  function Confirmed(db: Mysql, m: Message, now: int): Mysql
    requires m.claim.sku in db.skus && db.skus[m.claim.sku].available >= ToUint32(m.claim.quantity)
  {
    Decreased(db, m.claim.sku, ToUint32(m.claim.quantity)).value
    .(orders := db.orders[m.orderNo := OrderRow(m, now)], shipping := db.shipping + {m.orderNo})
  }

  /** The transaction of ConfirmSeckillOrder; a failure leaves the database unchanged. */
  ghost function ConfirmTx(db: Mysql, m: Message, now: int): Result<Mysql, GoError> {
    if m.address !in db.addresses then Failure(Biz(AddressNotFound))
    else if Duplicate(db.orders, m.orderNo, OrderRow(m, now)) then Failure(Biz(OrderExists))
    else if m.orderNo in db.shipping then Failure(Infra("Duplicate entry", false))
    else if m.claim.sku !in db.skus || db.skus[m.claim.sku].available < ToUint32(m.claim.quantity) then
      Failure(Biz(InsufficientStock))
    else Success(Confirmed(db, m, now))
  }

  /** A committed confirmation, table by table: one Pending row under the message's number, made now, for its claim
      with the quantity as the column holds it; the shipping row; and that many units less of the SKU. */
  lemma ConfirmationIs(db: Mysql, m: Message, now: int)
    requires ConfirmTx(db, m, now).Success?
    ensures var after, q, sku := ConfirmTx(db, m, now).value, m.claim.quantity % TWO_TO_THE_32, m.claim.sku;
            && m.orderNo !in db.orders && m.address in db.addresses && sku in db.skus && q <= db.skus[sku].available
            && after.orders == db.orders[m.orderNo := Order(m.requestId, m.claim.(quantity := q), m.price,
                                                            Pricing.Stored(m), Pending, now)]
            && after.skus == db.skus[sku :=
                             SkuRow(db.skus[sku].activity, db.skus[sku].available - q, db.skus[sku].version + 1)]
            && after.shipping == db.shipping + {m.orderNo}
            && after.coupons == db.coupons && after.addresses == db.addresses
  {
    hide Clashes;
  }

  /** Why a confirmation fails, the first reason first. */
  lemma ConfirmationFails(db: Mysql, m: Message, now: int)
    ensures var res, q := ConfirmTx(db, m, now), m.claim.quantity % TWO_TO_THE_32;
            var taken := m.orderNo in db.orders
                         || exists o :: o in db.orders && (db.orders[o].requestId == m.requestId ||
                                                           (db.orders[o].claim.user == m.claim.user
                                                            && db.orders[o].claim.activity == m.claim.activity));
            && (res == Failure(Biz(AddressNotFound)) <==> m.address !in db.addresses)
            && (res == Failure(Biz(OrderExists)) <==> m.address in db.addresses && taken)
            && (res == Failure(Biz(InsufficientStock)) <==>
                m.address in db.addresses && !taken && m.orderNo !in db.shipping
                && (m.claim.sku !in db.skus || db.skus[m.claim.sku].available < q))
            && (res.Success? <==>
                m.address in db.addresses && !taken && m.orderNo !in db.shipping
                && m.claim.sku in db.skus && db.skus[m.claim.sku].available >= q)
  {
    if exists o :: o in db.orders && (db.orders[o].requestId == m.requestId ||
                                      (db.orders[o].claim.user == m.claim.user
                                       && db.orders[o].claim.activity == m.claim.activity)) {
      var o :| o in db.orders && (db.orders[o].requestId == m.requestId ||
                                  (db.orders[o].claim.user == m.claim.user
                                   && db.orders[o].claim.activity == m.claim.activity));
      assert Clash(db.orders[o], OrderRow(m, now));
    }
  }

  /** Effect of a committed cancellation of a Pending order. */
  function Cancelled(db: Mysql, no: OrderNo): Mysql
    requires no in db.orders && db.orders[no].claim.sku in db.skus
  {
    var order := db.orders[no];
    var restocked := Increased(db, order.claim.sku, ToUint32(order.claim.quantity)).value;
    restocked.(orders := db.orders[no := order.(status := Cancel)],
    coupons := CouponRestored(db.coupons, order.claim.coupon))
  }

  /** The transaction of CancelTimeoutOrder: the database after it and the order as it was read. */
  function CancelTx(db: Mysql, no: OrderNo): Result<(Mysql, Order), GoError> {
    if no !in db.orders then Failure(Biz(OrderNotFound))
    else
      var order := db.orders[no];
      if order.status != Pending then Success((db, order))
      else if order.claim.sku !in db.skus then Failure(Infra("restore stock failed", false))
      else Success((Cancelled(db, no), order))
  }

  /** A cancellation, table by table. */
  lemma CancellationIs(db: Mysql, no: OrderNo)
    ensures var res := CancelTx(db, no);
            && (no !in db.orders ==> res == Failure(Biz(OrderNotFound)))
            && (no in db.orders && db.orders[no].status != Pending ==> res == Success((db, db.orders[no])))
            && (no in db.orders && db.orders[no].status == Pending && db.orders[no].claim.sku in db.skus ==>
                  && res.Success? && res.value.1 == db.orders[no]
                  && var after, order := res.value.0, db.orders[no];
                  && var row, c := db.skus[order.claim.sku], order.claim.coupon;
                  && after.orders == db.orders[no := order.(status := Cancel)]
                  && after.skus == db.skus[order.claim.sku :=
                                   SkuRow(row.activity, row.available + order.claim.quantity % TWO_TO_THE_32,
                                          row.version + 1)]
                  && after.coupons == (if c in db.coupons && c > 0 && db.coupons[c].status == Used
                                       then db.coupons[c := db.coupons[c].(status := Unused)] else db.coupons)
                  && after.shipping == db.shipping && after.addresses == db.addresses)
  {
  }

  // ---- the repository ----

  class MysqlStore {
    var skus: map<Id, SkuRow>
    var orders: map<OrderNo, Order>
    var shipping: set<OrderNo>
    var coupons: map<Id, CouponRow>
    var addresses: set<Id>

    function Value(): Mysql
      reads this
    {
      Mysql(skus, orders, shipping, coupons, addresses)
    }

    constructor (db: Mysql)
      ensures Value() == db
    {
      skus, orders, shipping, coupons, addresses := db.skus, db.orders, db.shipping, db.coupons, db.addresses;
    }

    /** Rolls the core tables back to what they were when the transaction began. */
    method Abort(begin: Mysql)
      modifies this
      ensures Value() == begin
    {
      skus, orders, shipping, coupons, addresses := begin.skus, begin.orders, begin.shipping, begin.coupons,
                                                    begin.addresses;
    }

    method DecreaseStock(sku: Id, quantity: nat) returns (affected: bool)
      modifies this`skus
      ensures affected == Decreased(old(Value()), sku, quantity).Some?
      ensures Value() == if affected then Decreased(old(Value()), sku, quantity).value else old(Value())
    {
      affected := sku in skus && skus[sku].available >= quantity;
      if affected {
        var row := skus[sku];
        skus := skus[sku := row.(available := row.available - quantity, version := row.version + 1)];
      }
    }

    method RestoreStock(sku: Id, quantity: nat) returns (affected: bool)
      modifies this`skus
      ensures affected == Increased(old(Value()), sku, quantity).Some?
      ensures Value() == if affected then Increased(old(Value()), sku, quantity).value else old(Value())
    {
      affected := sku in skus;
      if affected {
        var row := skus[sku];
        skus := skus[sku := row.(available := row.available + quantity, version := row.version + 1)];
      }
    }

    method UpdateOrderStatus(no: OrderNo, from: Status, to: Status) returns (affected: bool)
      modifies this`orders
      ensures affected == StatusChanged(old(Value()), no, from, to).Some?
      ensures Value() == if affected then StatusChanged(old(Value()), no, from, to).value else old(Value())
    {
      affected := no in orders && orders[no].status == from;
      if affected {
        orders := orders[no := orders[no].(status := to)];
      }
    }

    /** INSERT guarded by the three unique keys; the scan stands for the index lookups. */
    method CreateOrder(no: OrderNo, row: Order) returns (inserted: bool)
      modifies this`orders
      ensures inserted == !Duplicate(old(orders), no, row)
      ensures orders == if inserted then old(orders)[no := row] else old(orders)
    {
      if no in orders {
        return false;
      }
      var unseen := orders.Keys;
      while unseen != {}
        invariant unseen <= orders.Keys && orders == old(orders)
        invariant forall o :: o in orders && o !in unseen ==> !Clash(orders[o], row)
        decreases unseen
      {
        var o :| o in unseen;
        if Clash(orders[o], row) {
          return false;
        }
        unseen := unseen - {o};
      }
      orders := orders[no := row];
      inserted := true;
    }

    method CreateOrderShipping(no: OrderNo) returns (inserted: bool)
      modifies this`shipping
      ensures inserted == (no !in old(shipping))
      ensures shipping == old(shipping) + {no}
    {
      inserted := no !in shipping;
      shipping := shipping + {no};
    }

    method UseUserCoupon(id: Id, now: int) returns (affected: bool)
      modifies this`coupons
      ensures affected == (id in old(coupons) && old(coupons)[id].status == Unused
                           && now <= old(coupons)[id].expireTime)
      ensures coupons == if affected then old(coupons)[id := old(coupons)[id].(status := Used)] else old(coupons)
    {
      affected := Usable(coupons, id, now);
      if affected {
        coupons := coupons[id := coupons[id].(status := Used)];
      }
    }

    method RestoreUserCoupon(id: Id)
      modifies this`coupons
      ensures coupons == CouponRestored(old(coupons), id)
      ensures id in old(coupons) && old(coupons)[id].status != Used ==> coupons == old(coupons)
      ensures id in old(coupons) && id > 0 && old(coupons)[id].status == Used ==>
                coupons == old(coupons)[id := old(coupons)[id].(status := Unused)]
    {
      if id > 0 && id in coupons && coupons[id].status == Used {
        coupons := coupons[id := coupons[id].(status := Unused)];
      }
    }

    /** The order row that carries the request id, if any; the scan stands for the index lookup. */
    method GetOrderByRequestID(id: RequestId) returns (found: Option<OrderNo>)
      ensures found.None? <==> !HasRequest(orders, id)
      ensures found.Some? ==> found.value in orders && orders[found.value].requestId == id
    {
      var unseen := orders.Keys;
      while unseen != {}
        invariant unseen <= orders.Keys
        invariant forall o :: o in orders && o !in unseen ==> orders[o].requestId != id
        decreases unseen
      {
        var o :| o in unseen;
        if orders[o].requestId == id {
          return Some(o);
        }
        unseen := unseen - {o};
      }
      found := None;
    }

    /** The body of ConfirmSeckillOrder's transaction, statement by statement; any error rolls all of it back. */
    method ConfirmOrder(m: Message, now: int) returns (err: Option<GoError>)
      modifies this
      ensures match ConfirmTx(old(Value()), m, now)
              case Success(db) => err == None && Value() == db
              case Failure(e) => err == Some(e) && Value() == old(Value())
    {
      var begin := Value();
      if m.address !in addresses {
        return Some(Biz(AddressNotFound));
      }
      var inserted := CreateOrder(m.orderNo, OrderRow(m, now));
      if !inserted {
        Abort(begin);
        return Some(Biz(OrderExists));
      }
      var shipped := CreateOrderShipping(m.orderNo);
      if !shipped {
        Abort(begin);
        return Some(Infra("Duplicate entry", false));
      }
      var decreased := DecreaseStock(m.claim.sku, ToUint32(m.claim.quantity));
      if !decreased {
        Abort(begin);
        return Some(Biz(InsufficientStock));
      }
      return None;
    }

    /** The body of CancelTimeoutOrder's transaction; the order is returned as it was read under the row lock. */
    method CancelOrder(no: OrderNo) returns (read: Result<Order, GoError>)
      modifies this
      ensures match CancelTx(old(Value()), no)
              case Success((db, order)) => read == Success(order) && Value() == db
              case Failure(e) => read == Failure(e) && Value() == old(Value())
    {
      var begin := Value();
      if no !in orders {
        return Failure(Biz(OrderNotFound));
      }
      var order := orders[no];
      if order.status != Pending {
        return Success(order);
      }
      var updated := UpdateOrderStatus(no, Pending, Cancel);
      var restored := RestoreStock(order.claim.sku, ToUint32(order.claim.quantity));
      if !restored {
        Abort(begin);
        return Failure(Infra("restore stock failed", false));
      }
      if order.claim.coupon > 0 {
        RestoreUserCoupon(order.claim.coupon);
      }
      return Success(order);
    }
  }
}
