/** Conservation of MySQL stock: what is available plus what Pending and Paid orders hold is what was put on sale. */
module StockLedger {
  import opened Entities
  import opened MapSum
  import opened MysqlRepo
  import opened Wrappers

  predicate Active(o: Order) { o.status != Cancel }

  /** Per order, the units of the SKU it holds. */
  function OrderedUnits(orders: map<OrderNo, Order>, sku: Id): map<OrderNo, int> {
    map o | o in orders :: if Active(orders[o]) && orders[o].claim.sku == sku then orders[o].claim.quantity else 0
  }

  ghost function Ordered(orders: map<OrderNo, Order>, sku: Id): int {
    Sum(OrderedUnits(orders, sku))
  }

  ghost predicate Balanced(db: Mysql, onSale: map<Id, Offer>) {
    && db.skus.Keys == onSale.Keys
    && forall sku :: sku in onSale ==>
                       && db.skus[sku].activity == onSale[sku].activity
                       && db.skus[sku].available + Ordered(db.orders, sku) == onSale[sku].units
  }

  ghost predicate UniqueKeys(orders: map<OrderNo, Order>) {
    forall a, b {:trigger Clash(orders[a], orders[b])} :: a in orders && b in orders && a != b
                                                          ==> !Clash(orders[a], orders[b])
  }

  ghost predicate RowsOk(db: Mysql) {
    && db.shipping == db.orders.Keys
    && forall o :: o in db.orders
                   ==> db.orders[o].claim.sku in db.skus && 0 <= db.orders[o].claim.quantity < TWO_TO_THE_32
  }

  /** The invariant of the core tables, whatever Redis, Kafka and the callers do. */
  ghost predicate DbInv(db: Mysql, onSale: map<Id, Offer>) {
    Balanced(db, onSale) && UniqueKeys(db.orders) && RowsOk(db)
  }

  lemma OrderedNonNegative(orders: map<OrderNo, Order>, sku: Id)
    requires forall o :: o in orders ==> orders[o].claim.quantity >= 0
    ensures Ordered(orders, sku) >= 0
  {
    SumNonNegative(OrderedUnits(orders, sku));
  }

  lemma OrderedPut(orders: map<OrderNo, Order>, no: OrderNo, row: Order, sku: Id)
    ensures Ordered(orders[no := row], sku) == Ordered(orders, sku)
                                               - (if no in orders then OrderedUnits(orders, sku)[no] else 0)
                                               + (if Active(row) && row.claim.sku == sku then row.claim.quantity else 0)
  {
    var units := if Active(row) && row.claim.sku == sku then row.claim.quantity else 0;
    SumPut(OrderedUnits(orders, sku), no, units);
    assert OrderedUnits(orders[no := row], sku) == OrderedUnits(orders, sku)[no := units];
  }

  /** Never more units in live orders than were put on sale, and a restock never exceeds it either. */
  lemma NoOversell(db: Mysql, onSale: map<Id, Offer>, sku: Id)
    requires DbInv(db, onSale) && sku in onSale
    ensures 0 <= Ordered(db.orders, sku) <= onSale[sku].units
    ensures db.skus[sku].available <= onSale[sku].units
  {
    OrderedNonNegative(db.orders, sku);
  }

  lemma InsertKeeps(orders: map<OrderNo, Order>, no: OrderNo, row: Order)
    requires UniqueKeys(orders) && !Duplicate(orders, no, row)
    ensures UniqueKeys(orders[no := row])
  {
    var after := orders[no := row];
    forall a, b | a in after && b in after && a != b
      ensures !Clash(after[a], after[b])
    {
      if a == no {
        assert !Clash(orders[b], row);
      } else if b == no {
        assert !Clash(orders[a], row);
      } else {
        assert !Clash(orders[a], orders[b]);
      }
    }
  }

  lemma ConfirmKeeps(db: Mysql, onSale: map<Id, Offer>, m: Message, now: int)
    requires DbInv(db, onSale)
    ensures ConfirmTx(db, m, now).Success? ==> DbInv(ConfirmTx(db, m, now).value, onSale)
  {
    match ConfirmTx(db, m, now)
    case Failure(_) =>
    case Success(after) =>
      var row := OrderRow(m, now);
      forall sku | sku in onSale
        ensures after.skus[sku].available + Ordered(after.orders, sku) == onSale[sku].units
      {
        OrderedPut(db.orders, m.orderNo, row, sku);
      }
      InsertKeeps(db.orders, m.orderNo, row);
  }

  /** The row of an order under another status. */
  function WithStatus(orders: map<OrderNo, Order>, no: OrderNo, status: Status): map<OrderNo, Order>
    requires no in orders
  {
    orders[no := orders[no].(status := status)]
  }

  /** A status change keeps the unique keys and moves exactly that order's units. */
  lemma WithStatusKeeps(orders: map<OrderNo, Order>, no: OrderNo, status: Status)
    requires no in orders && UniqueKeys(orders)
    ensures UniqueKeys(WithStatus(orders, no, status))
  {
    var after := WithStatus(orders, no, status);
    forall a, b | a in after && b in after && a != b
      ensures !Clash(after[a], after[b])
    {
      assert !Clash(orders[a], orders[b]);
    }
  }

  /** The units of a SKU that an order gives up on changing its status. */
  function GivenUp(order: Order, status: Status, sku: Id): int {
    if order.claim.sku == sku && status == Cancel then order.claim.quantity else 0
  }

  lemma OrderedWithStatus(orders: map<OrderNo, Order>, no: OrderNo, status: Status)
    requires no in orders && Active(orders[no])
    ensures forall sku :: Ordered(WithStatus(orders, no, status), sku) ==
                          Ordered(orders, sku) - GivenUp(orders[no], status, sku)
  {
    forall sku
      ensures Ordered(WithStatus(orders, no, status), sku) ==
              Ordered(orders, sku) - GivenUp(orders[no], status, sku)
    {
      OrderedPut(orders, no, orders[no].(status := status), sku);
    }
  }

  /** Stock comes back by what the live orders give up. */
  lemma CancelledBalances(db: Mysql, onSale: map<Id, Offer>, no: OrderNo)
    requires Balanced(db, onSale) && RowsOk(db) && no in db.orders && db.orders[no].status == Pending
    ensures Balanced(Cancelled(db, no), onSale)
  {
    assert Cancelled(db, no).orders == WithStatus(db.orders, no, Cancel);
    assert ToUint32(db.orders[no].claim.quantity) == db.orders[no].claim.quantity;
    OrderedWithStatus(db.orders, no, Cancel);
    hide WithStatus;
  }

  lemma CancelledKeeps(db: Mysql, onSale: map<Id, Offer>, no: OrderNo)
    requires DbInv(db, onSale) && no in db.orders && db.orders[no].status == Pending
    ensures DbInv(Cancelled(db, no), onSale)
  {
    assert Cancelled(db, no).orders == WithStatus(db.orders, no, Cancel);
    CancelledBalances(db, onSale, no);
    hide Balanced;
    WithStatusKeeps(db.orders, no, Cancel);
    hide UniqueKeys;
  }

  lemma CancelKeeps(db: Mysql, onSale: map<Id, Offer>, no: OrderNo)
    requires DbInv(db, onSale)
    ensures CancelTx(db, no).Success? ==> DbInv(CancelTx(db, no).value.0, onSale)
  {
    if no in db.orders && db.orders[no].status == Pending {
      CancelledKeeps(db, onSale, no);
    }
  }

  lemma PayKeeps(db: Mysql, onSale: map<Id, Offer>, no: OrderNo)
    requires DbInv(db, onSale) && no in db.orders && db.orders[no].status == Pending
    ensures DbInv(db.(orders := WithStatus(db.orders, no, Paid)), onSale)
  {
    WithStatusKeeps(db.orders, no, Paid);
    OrderedWithStatus(db.orders, no, Paid);
  }
}
