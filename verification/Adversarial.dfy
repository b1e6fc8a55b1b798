/** Runs in which only MySQL is trusted. Redis may hold anything and Kafka may lose, duplicate, replay
    or invent messages, so the core tables see arbitrary sequences of the program's transactions. */
module Adversarial {
  import opened Entities
  import opened MysqlRepo
  import opened StockLedger
  import opened Wrappers

  datatype DbStep =
    | Confirm(m: Message, now: int)
    | CancelOrder(no: OrderNo)
    | Pay(no: OrderNo)
    | UseCoupon(id: Id, at: int)
    | RestoreCoupon(id: Id)
    | GrantCoupon(id: Id, row: CouponRow)
    | ChangeAddresses(addresses: set<Id>)

  /** The tables, with two histories: restocks committed per order, and deductions committed per request. */
  datatype DbRun = DbRun(db: Mysql, restocked: multiset<OrderNo>, deducted: multiset<RequestId>)

  ghost function Do(s: DbRun, step: DbStep): DbRun {
    match step
    case Confirm(m, now) => (
      match ConfirmTx(s.db, m, now)
      case Success(db) => s.(db := db, deducted := s.deducted + multiset{m.requestId})
      case Failure(_) => s)
    case CancelOrder(no) => (
      match CancelTx(s.db, no)
      case Success((db, order)) =>
        s.(db := db, restocked := if order.status == Pending then s.restocked + multiset{no} else s.restocked)
      case Failure(_) => s)
    case Pay(no) => (
      match StatusChanged(s.db, no, Pending, Paid)
      case Some(db) => s.(db := db)
      case None => s)
    case UseCoupon(id, at) => if Usable(s.db.coupons, id, at)
    then s.(db := s.db.(coupons := CouponUsedUp(s.db.coupons, id))) else s
    case RestoreCoupon(id) => s.(db := s.db.(coupons := CouponRestored(s.db.coupons, id)))
    case GrantCoupon(id, row) => if id in s.db.coupons then s else s.(db := s.db.(coupons := s.db.coupons[id := row]))
    case ChangeAddresses(addresses) => s.(db := s.db.(addresses := addresses))
  }

  ghost function Exec(s: DbRun, steps: seq<DbStep>): DbRun
    decreases |steps|
  {
    if steps == [] then s else Exec(Do(s, steps[0]), steps[1..])
  }

  /** Before the sale: full shelves, no orders. */
  ghost predicate Opening(s: DbRun, onSale: map<Id, Offer>) {
    && s.db.skus.Keys == onSale.Keys
    && (forall sku :: sku in onSale ==>
                        && s.db.skus[sku].activity == onSale[sku].activity
                        && s.db.skus[sku].available == onSale[sku].units)
    && s.db.orders == map[] && s.db.shipping == {}
    && s.restocked == multiset{} && s.deducted == multiset{}
  }

  ghost function CancelCount(orders: map<OrderNo, Order>, no: OrderNo): nat {
    if no in orders && orders[no].status == Cancel then 1 else 0
  }

  ghost function RequestCount(orders: map<OrderNo, Order>, id: RequestId): nat {
    if HasRequest(orders, id) then 1 else 0
  }

  ghost predicate HistoryOk(s: DbRun) {
    && (forall no :: s.restocked[no] == CancelCount(s.db.orders, no))
    && (forall id :: s.deducted[id] == RequestCount(s.db.orders, id))
  }

  ghost predicate Inv(s: DbRun, onSale: map<Id, Offer>) {
    DbInv(s.db, onSale) && HistoryOk(s)
  }

  /** What an order may become: rows are never deleted, keep their identity, and leave Pending at most once. */
  ghost predicate Evolves(before: map<OrderNo, Order>, after: map<OrderNo, Order>) {
    forall no :: no in before ==>
                   && no in after
                   && after[no] == before[no].(status := after[no].status)
                   && (before[no].status != Pending ==> after[no] == before[no])
  }

  lemma OpeningInv(s: DbRun, onSale: map<Id, Offer>)
    requires Opening(s, onSale)
    ensures Inv(s, onSale)
  {
    forall sku | sku in onSale
      ensures Ordered(s.db.orders, sku) == 0
    {
      assert OrderedUnits(s.db.orders, sku) == map[];
    }
  }

  lemma InsertedRequests(orders: map<OrderNo, Order>, no: OrderNo, row: Order)
    requires !Duplicate(orders, no, row)
    ensures !HasRequest(orders, row.requestId)
    ensures forall id :: HasRequest(orders[no := row], id) <==> HasRequest(orders, id) || id == row.requestId
  {
    var after := orders[no := row];
    if HasRequest(orders, row.requestId) {
      var o :| o in orders && orders[o].requestId == row.requestId;
      assert Clash(orders[o], row);
    }
    assert after[no].requestId == row.requestId;
    forall id | HasRequest(orders, id)
      ensures HasRequest(after, id)
    {
      var o :| o in orders && orders[o].requestId == id;
      assert after[o].requestId == id;
    }
  }

  /** Changing one order's status changes no request id. */
  lemma SameRequests(orders: map<OrderNo, Order>, no: OrderNo, status: Status)
    requires no in orders
    ensures forall id :: HasRequest(WithStatus(orders, no, status), id) <==> HasRequest(orders, id)
  {
    var after := WithStatus(orders, no, status);
    forall id
      ensures HasRequest(after, id) <==> HasRequest(orders, id)
    {
      if HasRequest(orders, id) {
        var o :| o in orders && orders[o].requestId == id;
        assert after[o].requestId == id;
      }
      if HasRequest(after, id) {
        var o :| o in after && after[o].requestId == id;
        assert orders[o].requestId == id;
      }
    }
  }

  lemma ConfirmStep(s: DbRun, m: Message, now: int, onSale: map<Id, Offer>)
    requires Inv(s, onSale)
    ensures Inv(Do(s, Confirm(m, now)), onSale)
    ensures Evolves(s.db.orders, Do(s, Confirm(m, now)).db.orders)
  {
    hide UniqueKeys, Ordered;
    if ConfirmTx(s.db, m, now).Success? {
      ConfirmKeeps(s.db, onSale, m, now);
      InsertedRequests(s.db.orders, m.orderNo, OrderRow(m, now));
    }
  }

  /** A Pending order turned Cancel, and its restock noted. */
  lemma CancelNoted(s: DbRun, no: OrderNo, t: DbRun)
    requires HistoryOk(s) && no in s.db.orders && s.db.orders[no].status == Pending
    requires t.db.orders == WithStatus(s.db.orders, no, Cancel)
    requires t.restocked == s.restocked + multiset{no} && t.deducted == s.deducted
    ensures HistoryOk(t) && Evolves(s.db.orders, t.db.orders)
  {
    hide HasRequest;
    SameRequests(s.db.orders, no, Cancel);
  }

  lemma CancelStep(s: DbRun, no: OrderNo, onSale: map<Id, Offer>)
    requires Inv(s, onSale)
    ensures Inv(Do(s, CancelOrder(no)), onSale)
    ensures Evolves(s.db.orders, Do(s, CancelOrder(no)).db.orders)
  {
    hide Balanced, UniqueKeys, HasRequest, HistoryOk;
    CancelKeeps(s.db, onSale, no);
    if no in s.db.orders && s.db.orders[no].status == Pending {
      var t := Do(s, CancelOrder(no));
      assert t.db.orders == WithStatus(s.db.orders, no, Cancel);
      CancelNoted(s, no, t);
    }
  }

  lemma PayStep(s: DbRun, no: OrderNo, onSale: map<Id, Offer>)
    requires Inv(s, onSale)
    ensures Inv(Do(s, Pay(no)), onSale)
    ensures Evolves(s.db.orders, Do(s, Pay(no)).db.orders)
  {
    if no in s.db.orders && s.db.orders[no].status == Pending {
      PayKeeps(s.db, onSale, no);
      SameRequests(s.db.orders, no, Paid);
      assert Do(s, Pay(no)) == s.(db := s.db.(orders := WithStatus(s.db.orders, no, Paid)));
    }
  }

  lemma OtherStep(s: DbRun, step: DbStep, onSale: map<Id, Offer>)
    requires Inv(s, onSale)
    requires step.UseCoupon? || step.RestoreCoupon? || step.GrantCoupon? || step.ChangeAddresses?
    ensures Inv(Do(s, step), onSale)
    ensures Evolves(s.db.orders, Do(s, step).db.orders)
  {
    hide UniqueKeys, HasRequest, Ordered;
    var t := Do(s, step);
    assert t.db.orders == s.db.orders && t.db.skus == s.db.skus && t.db.shipping == s.db.shipping;
  }

  lemma StepKeepsInv(s: DbRun, step: DbStep, onSale: map<Id, Offer>)
    requires Inv(s, onSale)
    ensures Inv(Do(s, step), onSale)
    ensures Evolves(s.db.orders, Do(s, step).db.orders)
  {
    match step
    case Confirm(m, now) => ConfirmStep(s, m, now, onSale);
    case CancelOrder(no) => CancelStep(s, no, onSale);
    case Pay(no) => PayStep(s, no, onSale);
    case _ => OtherStep(s, step, onSale);
  }

  lemma EvolvesTransitive(a: map<OrderNo, Order>, b: map<OrderNo, Order>, c: map<OrderNo, Order>)
    requires Evolves(a, b) && Evolves(b, c)
    ensures Evolves(a, c)
  {
  }

  lemma {:induction false} RunKeepsInv(s: DbRun, steps: seq<DbStep>, onSale: map<Id, Offer>)
    requires Inv(s, onSale)
    ensures Inv(Exec(s, steps), onSale)
    ensures Evolves(s.db.orders, Exec(s, steps).db.orders)
    decreases |steps|
  {
    if steps != [] {
      StepKeepsInv(s, steps[0], onSale);
      RunKeepsInv(Do(s, steps[0]), steps[1..], onSale);
      EvolvesTransitive(s.db.orders, Do(s, steps[0]).db.orders, Exec(s, steps).db.orders);
    }
  }

  /** No oversell, whatever Redis and Kafka do: in every reachable state stock is conserved per SKU, so live
      orders never exceed what was put on sale and restocking never lifts available stock above it. */
  lemma NeverOversold(s: DbRun, steps: seq<DbStep>, onSale: map<Id, Offer>, sku: Id)
    requires Opening(s, onSale) && sku in onSale
    ensures var db := Exec(s, steps).db;
            && sku in db.skus
            && db.skus[sku].available + Ordered(db.orders, sku) == onSale[sku].units
            && 0 <= Ordered(db.orders, sku) <= onSale[sku].units
  {
    OpeningInv(s, onSale);
    RunKeepsInv(s, steps, onSale);
    NoOversell(Exec(s, steps).db, onSale, sku);
  }

  /** However often a message is delivered, replayed or forged again, its request deducts at most once:
      exactly once if an order row carries the request id, never otherwise. */
  lemma DeductedOncePerRequest(s: DbRun, steps: seq<DbStep>, onSale: map<Id, Offer>, id: RequestId)
    requires Opening(s, onSale)
    ensures Exec(s, steps).deducted[id] == RequestCount(Exec(s, steps).db.orders, id)
  {
    OpeningInv(s, onSale);
    RunKeepsInv(s, steps, onSale);
  }

  /** Any number of cancellations, interleaved with payments: an order's stock goes back exactly once if the
      order is Cancel, and never otherwise. */
  lemma RestockedOnceIffCancelled(s: DbRun, steps: seq<DbStep>, onSale: map<Id, Offer>, no: OrderNo)
    requires Opening(s, onSale)
    ensures var end := Exec(s, steps);
            end.restocked[no] == CancelCount(end.db.orders, no)
  {
    OpeningInv(s, onSale);
    RunKeepsInv(s, steps, onSale);
  }

  /** Once a user has had an order in an activity, even a cancelled one, no later message gives that user
      another: the unique key answers "order exists" and the database stays as it is. */
  lemma OneOrderPerUserAndActivityForever(s: DbRun, steps: seq<DbStep>, onSale: map<Id, Offer>, no: OrderNo,
                                          m: Message, now: int)
    requires Inv(s, onSale) && no in s.db.orders
    requires s.db.orders[no].claim.user == m.claim.user && s.db.orders[no].claim.activity == m.claim.activity
    ensures var end := Exec(s, steps);
            && ConfirmTx(end.db, m, now)
               == Failure(if m.address in end.db.addresses then Biz(OrderExists) else Biz(AddressNotFound))
            && Do(end, Confirm(m, now)) == end
  {
    RunKeepsInv(s, steps, onSale);
    var orders := Exec(s, steps).db.orders;
    assert orders[no].claim == s.db.orders[no].claim;
    assert Clash(orders[no], OrderRow(m, now));
  }
}
