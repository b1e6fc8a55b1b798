/** Cancelling an order, by its buyer or because it was not paid in time (internal/biz/order_cancel.go). */
module OrderCancel {
  import opened Wrappers
  import opened Entities
  import opened RedisRepo
  import opened MysqlRepo
  import opened Protocol
  import opened ProtocolInv
  import opened Seckill
  import opened DelayQueue
  import opened Maps

  /** A cancellation carried through to the end: one transaction, then Redis gets the units and the buyer's place
      back. */
  ghost function CancelledEverywhere(s: Sys, no: OrderNo): Sys
    requires no in s.db.orders && s.db.orders[no].claim.sku in s.db.skus
  {
    var c := s.db.orders[no].claim;
    s.(db := Cancelled(s.db, no),
    redis := Unmark(Rollback(s.redis, StockKeyOf(c), c.quantity), MarkKeyOf(c)),
    restocked := s.restocked + multiset{no},
    cacheRestocked := s.cacheRestocked + multiset{no})
  }

  /** The transaction's outcome; it may also abort for a reason of its own. */
  function CancelOutcome(db: Mysql, no: OrderNo, abort: Option<GoError>): Result<(Mysql, Order), GoError> {
    match abort
    case Some(e) => Failure(e)
    case None => CancelTx(db, no)
  }

  class OrderCancelService {
    const d: Deployment

    constructor (d: Deployment)
      ensures this.d == d
    {
      this.d := d;
    }

    /** CancelTimeoutOrder. A Pending order is cancelled with all that it took given back in both stores; an order in
        any other status is left alone without an error; a failed transaction leaves everything as it was. */
    method CancelTimeoutOrder(ghost caller: nat, no: OrderNo, abort: Option<GoError>,
                              ghost onSale: map<Id, Offer>)
      returns (err: Option<GoError>)
      requires Inv(d.State(), onSale) && caller !in d.cancels
      modifies d`cancels, d`restocked, d`cacheRestocked, d.cache, d.repo
      ensures Inv(d.State(), onSale) && Runs(old(d.State()), d.State())
      ensures match CancelOutcome(old(d.repo.Value()), no, abort)
              case Failure(e) => err == Some(e) && d.State() == old(d.State())
              case Success((_, order)) =>
                && err == None
                && no in old(d.repo.orders) && old(d.repo.orders)[no] == order && order.claim.sku in old(d.repo.skus)
                && d.State() == if order.status == Pending then CancelledEverywhere(old(d.State()), no)
                                else old(d.State())
    {
      hide Inv, Runs;
      ghost var s := d.State();
      RunsNowhere(s);
      if abort.Some? {
        return Some(abort.value);
      }
      if no in d.repo.orders {
        OrderIsOnSale(s, onSale, no);
      }
      var read := d.repo.CancelOrder(no);
      if read.Failure? {
        return Some(read.error);
      }
      var order := read.value;
      if order.status != Pending {
        return None;
      }
      d.cancels := d.cancels[caller := CancelTask(no, order, OweStock)];
      d.restocked := d.restocked + multiset{no};
      RunsStep(s, s, Step.CancelOrder(caller, no));
      assert d.State() == DoCancel(s, caller, no);
      RepayCache(order, caller, s);
      PutDel(s.cancels, caller, CancelTask(no, order, OweStock));
      DelAbsent(s.cancels, caller);
      RunsKeep(s, d.State(), onSale);
      return None;
    }

    /** The Redis part, from the order as the transaction read it. */
    method RepayCache(order: Order, ghost caller: nat, ghost start: Sys)
      requires caller in d.cancels && d.cancels[caller].debt == OweStock && d.cancels[caller].order == order
      requires Runs(start, d.State())
      modifies d`cancels, d`cacheRestocked, d.cache
      ensures Runs(start, d.State())
      ensures var s := old(d.State());
              var c := order.claim;
              d.State() == s.(redis := Unmark(Rollback(s.redis, StockKeyOf(c), c.quantity), MarkKeyOf(c)),
              cancels := s.cancels - {caller}, cacheRestocked := s.cacheRestocked + multiset{s.cancels[caller].no})
    {
      hide Runs;
      var c := order.claim;
      ghost var s := d.State();
      ghost var task := s.cancels[caller];
      d.cache.RollbackStock(StockKeyOf(c), c.quantity);
      d.cancels := d.cancels[caller := task.(debt := OweMark)];
      d.cacheRestocked := d.cacheRestocked + multiset{task.no};
      RunsStep(start, s, Step.RepayCache(caller));
      assert d.State() == DoRepayCache(s, caller);
      ghost var t := d.State();
      d.cache.RemoveUserBuy(MarkKeyOf(c));
      d.cancels := d.cancels - {caller};
      RunsStep(start, t, Step.RepayCache(caller));
      assert d.State() == DoRepayCache(t, caller);
      PutDel(s.cancels, caller, task.(debt := OweMark));
    }

    /** CancelOrder: only the buyer may ask; the owner is read before the transaction. */
    method CancelOrder(ghost caller: nat, no: OrderNo, user: Id, abort: Option<GoError>,
                       ghost onSale: map<Id, Offer>)
      returns (err: Option<GoError>)
      requires Inv(d.State(), onSale) && caller !in d.cancels
      modifies d`cancels, d`restocked, d`cacheRestocked, d.cache, d.repo
      ensures Inv(d.State(), onSale) && Runs(old(d.State()), d.State())
      ensures d.State() == old(d.State()) ||
              (no in old(d.repo.orders) && old(d.repo.orders)[no].claim.user == user
               && old(d.repo.orders)[no].status == Pending
               && old(d.repo.orders)[no].claim.sku in old(d.repo.skus)
               && err == None && d.State() == CancelledEverywhere(old(d.State()), no))
      ensures no !in old(d.repo.orders) ==> err == Some(Biz(OrderNotFound))
      ensures no in old(d.repo.orders) && old(d.repo.orders)[no].claim.user != user ==> err == Some(Biz(UserNotMatch))
      ensures no in old(d.repo.orders) && old(d.repo.orders)[no].claim.user == user ==> err == abort
      ensures no in old(d.repo.orders) && err == None && abort == None
              ==> no in d.repo.orders && d.repo.orders[no].status != Pending
    {
      hide Inv, Runs;
      RunsNowhere(d.State());
      if no !in d.repo.orders {
        return Some(Biz(OrderNotFound));
      }
      if d.repo.orders[no].claim.user != user {
        return Some(Biz(UserNotMatch));
      }
      OrderIsOnSale(d.State(), onSale, no);
      err := CancelTimeoutOrder(caller, no, abort, onSale);
    }
  }

  /** A worker of the delay queue (handleTimeout and the goroutine around it in internal/job/delay_queue.go). */
  class TimeoutWorker {
    const canceler: OrderCancelService
    const queue: DelayQueue

    constructor (canceler: OrderCancelService, queue: DelayQueue)
      ensures this.canceler == canceler && this.queue == queue
    {
      this.canceler, this.queue := canceler, queue;
    }

    /** The claimed order leaves the processing set exactly when the worker met no error, and then it is no longer
        Pending; with an error (its lock is busy, it does not exist, the transaction aborts) nothing has changed. */
    method HandleTimeout(ghost caller: nat, no: OrderNo, lockBusy: bool, abort: Option<GoError>,
                         ghost onSale: map<Id, Offer>)
      returns (err: Option<GoError>)
      requires Inv(canceler.d.State(), onSale) && caller !in canceler.d.cancels
      modifies canceler.d`cancels, canceler.d`restocked, canceler.d`cacheRestocked, canceler.d.cache, canceler.d.repo,
               queue`processing
      ensures Inv(canceler.d.State(), onSale) && Runs(old(canceler.d.State()), canceler.d.State())
      ensures err == None <==> !lockBusy && abort == None && no in old(canceler.d.repo.orders)
      ensures if err == None
              then queue.processing == old(queue.processing) - {no} && no in canceler.d.repo.orders
                   && canceler.d.repo.orders[no].status != Pending
              else queue.processing == old(queue.processing) && canceler.d.State() == old(canceler.d.State())
    {
      hide Inv, Runs;
      RunsNowhere(canceler.d.State());
      if lockBusy {
        return Some(Infra("order cancel lock busy", false));
      }
      if no in canceler.d.repo.orders {
        OrderIsOnSale(canceler.d.State(), onSale, no);
      }
      err := canceler.CancelTimeoutOrder(caller, no, abort, onSale);
      if err == None {
        queue.Acknowledge(no);
      }
    }
  }

  /** The SKU of every order exists, so a cancellation never fails on restoring its stock. */
  lemma OrderIsOnSale(s: Sys, onSale: map<Id, Offer>, no: OrderNo)
    requires Inv(s, onSale) && no in s.db.orders
    ensures s.db.orders[no].claim.sku in s.db.skus
  {
  }
}
