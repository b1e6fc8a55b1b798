/** Paying for an order (PaySeckillOrder and HandlePayCallback in internal/biz/seckill.go). Payment records live in a
    database of their own: their writes are not part of the core transaction, and last even when it fails. */
module Payment {
  import opened Wrappers
  import opened Entities
  import opened MysqlRepo

  type PayNo = nat   // platform numbers: the letter P before a snowflake number

  datatype PayStatus = Created | Succeeded | Failed | SucceededButCanceled

  datatype PayRow = PayRow(number: PayNo, user: Id, amount: nat, status: PayStatus, payTime: Option<int>)

  /** The payment table: its unique key on the order number makes it a map. */
  type PayTable = map<OrderNo, PayRow>

  datatype CallbackRequest = CallbackRequest(orderNo: OrderNo, number: PayNo, amount: nat, succeeded: bool,
                                             payTime: int)

  datatype PayAnswer = PayAnswer(number: PayNo, amount: nat)

  datatype CallbackAnswer = DuplicateIgnored | FailureRecorded | AlreadyPaid | RecordedForRefund | PaymentSuccess

  /** Another success notice for the record is ignored, and so is a failure notice. */
  predicate Final(status: PayStatus) {
    status == Succeeded || status == SucceededButCanceled
  }

  ghost predicate NumberTaken(pays: PayTable, number: PayNo) {
    exists o :: o in pays && pays[o].number == number
  }

  // ---- specification ----

  /** What PaySeckillOrder's transaction does, `drawn` being the number drawn for a new record. */
  ghost function Charged(orders: map<OrderNo, Order>, pays: PayTable, no: OrderNo, user: Id, drawn: PayNo, now: int)
    : (PayTable, Result<PayAnswer, GoError>)
  {
    if no !in orders then (pays, Failure(Biz(OrderNotFound)))
    else if orders[no].claim.user != user then (pays, Failure(Biz(UserNotMatch)))
    else if orders[no].status != Pending then (pays, Failure(Biz(OrderStatusIncorrect)))
    else if now - orders[no].createTime > ORDER_TIMEOUT then (pays, Failure(Biz(OrderTimeout)))
    else
      var amount := orders[no].money.finalAmount;
      if no in pays then (pays, Success(PayAnswer(pays[no].number, amount)))
      else if NumberTaken(pays, drawn) then (pays, Failure(Biz(PayInfoNotFound)))
      else (pays[no := PayRow(drawn, user, amount, Created, None)], Success(PayAnswer(drawn, amount)))
  }

  /** Each reason for refusing a payment, and each answer given. */
  lemma ChargeAnswers(orders: map<OrderNo, Order>, pays: PayTable, no: OrderNo, user: Id, drawn: PayNo, now: int)
    ensures var res := Charged(orders, pays, no, user, drawn, now).1;
            && (res == Failure(Biz(OrderNotFound)) <==> no !in orders)
            && (res == Failure(Biz(UserNotMatch)) <==> no in orders && orders[no].claim.user != user)
            && (res == Failure(Biz(OrderStatusIncorrect)) <==>
                no in orders && orders[no].claim.user == user && orders[no].status != Pending)
            && (res == Failure(Biz(OrderTimeout)) <==>
                no in orders && orders[no].claim.user == user && orders[no].status == Pending
                && now > orders[no].createTime + 900)
            && (res.Success? ==> no in orders && res.value.amount == orders[no].money.finalAmount
                                 && res.value.number == if no in pays then pays[no].number else drawn)
  {
  }

  /** The callback's first half, before it locks the order: None means go on. */
  ghost function ReadVerdict(pays: PayTable, req: CallbackRequest): Result<Option<CallbackAnswer>, GoError> {
    if !NumberTaken(pays, req.number) then Failure(Biz(PayInfoNotFound))
    else if req.orderNo !in pays
            || pays[req.orderNo].number != req.number then Failure(Infra("payment order mismatch", false))
    else if pays[req.orderNo].amount != req.amount then Failure(Biz(PayAmountMismatch))
    else if Final(pays[req.orderNo].status) then Success(Some(DuplicateIgnored))
    else Success(None)
  }

  /** The callback's second half: what to note in the payment record, by the order's status under lock. */
  function LockedVerdict(status: Status, succeeded: bool): (PayStatus, CallbackAnswer) {
    if !succeeded then (Failed, FailureRecorded)
    else
      match status
      case Paid => (Succeeded, AlreadyPaid)
      case Cancel => (SucceededButCanceled, RecordedForRefund)
      case Pending => (Succeeded, PaymentSuccess)
  }

  function Noted(pays: PayTable, req: CallbackRequest, status: PayStatus): PayTable {
    if req.orderNo in pays
    then pays[req.orderNo := pays[req.orderNo].(status := status, payTime := Some(req.payTime))] else pays
  }

  /** A whole callback that nothing interrupts. The payment write may fail, and one that changes no column affects
      no row, which is reported as a missing record; the commit of the core transaction may fail after the payment
      write. */
  ghost function Handled(db: Mysql, pays: PayTable, req: CallbackRequest, writeOk: bool, commitOk: bool)
    : (Mysql, PayTable, Result<CallbackAnswer, GoError>)
  {
    match ReadVerdict(pays, req)
    case Failure(e) => (db, pays, Failure(e))
    case Success(Some(answer)) => (db, pays, Success(answer))
    case Success(None) =>
      if req.orderNo !in db.orders then (db, pays, Failure(Biz(OrderNotFound)))
      else
        var (status, answer) := LockedVerdict(db.orders[req.orderNo].status, req.succeeded);
        var noted := Noted(pays, req, status);
        if !writeOk then (db, pays, Failure(Infra("update failed", false)))
        else if noted == pays then (db, pays, Failure(Biz(PayInfoNotFound)))
        else if answer != PaymentSuccess then (db, noted, Success(answer))
        else if !commitOk then (db, noted, Failure(Infra("commit failed", false)))
        else (StatusChanged(db, req.orderNo, Pending, Paid).value, noted, Success(answer))
  }

  /** Every callback, answer by answer: what it leaves in the record, and whether the order is paid. Stock, coupons
      and all other orders and records are never touched. */
  lemma CallbackAnswers(db: Mysql, pays: PayTable, req: CallbackRequest)
    ensures var (after, rows, res) := Handled(db, pays, req, true, true);
            var no := req.orderNo;
            var known := exists o :: o in pays && pays[o].number == req.number;
            var meant := no in pays && pays[no].number == req.number;
            && (!known ==> res == Failure(Biz(PayInfoNotFound)) && rows == pays && after == db)
            && (known && !meant ==> res.Failure? && rows == pays && after == db)
            && (meant && pays[no].amount != req.amount
                ==> res == Failure(Biz(PayAmountMismatch)) && rows == pays && after == db)
            && (meant && pays[no].amount == req.amount ==> Answered(db, pays, req, after, rows, res))
  {
    if req.orderNo in pays && pays[req.orderNo].number == req.number {
      var row := pays[req.orderNo].(status := Failed, payTime := Some(req.payTime));
      assert (pays[req.orderNo := row] == pays) <==> row == pays[req.orderNo] by {
        assert pays[req.orderNo := row][req.orderNo] == row;
      }
    }
  }

  /** The answers to a notice that names its record and amount right. */
  ghost predicate Answered(db: Mysql, pays: PayTable, req: CallbackRequest, after: Mysql, rows: PayTable,
                           res: Result<CallbackAnswer, GoError>)
    requires req.orderNo in pays
  {
    var no, row := req.orderNo, pays[req.orderNo];
    if row.status == Succeeded || row.status == SucceededButCanceled then
      res == Success(DuplicateIgnored) && rows == pays && after == db
    else if no !in db.orders then res == Failure(Biz(OrderNotFound)) && rows == pays && after == db
    else
      var status := db.orders[no].status;
      var noted := if !req.succeeded then Failed else if status == Cancel then SucceededButCanceled else Succeeded;
      && rows == pays[no := PayRow(row.number, row.user, row.amount, noted, Some(req.payTime))]
      && (rows == pays ==> res == Failure(Biz(PayInfoNotFound)))
      && (rows != pays ==>
            res == Success(if !req.succeeded then FailureRecorded
                           else if status == Pending then PaymentSuccess
                           else if status == Cancel then RecordedForRefund else AlreadyPaid))
      && after.orders == (if rows != pays && req.succeeded && status == Pending
                          then db.orders[no := db.orders[no].(status := Paid)] else db.orders)
      && after == db.(orders := after.orders)
  }

  // ---- the payment repository and the two operations ----

  class PayStore {
    var rows: PayTable

    constructor ()
      ensures rows == map[]
    {
      rows := map[];
    }

    /** Whether some record carries the number; the scan stands for the index lookup. */
    method FindNumber(number: PayNo) returns (found: bool)
      ensures found == NumberTaken(rows, number)
    {
      var unseen := rows.Keys;
      while unseen != {}
        invariant unseen <= rows.Keys
        invariant forall o :: o in rows && o !in unseen ==> rows[o].number != number
        decreases unseen
      {
        var o :| o in unseen;
        if rows[o].number == number {
          return true;
        }
        unseen := unseen - {o};
      }
      found := false;
    }

    /** INSERT guarded by the unique keys on order number and platform number. */
    method CreatePayInfo(no: OrderNo, row: PayRow) returns (inserted: bool)
      modifies this
      ensures inserted == (no !in old(rows) && !NumberTaken(old(rows), row.number))
      ensures rows == if inserted then old(rows)[no := row] else old(rows)
    {
      var taken := FindNumber(row.number);
      inserted := no !in rows && !taken;
      if inserted {
        rows := rows[no := row];
      }
    }

    /** UPDATE by platform number, here by the order it belongs to. MySQL counts a row as affected only if a column
        changes. */
    method UpdatePayInfoStatus(no: OrderNo, status: PayStatus, payTime: int, ok: bool) returns (err: Option<GoError>)
      requires no in rows
      modifies this
      ensures var noted := old(rows)[no := old(rows)[no].(status := status, payTime := Some(payTime))];
              && rows == (if ok then noted else old(rows))
              && err == if !ok then Some(Infra("update failed", false))
                        else if noted == old(rows) then Some(Biz(PayInfoNotFound)) else None
    {
      if !ok {
        return Some(Infra("update failed", false));
      }
      var row := rows[no].(status := status, payTime := Some(payTime));
      if row == rows[no] {
        assert rows[no := row] == rows;
        return Some(Biz(PayInfoNotFound));
      }
      assert rows[no := row][no] == row;
      rows := rows[no := row];
      return None;
    }
  }

  class Cashier {
    const repo: MysqlStore
    const pays: PayStore

    constructor (repo: MysqlStore, pays: PayStore)
      ensures this.repo == repo && this.pays == pays
    {
      this.repo, this.pays := repo, pays;
    }

    /** The core transaction may fail to commit after the record is in; the record stays. */
    method PaySeckillOrder(no: OrderNo, user: Id, drawn: PayNo, now: int, commitOk: bool)
      returns (res: Result<PayAnswer, GoError>)
      modifies pays
      ensures var (rows, answer) := Charged(repo.orders, old(pays.rows), no, user, drawn, now);
              && pays.rows == rows
              && res == if answer.Success? && !commitOk then Failure(Infra("commit failed", false)) else answer
    {
      if no !in repo.orders {
        return Failure(Biz(OrderNotFound));
      }
      var order := repo.orders[no];
      if order.claim.user != user {
        return Failure(Biz(UserNotMatch));
      }
      if order.status != Pending {
        return Failure(Biz(OrderStatusIncorrect));
      }
      if now - order.createTime > ORDER_TIMEOUT {
        return Failure(Biz(OrderTimeout));
      }
      var inserted := pays.CreatePayInfo(no, PayRow(drawn, user, order.money.finalAmount, Created, None));
      if !inserted && no !in pays.rows {
        return Failure(Biz(PayInfoNotFound));
      }
      if !commitOk {
        return Failure(Infra("commit failed", false));
      }
      return Success(PayAnswer(pays.rows[no].number, order.money.finalAmount));
    }

    method HandlePayCallback(req: CallbackRequest, writeOk: bool, commitOk: bool)
      returns (res: Result<CallbackAnswer, GoError>)
      modifies repo, pays
      ensures (repo.Value(), pays.rows, res) == Handled(old(repo.Value()), old(pays.rows), req, writeOk, commitOk)
    {
      var begin := repo.Value();
      var found := pays.FindNumber(req.number);
      if !found {
        return Failure(Biz(PayInfoNotFound));
      }
      if req.orderNo !in pays.rows || pays.rows[req.orderNo].number != req.number {
        return Failure(Infra("payment order mismatch", false));
      }
      var payInfo := pays.rows[req.orderNo];
      if payInfo.amount != req.amount {
        return Failure(Biz(PayAmountMismatch));
      }
      if payInfo.status == Succeeded || payInfo.status == SucceededButCanceled {
        return Success(DuplicateIgnored);
      }
      if req.orderNo !in repo.orders {
        return Failure(Biz(OrderNotFound));
      }
      var order := repo.orders[req.orderNo];
      var err: Option<GoError>;
      if !req.succeeded {
        err := pays.UpdatePayInfoStatus(req.orderNo, Failed, req.payTime, writeOk);
        return if err.Some? then Failure(err.value) else Success(FailureRecorded);
      }
      match order.status {
        case Paid =>
          err := pays.UpdatePayInfoStatus(req.orderNo, Succeeded, req.payTime, writeOk);
          return if err.Some? then Failure(err.value) else Success(AlreadyPaid);
        case Cancel =>
          err := pays.UpdatePayInfoStatus(req.orderNo, SucceededButCanceled, req.payTime, writeOk);
          return if err.Some? then Failure(err.value) else Success(RecordedForRefund);
        case Pending =>
          var updated := repo.UpdateOrderStatus(req.orderNo, Pending, Paid);
          err := pays.UpdatePayInfoStatus(req.orderNo, Succeeded, req.payTime, writeOk);
          if err.Some? {
            repo.Abort(begin);
            return Failure(err.value);
          }
          if !commitOk {
            repo.Abort(begin);
            return Failure(Infra("commit failed", false));
          }
          return Success(PaymentSuccess);
      }
    }
  }
}
