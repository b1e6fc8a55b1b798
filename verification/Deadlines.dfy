/** The fifteen minutes of an unpaid order: the consumer's timer, the row's age and the refusal of a late payment
    agree. */
module Deadlines {
  import opened Wrappers
  import opened Entities
  import opened MysqlRepo
  import opened Payment
  import opened Consumer
  import Adversarial

  /** However the tables have changed since: while an order is Pending, its buyer is refused for being late at
      exactly those times that are more than nine hundred seconds after its confirmation. */
  lemma PayableForFifteenMinutes(db: Mysql, m: Message, confirmed: int, orders: map<OrderNo, Order>,
                                 pays: PayTable, drawn: PayNo, asked: int)
    requires ConfirmTx(db, m, confirmed).Success?
    requires Adversarial.Evolves(ConfirmTx(db, m, confirmed).value.orders, orders)
    requires m.orderNo in orders && orders[m.orderNo].status == Pending
    ensures var res := Charged(orders, pays, m.orderNo, m.claim.user, drawn, asked).1;
            res == Failure(Biz(OrderTimeout)) <==> asked > confirmed + 900
  {
    ConfirmationIs(db, m, confirmed);
    ChargeAnswers(orders, pays, m.orderNo, m.claim.user, drawn, asked);
  }

  /** A message confirmed and then paid for: the buyer is late exactly if the order's timer has run out. */
  method ConfirmThenPay(consumer: OrderConsumer, cashier: Cashier, m: Message, confirmed: int, drawn: PayNo, asked: int)
    returns (err: Option<GoError>, res: Result<PayAnswer, GoError>)
    requires cashier.repo == consumer.d.repo
    modifies consumer.d.cache`pending, consumer.d.repo, consumer.queue`main, cashier.pays
    ensures err == None ==>
              && m.orderNo in consumer.queue.main && consumer.queue.main[m.orderNo] == confirmed + 900
              && (res == Failure(Biz(OrderTimeout)) <==> asked > consumer.queue.main[m.orderNo])
  {
    res := Failure(Biz(OrderNotFound));
    err := consumer.ConfirmSeckillOrder(m, confirmed, None, true);
    if err == None {
      ChargeAnswers(cashier.repo.orders, cashier.pays.rows, m.orderNo, m.claim.user, drawn, asked);
      res := cashier.PaySeckillOrder(m.orderNo, m.claim.user, drawn, asked, true);
    }
  }
}
