/** The consumer of order messages (internal/kafka/consumer.go) and the confirmation it runs
    (ConfirmSeckillOrder in internal/biz/seckill.go). */
module Consumer {
  import opened Wrappers
  import opened Entities
  import opened RedisRepo
  import opened MysqlRepo
  import opened Protocol
  import opened ProtocolInv
  import opened Seckill
  import opened DelayQueue
  import Routing

  /** A confirmed message: the order is in the database, the message is acknowledged, the pending record is gone. */
  function Confirmation(s: Sys, r: RequestId, db: Mysql): Sys {
    s.(db := db, topic := s.topic - {r}, redis := DeletePending(s.redis, r))
  }

  /** The state after one consumption of the message of request r, and how the message ended up. */
  ghost function Consumed(s: Sys, r: RequestId, now: int, abort: Option<GoError>): (Sys, Routing.Outcome)
    requires r in s.topic
  {
    var d := s.topic[r];
    match ConfirmOutcome(s.db, d.m, now, abort)
    case Success(db) => (Confirmation(s, r, db), Routing.Acked)
    case Failure(e) =>
      var outcome := Routing.Route(e, d.retryCount);
      (Routed(s, r, outcome), outcome)
  }

  /** What becomes of a message that failed. */
  ghost function Routed(s: Sys, r: RequestId, outcome: Routing.Outcome): Sys
    requires r in s.topic
  {
    match outcome
    case Acked => s.(topic := s.topic - {r})
    case Retried(count) => s.(topic := s.topic[r := Delivery(s.topic[r].m, count)])
    case DeadLettered => Returned(s.(topic := s.topic - {r}), r, s.topic[r].m.claim)
  }

  lemma ConfirmationRuns(s: Sys, r: RequestId, now: int, db: Mysql)
    requires r in s.topic && ConfirmTx(s.db, s.topic[r].m, now) == Success(db) && s.topic[r].m.requestId == r
    ensures Runs(s, Confirmation(s, r, db))
  {
    RunsNowhere(s);
    RunsStep(s, s, Consume(r, now, None));
    var t := s.(db := db, topic := s.topic - {r});
    assert DoConsume(s, r, now, None) == t;
    assert HasRequest(t.db.orders, r) by {
      assert t.db.orders[s.topic[r].m.orderNo].requestId == r;
    }
    RunsStep(s, t, Settle(r));
  }

  lemma FailureRuns(s: Sys, r: RequestId, now: int, abort: Option<GoError>)
    requires r in s.topic && r !in s.threads && ConfirmOutcome(s.db, s.topic[r].m, now, abort).Failure?
    ensures Runs(s, Consumed(s, r, now, abort).0)
  {
    var e := ConfirmOutcome(s.db, s.topic[r].m, now, abort).error;
    RunsNowhere(s);
    RunsStep(s, s, Consume(r, now, abort));
    var t := AfterFailure(s, r, s.topic[r], e);
    assert DoConsume(s, r, now, abort) == t;
    if Routing.Route(e, s.topic[r].retryCount).DeadLettered? {
      var c := s.topic[r].m.claim;
      ReturnedRuns(s, s.(topic := s.topic - {r}), r, c);
    }
  }

  function Replayed(letter: Delivery): Delivery {
    Delivery(letter.m, letter.retryCount + 1)
  }

  /** A letter that died with its retries used up gets one attempt per replay: any failure is final again. */
  lemma ReplayGetsOneAttempt(letter: Delivery, errors: seq<GoError>)
    requires letter.retryCount >= Routing.MAX_RETRY_COUNT
    ensures |Routing.Life(errors, Replayed(letter).retryCount)| == 1
    ensures errors != [] && errors[0] != Biz(OrderExists)
            ==> Routing.Life(errors, Replayed(letter).retryCount) == [Routing.DeadLettered]
  {
    if errors != [] {
      var outcome := Routing.Route(errors[0], Replayed(letter).retryCount);
      assert !outcome.Retried?;
    }
  }

  /** What a consumption that fails with e has to come to: a transient error on one of the first three consumptions
      leaves the message and its reservation as they were, with the count one higher; an existing order settles the
      message; anything else gives units, place and coupon back. */
  ghost predicate DecidedRight(e: GoError, s: Sys, r: RequestId, outcome: Option<Routing.Outcome>, t: Sys)
    requires r in s.topic
  {
    var m, n := s.topic[r].m, s.topic[r].retryCount;
    if e == Biz(OrderExists) then outcome == Some(Routing.Acked) && t == s.(topic := s.topic - {r})
    else if Routing.Transient(e) && n < 3 then
      outcome == Some(Routing.Retried(n + 1)) && t == s.(topic := s.topic[r := Delivery(m, n + 1)])
    else
      && outcome == Some(Routing.DeadLettered)
      && t == s.(topic := s.topic - {r}, redis := t.redis, db := s.db.(coupons := t.db.coupons))
      && StockKeyOf(m.claim) in t.redis.stock
      && t.redis.stock[StockKeyOf(m.claim)] ==
         (if StockKeyOf(m.claim) in s.redis.stock then s.redis.stock[StockKeyOf(m.claim)] else 0) + m.claim.quantity
      && t.redis.marks == s.redis.marks - {MarkKeyOf(m.claim)} && t.redis.pending == s.redis.pending - {r}
      && t.redis.idempotent == s.redis.idempotent
      && (m.claim.coupon in t.db.coupons && m.claim.coupon > 0 ==> t.db.coupons[m.claim.coupon].status != Used)
  }

  class OrderConsumer {
    const d: Deployment
    const queue: DelayQueue
    var deadLetters: seq<Delivery>
    var replayed: set<nat>            // positions of the dead letters marked as replayed

    constructor (d: Deployment, queue: DelayQueue)
      ensures this.d == d && this.queue == queue && deadLetters == [] && replayed == {}
    {
      this.d, this.queue, deadLetters, replayed := d, queue, [], {};
    }

    /** ReplayDeadLetter: the message goes to the retry topic once more, with its count one higher and no
        reservation; an unknown letter or a send that does not get through changes nothing. A letter that is sent
        but cannot be marked is reported as a failure. */
    method ReplayDeadLetter(event: nat, sendOk: bool, markOk: bool) returns (ok: bool)
      modifies this`replayed, d`topic
      ensures ok == (event < |deadLetters| && sendOk && markOk)
      ensures d.topic ==
              if event < |deadLetters| && sendOk
              then old(d.topic)[deadLetters[event].m.requestId :=
                   Delivery(deadLetters[event].m, deadLetters[event].retryCount + 1)] else old(d.topic)
      ensures replayed == if ok then old(replayed) + {event} else old(replayed)
    {
      if event >= |deadLetters| || !sendOk {
        return false;
      }
      var letter := deadLetters[event];
      d.topic := d.topic[letter.m.requestId := Delivery(letter.m, letter.retryCount + 1)];
      if !markOk {
        return false;
      }
      replayed := replayed + {event};
      return true;
    }

    /** ConfirmSeckillOrder: one transaction; once it has committed, the pending record is deleted and the order's
        timer is set, though a failure to set it is only logged. */
    method ConfirmSeckillOrder(m: Message, now: int, abort: Option<GoError>, addOk: bool) returns (err: Option<GoError>)
      modifies d.cache`pending, d.repo, queue`main
      ensures match ConfirmOutcome(old(d.repo.Value()), m, now, abort)
              case Success(db) =>
                && err == None && d.repo.Value() == db
                && d.cache.Value() == DeletePending(old(d.cache.Value()), m.requestId)
                && queue.main == (if addOk then old(queue.main)[m.orderNo := now + 900] else old(queue.main))
                && m.orderNo in d.repo.orders && d.repo.orders[m.orderNo].createTime == now
                && d.repo.orders[m.orderNo].status == Pending && d.repo.orders[m.orderNo].claim.user == m.claim.user
              case Failure(e) =>
                && err == Some(e) && d.repo.Value() == old(d.repo.Value()) && d.cache.Value() == old(d.cache.Value())
                && queue.main == old(queue.main)
    {
      if abort.Some? {
        return abort;
      }
      err := d.repo.ConfirmOrder(m, now);
      if err.Some? {
        return;
      }
      d.cache.DeletePendingReservation(m.requestId);
      if addOk {
        queue.Add(m.orderNo, now + ORDER_TIMEOUT);
      }
    }

    /** RollbackSeckillReservation: gives back what the message's reservation took. */
    method RollbackSeckillReservation(m: Message)
      modifies d.cache, d.repo
      ensures d.State() == Returned(old(d.State()), m.requestId, m.claim)
    {
      d.GiveBackReservation(m.requestId, m.claim);
    }

    /** processMessage: the message is confirmed or found ordered already, or goes to the retry topic with its count one
        higher, or to the dead letters with its reservation given back. Exactly one of these, and nothing else changes.
        Cut off by a shutdown, or with no send getting through, it is left unacknowledged (None) and nothing changes. */
    method ProcessMessage(r: RequestId, now: int, abort: Option<GoError>, shutdown: bool, sendOk: bool, addOk: bool,
                          ghost onSale: map<Id, Offer>)
      returns (outcome: Option<Routing.Outcome>, wait: int)
      requires Inv(d.State(), onSale) && r in d.topic
      modifies this`deadLetters, d`topic, d.cache, d.repo, queue`main
      ensures Inv(d.State(), onSale) && Runs(old(d.State()), d.State())
      ensures var (after, end) := Consumed(old(d.State()), r, now, abort);
              if shutdown || (!sendOk && !end.Acked?) then outcome == None && d.State() == old(d.State())
              else outcome == Some(end) && d.State() == after
      ensures outcome.Some? && outcome.value.Retried? ==> wait == Routing.Backoff(outcome.value.count)
      ensures deadLetters ==
              if outcome == Some(Routing.DeadLettered) then old(deadLetters) + [old(d.topic)[r]] else old(deadLetters)
      ensures queue.main ==
              if !shutdown && addOk && ConfirmOutcome(old(d.repo.Value()), old(d.topic)[r].m, now, abort).Success?
              then old(queue.main)[old(d.topic)[r].m.orderNo := now + 900] else old(queue.main)
      ensures !shutdown && sendOk && abort.Some? ==> DecidedRight(abort.value, old(d.State()), r, outcome, d.State())
      ensures !shutdown && sendOk && abort.None? ==>
                match ConfirmTx(old(d.repo.Value()), old(d.topic)[r].m, now)
                case Success(db) => outcome == Some(Routing.Acked) && d.repo.Value() == db && r !in d.topic
                                    && r !in d.cache.pending
                case Failure(e) => DecidedRight(e, old(d.State()), r, outcome, d.State())
    {
      hide Inv, Runs, DecidedRight;
      ghost var s := d.State();
      RunsNowhere(s);
      if shutdown {
        return None, 0;
      }
      MessageLinks(s, onSale, r);
      var delivery := d.topic[r];
      wait := 0;
      var err := ConfirmSeckillOrder(delivery.m, now, abort, addOk);
      if err == None {
        d.topic := d.topic - {r};
        outcome := Some(Routing.Acked);
        ConfirmationRuns(s, r, now, d.repo.Value());
      } else {
        FailureRuns(s, r, now, abort);
        outcome, wait := RouteFailure(r, err.value, sendOk);
      }
      RunsKeep(s, d.State(), onSale);
    }

    /** routeFailure and handleFinalFailture. */
    method RouteFailure(r: RequestId, err: GoError, sendOk: bool) returns (outcome: Option<Routing.Outcome>, wait: int)
      requires r in d.topic && d.topic[r].m.requestId == r
      modifies this`deadLetters, d`topic, d.cache, d.repo
      ensures var end := Routing.Route(err, old(d.topic)[r].retryCount);
              if !sendOk && !end.Acked? then outcome == None && d.State() == old(d.State())
              else outcome == Some(end) && d.State() == Routed(old(d.State()), r, end)
      ensures outcome.Some? && outcome.value.Retried? ==> wait == Routing.Backoff(outcome.value.count)
      ensures deadLetters ==
              if outcome == Some(Routing.DeadLettered) then old(deadLetters) + [old(d.topic)[r]] else old(deadLetters)
      ensures sendOk ==> DecidedRight(err, old(d.State()), r, outcome, d.State())
    {
      Routing.ErrorsDecide(err, d.topic[r].retryCount);
      var delivery := d.topic[r];
      var end := Routing.Route(err, delivery.retryCount);
      wait := 0;
      if !sendOk && !end.Acked? {
        return None, 0;
      }
      outcome := Some(end);
      match end {
        case Acked =>
          d.topic := d.topic - {r};
        case Retried(count) =>
          wait := Routing.CalculateBackoff(count);
          d.topic := d.topic[r := Delivery(delivery.m, count)];
        case DeadLettered =>
          deadLetters := deadLetters + [delivery];
          d.topic := d.topic - {r};
          RollbackSeckillReservation(delivery.m);
      }
    }
  }

  lemma MessageLinks(s: Sys, onSale: map<Id, Offer>, r: RequestId)
    requires Inv(s, onSale) && r in s.topic
    ensures s.topic[r].m.requestId == r && r !in s.threads
  {
  }
}
