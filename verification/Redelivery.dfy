/** Messages that come once more: replayed from the dead letters, or consumed again because the offset was not committed
    in time. For every state the protocol reaches, when this does no harm, and otherwise how much. */
module Redelivery {
  import opened Wrappers
  import opened Entities
  import opened RedisRepo
  import opened MysqlRepo
  import opened StockLedger
  import opened Books
  import opened Protocol
  import opened ProtocolInv
  import opened ProtocolTheorems
  import opened ProtocolRuns
  import opened Seckill
  import opened Consumer
  import opened Maps
  import Adversarial
  import Routing

  // ---- what stays true of a message once it has been sent ----

  /** The message of a request the program has made: its numbers were given out to it, its goods are on sale, and
      whatever is still on record, in hand or under way for the request is for the same claim. */
  predicate Genuine(s: Sys, m: Message, onSale: map<Id, Offer>) {
    var r, c := m.requestId, m.claim;
    && r in s.redis.idempotent && m.orderNo in s.issued && s.issued[m.orderNo] == r && m.orderNo < s.nextNo
    && OnOffer(onSale, StockKeyOf(c)) && 1 <= c.quantity < TWO_TO_THE_32
    && (c.coupon > 0 ==> c.coupon in s.db.coupons)
    && (r in s.redis.pending ==> s.redis.pending[r].claim == c)
    && (r in s.threads ==> s.threads[r].Undoing? && s.threads[r].claim == c)
    && (r in s.topic ==> s.topic[r].m == m)
  }

  lemma SentIsGenuine(s: Sys, r: RequestId, onSale: map<Id, Offer>)
    requires Inv(s, onSale) && r in s.topic
    ensures Genuine(s, s.topic[r].m, onSale)
  {
    MessageHolds(s, r);
    hide HasRequest, Holds;
    HeldIsOnOffer(View(s), onSale, ByRequest(r));
  }

  lemma CreatingKeepsGenuine(s: Sys, step: Step, m: Message, onSale: map<Id, Offer>)
    requires Genuine(s, m, onSale) && RecordsOk(s) && Creating(step)
    ensures Genuine(Do(s, step), m, onSale)
  {
    hide HasRequest, DraftFor;
  }

  lemma ConsumingKeepsGenuine(s: Sys, q: RequestId, now: int, abort: Option<GoError>, m: Message,
                              onSale: map<Id, Offer>)
    requires Genuine(s, m, onSale)
    ensures Genuine(DoConsume(s, q, now, abort), m, onSale)
  {
    hide Clashes, Routing.Route;
  }

  lemma CompensateKeepsGenuine(s: Sys, q: RequestId, m: Message, onSale: map<Id, Offer>)
    requires Genuine(s, m, onSale)
    ensures Genuine(DoCompensate(s, q), m, onSale)
  {
    hide HasRequest;
  }

  lemma StageKeepsGenuine(s: Sys, q: RequestId, c: Claim, stage: UndoStage, m: Message, onSale: map<Id, Offer>)
    requires Genuine(s, m, onSale) && q in s.threads && s.threads[q] == Undoing(c, stage)
    ensures Genuine(GiveBack(s, q, c, stage), m, onSale)
  {
  }

  lemma UndoKeepsGenuine(s: Sys, q: RequestId, m: Message, onSale: map<Id, Offer>)
    requires Genuine(s, m, onSale)
    ensures Genuine(DoUndo(s, q), m, onSale)
  {
    hide GiveBack;
    if q in s.threads && s.threads[q].Undoing? {
      hide Genuine;
      StageKeepsGenuine(s, q, s.threads[q].claim, s.threads[q].stage, m, onSale);
    }
  }

  lemma OthersKeepGenuine(s: Sys, step: Step, m: Message, onSale: map<Id, Offer>)
    requires Genuine(s, m, onSale) && !Creating(step) && !GivingBack(step) && !step.Consume?
    ensures Genuine(Do(s, step), m, onSale)
  {
    hide HasRequest, DoConsume;
  }

  lemma StepKeepsGenuine(s: Sys, step: Step, m: Message, onSale: map<Id, Offer>)
    requires Genuine(s, m, onSale) && RecordsOk(s)
    ensures Genuine(Do(s, step), m, onSale)
  {
    hide Genuine, DoConsume, DoCompensate, DoUndo;
    match step
    case Consume(q, now, abort) => ConsumingKeepsGenuine(s, q, now, abort, m, onSale);
    case Compensate(q) => CompensateKeepsGenuine(s, q, m, onSale);
    case Undo(q) => UndoKeepsGenuine(s, q, m, onSale);
    case _ =>
      hide Do;
      if Creating(step) {
        CreatingKeepsGenuine(s, step, m, onSale);
      } else {
        OthersKeepGenuine(s, step, m, onSale);
      }
  }

  lemma {:induction false} RunKeepsGenuine(s: Sys, steps: seq<Step>, m: Message, onSale: map<Id, Offer>)
    requires Genuine(s, m, onSale) && Inv(s, onSale)
    ensures Genuine(Exec(s, steps), m, onSale)
    decreases |steps|
  {
    hide Do, Genuine, BooksInv, DbInv, ThreadsOk, TopicOk, RecordsOk, CancelsOk, HistoryOk;
    if steps != [] {
      StepKeepsGenuine(s, steps[0], m, onSale);
      StepKeeps(s, steps[0], onSale);
      RunKeepsGenuine(Do(s, steps[0]), steps[1..], m, onSale);
    }
  }

  /** m was under way in a state from which s has been reached. */
  ghost predicate WasSent(s: Sys, m: Message, onSale: map<Id, Offer>) {
    exists u :: Reachable(u, onSale) && m.requestId in u.topic && u.topic[m.requestId].m == m && Runs(u, s)
  }

  lemma WasSentFacts(s: Sys, m: Message, onSale: map<Id, Offer>)
    requires WasSent(s, m, onSale)
    ensures Reachable(s, onSale) && Inv(s, onSale) && Genuine(s, m, onSale)
  {
    hide Reachable, Inv, Exec, Genuine;
    var u :| Reachable(u, onSale) && m.requestId in u.topic && u.topic[m.requestId].m == m && Runs(u, s);
    ReachableInv(u, onSale);
    ReachableRuns(u, s, onSale);
    ReachableInv(s, onSale);
    SentIsGenuine(u, m.requestId, onSale);
    var steps :| s == Exec(u, steps);
    RunKeepsGenuine(u, steps, m, onSale);
  }

  // ---- consuming a copy ----

  /** One consumption of a copy of m, beside whatever is on the topic. */
  ghost function Redelivered(s: Sys, m: Message, retries: nat, now: int, abort: Option<GoError>): (Sys,
    Routing.Outcome) {
    var r := m.requestId;
    var (t, outcome) := Consumed(s.(topic := s.topic[r := Delivery(m, retries)]), r, now, abort);
    (t.(topic := s.topic), outcome)
  }

  /** The states it can end in. */
  ghost function Sold(s: Sys, m: Message, db: Mysql): Sys {
    s.(db := db, redis := DeletePending(s.redis, m.requestId))
  }

  lemma RedeliveredIs(s: Sys, m: Message, retries: nat, now: int, abort: Option<GoError>)
    ensures var (t, outcome) := Redelivered(s, m, retries, now, abort);
            match ConfirmOutcome(s.db, m, now, abort)
            case Success(db) => t == Sold(s, m, db) && outcome == Routing.Acked
            case Failure(e) => outcome == Routing.Route(e, retries)
                               && t == if outcome.DeadLettered? then Returned(s, m.requestId, m.claim) else s
  {
    hide ConfirmTx, Routing.Route;
  }

  /** The reservation is still on record, and nobody works on it. */
  ghost predicate Waiting(s: Sys, r: RequestId) {
    Unresolved(s, r) && !(r in s.threads) && !(r in s.topic)
  }

  /** On record, without an order, and in nobody's hands; its message may be under way. */
  ghost predicate OnHold(s: Sys, r: RequestId) {
    Unresolved(s, r) && r !in s.threads
  }

  lemma SoldHolder(s: Sys, m: Message, now: int, db: Mysql, k: Holder)
    requires ThreadsOk(s) && m.claim.quantity == ToUint32(m.claim.quantity)
    requires ConfirmTx(s.db, m, now) == Success(db)
    ensures var t, from, to := Sold(s, m, db), ByRequest(m.requestId), ByOrder(m.orderNo);
            && !IsHolder(s, to) && IsHolder(t, to) && HoldOf(t, to) == Full(m.claim)
            && (k != to ==> (IsHolder(t, k) <==> IsHolder(s, k) && (k == from ==> m.requestId in s.threads)))
            && (k != to && IsHolder(t, k) ==> HoldOf(t, k) == HoldOf(s, k))
  {
    var t := Sold(s, m, db);
    assert t.db.orders == s.db.orders[m.orderNo := OrderRow(m, now)];
    Adversarial.InsertedRequests(s.db.orders, m.orderNo, OrderRow(m, now));
    hide Clashes;
  }

  /** The order takes over what was on hold, or comes on top. */
  lemma SoldHolds(s: Sys, m: Message, now: int, db: Mysql)
    requires ThreadsOk(s) && m.claim.quantity == ToUint32(m.claim.quantity)
    requires ConfirmTx(s.db, m, now) == Success(db)
    ensures var t, from, to := Sold(s, m, db), ByRequest(m.requestId), ByOrder(m.orderNo);
            && to !in Holds(s)
            && Holds(t) == (if m.requestId in s.threads then Holds(s) else Holds(s) - {from})[to := Full(m.claim)]
  {
    var t := Sold(s, m, db);
    HoldsAre(s);
    HoldsAre(t);
    hide Holds, IsHolder, HoldOf, ThreadsOk, ConfirmTx, Sold;
    forall k {
      SoldHolder(s, m, now, db, k);
    }
  }

  /** A rollback takes away what was on hold, or nothing at all. */
  lemma ReturnedHold(s: Sys, r: RequestId, c: Claim)
    ensures var t := Returned(s, r, c);
            Holds(t) == if r in s.threads then Holds(s) else Holds(s) - {ByRequest(r)}
  {
    var t := Returned(s, r, c);
    HoldsAre(s);
    assert AgreeExcept(s, t, r);
    RequestChanged(s, t, r);
    hide HasRequest;
    if r in s.threads {
      SameHold(s, t, r);
    }
  }

  // ---- how much it is off ----

  /** The units a redelivery adds to what is accounted for: none if it changes nothing or takes over what was on
      hold, and otherwise the message's quantity, sold or given back a second time. */
  ghost function Surplus(s: Sys, m: Message, t: Sys): int {
    if t == s || OnHold(s, m.requestId) then 0 else m.claim.quantity
  }

  lemma HeldAfterSale(s: Sys, m: Message, now: int, db: Mysql, onSale: map<Id, Offer>)
    requires ThreadsOk(s) && Genuine(s, m, onSale) && ConfirmTx(s.db, m, now) == Success(db)
    ensures Held(Holds(Sold(s, m, db)), m.claim.sku)
         == Held(Holds(s), m.claim.sku) + (if OnHold(s, m.requestId) then 0 else m.claim.quantity)
  {
    var r, c, holds := m.requestId, m.claim, Holds(s);
    var from, to := ByRequest(r), ByOrder(m.orderNo);
    RequestHold(s, m, onSale);
    assert c.quantity == ToUint32(c.quantity);
    hide Holds, ThreadsOk, ConfirmTx, Genuine, OnHold, Sold;
    SoldHolds(s, m, now, db);
    if r in s.threads || from !in holds {
      DelAbsentUnless(holds, from, r in s.threads);
      HeldPut(holds, to, Full(c), c.sku);
    } else {
      HeldRemove(holds, from, c.sku);
      HeldPut(holds - {from}, to, Full(c), c.sku);
    }
  }

  lemma DelAbsentUnless(holds: map<Holder, Hold>, k: Holder, kept: bool)
    requires kept || k !in holds
    ensures (if kept then holds else holds - {k}) == holds
  {
    if !kept {
      DelAbsent(holds, k);
    }
  }

  lemma HeldAfterReturn(s: Sys, m: Message, onSale: map<Id, Offer>)
    requires Genuine(s, m, onSale)
    ensures Held(Holds(Returned(s, m.requestId, m.claim)), m.claim.sku)
         == Held(Holds(s), m.claim.sku) - (if OnHold(s, m.requestId) then m.claim.quantity else 0)
  {
    var r, c, holds := m.requestId, m.claim, Holds(s);
    var from := ByRequest(r);
    RequestHold(s, m, onSale);
    hide Holds, Genuine, OnHold, Returned;
    ReturnedHold(s, r, c);
    if r in s.threads || from !in holds {
      DelAbsentUnless(holds, from, r in s.threads);
    } else {
      HeldRemove(holds, from, c.sku);
    }
  }

  /** What the request holds that a message was sent for. */
  lemma RequestHold(s: Sys, m: Message, onSale: map<Id, Offer>)
    requires Genuine(s, m, onSale)
    ensures var k := ByRequest(m.requestId);
            && (k in Holds(s) <==> m.requestId in s.threads || OnHold(s, m.requestId))
            && (OnHold(s, m.requestId) ==> Holds(s)[k] == Full(m.claim) && m.requestId !in s.threads)
  {
    HoldsAre(s);
  }

  /** Redis stock and everything held of a SKU, reservations and live orders together. */
  ghost function Accounted(s: Sys, key: StockKey): int
    requires key in s.redis.stock
  {
    s.redis.stock[key] + OffOrder(s, key.sku) + Ordered(s.db.orders, key.sku)
  }

  lemma AccountedIsHeld(s: Sys, key: StockKey)
    requires key in s.redis.stock
    ensures Accounted(s, key) == s.redis.stock[key] + Held(Holds(s), key.sku)
  {
    HeldSplits(s, key.sku);
  }

  lemma InvAccounts(s: Sys, onSale: map<Id, Offer>, key: StockKey)
    requires Inv(s, onSale) && OnOffer(onSale, key)
    ensures key in s.redis.stock && Accounted(s, key) == onSale[key.sku].units
  {
    assert key in View(s).stock;
    AccountedIsHeld(s, key);
  }

  /** In every reachable state, for every message ever sent: what a redelivery adds to the account of its SKU is exactly
      Surplus, so Redis stock, reservations and live orders together promise that many units that are not there. */
  lemma RedeliverySurplus(s: Sys, m: Message, onSale: map<Id, Offer>, retries: nat, now: int, abort: Option<GoError>)
    requires WasSent(s, m, onSale)
    ensures var t, key := Redelivered(s, m, retries, now, abort).0, StockKeyOf(m.claim);
            && key.sku in onSale && key in t.redis.stock
            && Accounted(t, key) == onSale[key.sku].units + Surplus(s, m, t)
  {
    var t, key := Redelivered(s, m, retries, now, abort).0, StockKeyOf(m.claim);
    WasSentFacts(s, m, onSale);
    RedeliveredIs(s, m, retries, now, abort);
    SurplusHere(s, m, onSale, retries, now, abort, t);
  }

  lemma SurplusHere(s: Sys, m: Message, onSale: map<Id, Offer>, retries: nat, now: int, abort: Option<GoError>, t: Sys)
    requires Inv(s, onSale) && Genuine(s, m, onSale)
    requires match ConfirmOutcome(s.db, m, now, abort)
             case Success(db) => t == Sold(s, m, db)
             case Failure(e) => t == if Routing.Route(e, retries).DeadLettered? then Returned(s, m.requestId, m.claim)
                                     else s
    ensures var key := StockKeyOf(m.claim);
            && key.sku in onSale && key in t.redis.stock
            && Accounted(t, key) == onSale[key.sku].units + Surplus(s, m, t)
  {
    var key := StockKeyOf(m.claim);
    InvAccounts(s, onSale, key);
    assert ThreadsOk(s);
    hide Inv, ThreadsOk, Routing.Route, ConfirmTx, OnHold, OffOrder;
    match ConfirmOutcome(s.db, m, now, abort)
    case Success(db) =>
      HeldAfterSale(s, m, now, db, onSale);
      AccountedIsHeld(s, key);
      AccountedIsHeld(t, key);
      SoldIsNew(s, m, now, db);
    case Failure(e) =>
      if Routing.Route(e, retries).DeadLettered? {
        HeldAfterReturn(s, m, onSale);
        AccountedIsHeld(s, key);
        AccountedIsHeld(t, key);
        assert t.redis.stock[key] == s.redis.stock[key] + m.claim.quantity;
      }
  }

  lemma SoldIsNew(s: Sys, m: Message, now: int, db: Mysql)
    requires ConfirmTx(s.db, m, now) == Success(db)
    ensures Sold(s, m, db) != s && Sold(s, m, db).redis.stock == s.redis.stock
  {
    assert m.orderNo in db.orders && m.orderNo !in s.db.orders;
  }

  // ---- when it does no harm ----

  /** A message put back while its reservation is waiting is a message under way like any other. */
  lemma PutBackKeeps(s: Sys, m: Message, onSale: map<Id, Offer>, retries: nat)
    requires Inv(s, onSale) && Genuine(s, m, onSale) && Waiting(s, m.requestId)
    ensures Inv(s.(topic := s.topic[m.requestId := Delivery(m, retries)]), onSale)
  {
    var r := m.requestId;
    var t := s.(topic := s.topic[r := Delivery(m, retries)]);
    hide BooksInv, DbInv;
    assert View(t) == View(s) by {
      SameHold(s, t, r);
    }
    assert RequestOk(t, r);
    hide View, HasRequest;
    LinksExcept(s, t, r);
  }

  lemma ConsumedRuns(s: Sys, r: RequestId, now: int, abort: Option<GoError>)
    requires r in s.topic && s.topic[r].m.requestId == r && r !in s.threads
    ensures Runs(s, Consumed(s, r, now, abort).0)
  {
    hide Runs, ConfirmTx, Routing.Route;
    match ConfirmOutcome(s.db, s.topic[r].m, now, abort)
    case Success(db) => ConfirmationRuns(s, r, now, db);
    case Failure(_) => FailureRuns(s, r, now, abort);
  }

  /** With no copy under way, a message put back and consumed ends as in a redelivery, unless it is to be tried
      again. */
  lemma PutBackAndConsumed(s: Sys, m: Message, retries: nat, now: int, abort: Option<GoError>)
    requires m.requestId !in s.topic
    ensures var put := s.(topic := s.topic[m.requestId := Delivery(m, retries)]);
            var t := Redelivered(s, m, retries, now, abort).0;
            t == s || t == Consumed(put, m.requestId, now, abort).0
  {
    hide ConfirmTx, Routing.Route, Returned;
    PutDel(s.topic, m.requestId, Delivery(m, retries));
    DelAbsent(s.topic, m.requestId);
    RedeliveredIs(s, m, retries, now, abort);
  }

  lemma WaitingIsHarmless(s: Sys, m: Message, onSale: map<Id, Offer>, retries: nat, now: int, abort: Option<GoError>)
    requires Inv(s, onSale) && Genuine(s, m, onSale) && Waiting(s, m.requestId)
    ensures Inv(Redelivered(s, m, retries, now, abort).0, onSale)
  {
    var put := s.(topic := s.topic[m.requestId := Delivery(m, retries)]);
    PutBackKeeps(s, m, onSale, retries);
    PutBackAndConsumed(s, m, retries, now, abort);
    ConsumedRuns(put, m.requestId, now, abort);
    hide Inv, Genuine, Redelivered, Consumed, Runs;
    RunsKeep(put, Consumed(put, m.requestId, now, abort).0, onSale);
  }

  /** A message consumed while a copy of it is under way leaves the copy without its reservation. */
  lemma CopyIsOrphaned(s: Sys, m: Message, onSale: map<Id, Offer>, retries: nat, now: int, abort: Option<GoError>)
    requires m.requestId in s.topic && Redelivered(s, m, retries, now, abort).0 != s
    ensures !Inv(Redelivered(s, m, retries, now, abort).0, onSale)
  {
    var r, t := m.requestId, Redelivered(s, m, retries, now, abort).0;
    RedeliveredIs(s, m, retries, now, abort);
    hide Redelivered, Routing.Route, Clashes, OrderRow;
    assert r !in t.redis.pending && r in t.topic;
  }

  /** Exactly when a message consumed once more does no harm: if that changes nothing, or if its reservation is still
      waiting for it, on record and in nobody's hands. */
  lemma RedeliveryIsHarmlessIff(s: Sys, m: Message, onSale: map<Id, Offer>, retries: nat, now: int,
                                abort: Option<GoError>)
    requires WasSent(s, m, onSale)
    ensures var t := Redelivered(s, m, retries, now, abort).0;
            Inv(t, onSale) <==> t == s || Waiting(s, m.requestId)
  {
    var t := Redelivered(s, m, retries, now, abort).0;
    WasSentFacts(s, m, onSale);
    hide Redelivered, Inv, Genuine, WasSent;
    if t != s {
      if Waiting(s, m.requestId) {
        WaitingIsHarmless(s, m, onSale, retries, now, abort);
      } else if m.requestId in s.topic {
        CopyIsOrphaned(s, m, onSale, retries, now, abort);
      } else {
        SurplusBreaks(s, m, onSale, retries, now, abort);
      }
    }
  }

  lemma SurplusBreaks(s: Sys, m: Message, onSale: map<Id, Offer>, retries: nat, now: int, abort: Option<GoError>)
    requires WasSent(s, m, onSale) && Redelivered(s, m, retries, now, abort).0 != s && !OnHold(s, m.requestId)
    ensures !Inv(Redelivered(s, m, retries, now, abort).0, onSale)
  {
    var t, key := Redelivered(s, m, retries, now, abort).0, StockKeyOf(m.claim);
    RedeliverySurplus(s, m, onSale, retries, now, abort);
    WasSentQuantity(s, m, onSale);
    hide Redelivered, Inv, Accounted, WasSent, OnHold;
    if Inv(t, onSale) {
      InvAccounts(t, onSale, key);
    }
  }

  lemma WasSentQuantity(s: Sys, m: Message, onSale: map<Id, Offer>)
    requires WasSent(s, m, onSale)
    ensures m.claim.quantity >= 1 && OnOffer(onSale, StockKeyOf(m.claim))
  {
    WasSentFacts(s, m, onSale);
  }

  // ---- dead letters ----

  /** A request that is over: its id is spent, and nothing of it is on record, in hand or under way. */
  predicate Over(s: Sys, r: RequestId) {
    r in s.redis.idempotent && r !in s.redis.pending && r !in s.threads && r !in s.topic
  }

  /** So is a request once its message has been dead-lettered and the rollback is through. */
  lemma DeadLetterIsOver(s: Sys, r: RequestId, onSale: map<Id, Offer>, now: int, abort: Option<GoError>)
    requires Inv(s, onSale) && r in s.topic && Consumed(s, r, now, abort).1.DeadLettered?
    ensures Over(Consumed(s, r, now, abort).0, r)
  {
    hide ConfirmTx, Routing.ClassifyOrderError, BooksInv, DbInv, HasRequest;
  }

  lemma CreatingLeavesOver(s: Sys, step: Step, r: RequestId)
    requires Over(s, r) && Creating(step)
    ensures Over(Do(s, step), r)
  {
    hide HasRequest, DraftFor, CouponsAfter, CouponRestored;
  }

  lemma ConsumingLeavesOver(s: Sys, q: RequestId, now: int, abort: Option<GoError>, r: RequestId)
    requires Over(s, r)
    ensures Over(DoConsume(s, q, now, abort), r)
  {
    hide ConfirmOutcome, Routing.Route;
  }

  lemma OthersLeaveOver(s: Sys, step: Step, r: RequestId)
    requires Over(s, r) && !Creating(step) && !step.Consume?
    ensures Over(Do(s, step), r)
  {
    hide HasRequest, DoConsume, CancelTx, CouponRestored;
  }

  lemma {:induction false} OverStays(s: Sys, steps: seq<Step>, r: RequestId)
    requires Over(s, r)
    ensures Over(Exec(s, steps), r)
    decreases |steps|
  {
    hide Do, Over, DoConsume;
    if steps != [] {
      OverAfterStep(s, steps[0], r);
      OverStays(Do(s, steps[0]), steps[1..], r);
    }
  }

  lemma OverAfterStep(s: Sys, step: Step, r: RequestId)
    requires Over(s, r)
    ensures Over(Do(s, step), r)
  {
    hide Over, DoConsume;
    match step
    case Consume(q, now, abort) => ConsumingLeavesOver(s, q, now, abort, r);
    case _ =>
      hide Do;
      if Creating(step) {
        CreatingLeavesOver(s, step, r);
      } else {
        OthersLeaveOver(s, step, r);
      }
  }

  /** Replaying a dead letter, or consuming it again because its offset was not committed after the rollback, does
      no harm exactly if it changes nothing, however much later: its reservation never comes back. Otherwise it
      sells, or gives back a second time, its whole quantity on top of all that is accounted for. */
  lemma ReplayIsHarmlessIff(start: Sys, s: Sys, m: Message, onSale: map<Id, Offer>, retries: nat, now: int,
                            abort: Option<GoError>)
    requires WasSent(start, m, onSale) && Over(start, m.requestId) && Runs(start, s)
    ensures var t, key := Redelivered(s, m, retries, now, abort).0, StockKeyOf(m.claim);
            && (Inv(t, onSale) <==> t == s)
            && key.sku in onSale && key in t.redis.stock
            && (t != s ==> Accounted(t, key) == onSale[key.sku].units + m.claim.quantity)
  {
    hide Exec, Reachable, Redelivered, Inv, Accounted;
    var steps :| s == Exec(start, steps);
    OverStays(start, steps, m.requestId);
    var u :| Reachable(u, onSale) && m.requestId in u.topic && u.topic[m.requestId].m == m && Runs(u, start);
    RunsChain(u, start, s);
    assert WasSent(s, m, onSale);
    RedeliveryIsHarmlessIff(s, m, onSale, retries, now, abort);
    RedeliverySurplus(s, m, onSale, retries, now, abort);
  }

  // ---- the coupon and the buy mark of a message sold without its reservation ----

  /** An order made from a message whose request holds nothing any more has its coupon in name only: the coupon is
      free, or somebody else has it. And nothing marks its buyer: the marks are what they were. */
  lemma SoldWithoutCouponOrMark(s: Sys, m: Message, onSale: map<Id, Offer>, now: int, db: Mysql)
    requires WasSent(s, m, onSale) && ConfirmTx(s.db, m, now) == Success(db) && m.claim.coupon > 0
    requires !IsHolder(s, ByRequest(m.requestId))
    ensures var t, id := Sold(s, m, db), m.claim.coupon;
            && id in t.db.coupons && HasCoupon(t, ByOrder(m.orderNo), id) && t.redis.marks == s.redis.marks
            && (t.db.coupons[id].status != Used || exists k :: k != ByOrder(m.orderNo) && HasCoupon(t, k, id))
  {
    var t, id, to := Sold(s, m, db), m.claim.coupon, ByOrder(m.orderNo);
    hide WasSent, Reachable, Inv, Genuine, Holds, ConfirmTx, HasCoupon, IsHolder, Sold;
    WasSentFacts(s, m, onSale);
    SaleFacts(s, m, onSale, now, db);
    CouponHasOneHolder(s, onSale, id);
    NewHolder(s, t, to, m.claim);
    if t.db.coupons[id].status == Used {
      var k :| HasCoupon(s, k, id);
      OldHolder(s, t, to, m.claim, k, id);
    }
  }

  lemma NewHolder(s: Sys, t: Sys, to: Holder, c: Claim)
    requires Holds(t) == Holds(s)[to := Full(c)] && c.coupon > 0
    ensures HasCoupon(t, to, c.coupon)
  {
    hide Holds;
    assert HoldsCoupon(Holds(t)[to]);
  }

  lemma OldHolder(s: Sys, t: Sys, to: Holder, c: Claim, k: Holder, id: Id)
    requires Holds(t) == Holds(s)[to := Full(c)] && to !in Holds(s) && HasCoupon(s, k, id)
    ensures k != to && HasCoupon(t, k, id)
  {
    hide Holds;
  }

  lemma SaleFacts(s: Sys, m: Message, onSale: map<Id, Offer>, now: int, db: Mysql)
    requires Inv(s, onSale) && Genuine(s, m, onSale) && ConfirmTx(s.db, m, now) == Success(db)
    requires !IsHolder(s, ByRequest(m.requestId))
    ensures var t, to := Sold(s, m, db), ByOrder(m.orderNo);
            && to !in Holds(s) && Holds(t) == Holds(s)[to := Full(m.claim)]
            && t.db.coupons == s.db.coupons && t.redis.marks == s.redis.marks
            && (m.claim.coupon > 0 ==> m.claim.coupon in s.db.coupons)
  {
    hide Inv, Genuine, ConfirmTx, Holds, IsHolder;
    InvThreads(s, onSale);
    SaleBasics(s, m, onSale, now, db);
    hide ThreadsOk;
    NotHeld(s, ByRequest(m.requestId));
    SoldHolds(s, m, now, db);
    DelAbsent(Holds(s), ByRequest(m.requestId));
  }

  lemma InvThreads(s: Sys, onSale: map<Id, Offer>)
    requires Inv(s, onSale)
    ensures ThreadsOk(s)
  {
  }

  lemma SaleBasics(s: Sys, m: Message, onSale: map<Id, Offer>, now: int, db: Mysql)
    requires Genuine(s, m, onSale) && ConfirmTx(s.db, m, now) == Success(db)
    requires !IsHolder(s, ByRequest(m.requestId))
    ensures m.claim.quantity == ToUint32(m.claim.quantity) && m.requestId !in s.threads
    ensures db.coupons == s.db.coupons && (m.claim.coupon > 0 ==> m.claim.coupon in s.db.coupons)
  {
    hide Clashes, HasRequest;
  }

  lemma NotHeld(s: Sys, k: Holder)
    requires !IsHolder(s, k)
    ensures k !in Holds(s)
  {
    HoldsAre(s);
  }
}
