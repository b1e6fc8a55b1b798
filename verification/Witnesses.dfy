/** The states in which the protocol does not do what was meant are no figments: one small sale reaches them all. */
module Witnesses {
  import opened Wrappers
  import opened Entities
  import opened RedisRepo
  import opened MysqlRepo
  import opened Protocol
  import opened ProtocolInv
  import opened ProtocolTheorems
  import opened Seckill
  import opened Consumer
  import opened OrderCancel
  import opened Purchase
  import opened Redelivery
  import Adversarial
  import Compensate
  import CouponIssue
  import Payment
  import PaymentRuns
  import Pricing
  import Routing

  // ---- ten units of one SKU, and a user who wants one ----

  const SALE: map<Id, Offer> := map[1 := Offer(1, 10)]
  const SHELF := StockKey(1, 1)
  const WISH := Claim(1, 1, 1, 1, 0)
  const QUOTE := Draft(WISH, 1, 100, Money(100, 0, 100))
  const PRODUCT := ProductInfo(100, 5)

  function Shop(): Mysql {
    Mysql(map[1 := SkuRow(1, 10, 0)], map[], {}, map[], {1})
  }

  function Start(): Sys {
    Sys(Redis(map[SHELF := 10], {}, map[], {}), Shop(), map[], map[], map[], 1, map[], multiset{}, multiset{})
  }

  function Request(id: RequestId): CreateRequest {
    CreateRequest(id, 1, 1, 1, 1, 0, 1)
  }

  function Letter(): Message {
    MessageFor(1, "a", QUOTE)
  }

  lemma StartShelf()
    ensures (map sku | sku in SALE :: StockKey(SALE[sku].activity, sku) := SALE[sku].units) == map[SHELF := 10]
  {
  }

  lemma StartTables()
    ensures OffersFit(SALE) && Start().db.skus.Keys == SALE.Keys
    ensures forall sku :: sku in SALE ==>
                            && Start().db.skus[sku].activity == SALE[sku].activity
                            && Start().db.skus[sku].available == SALE[sku].units
  {
  }

  lemma StartRest()
    ensures var s := Start();
            && s.db.orders == map[] && s.db.shipping == {} && s.db.coupons == map[]
            && s.redis == Redis(map[SHELF := 10], {}, map[], {})
            && s.topic == map[] && s.threads == map[] && s.cancels == map[]
            && s.issued == map[] && s.restocked == multiset{} && s.cacheRestocked == multiset{}
  {
  }

  lemma StartOpens()
    ensures Opening(Start(), SALE)
  {
    hide Start, Shop, OffersFit;
    StartTables();
    StartRest();
    StartShelf();
  }

  lemma StartIsReachable()
    ensures Reachable(Start(), SALE)
  {
    hide Opening, Start;
    StartOpens();
    assert Start() == Exec(Start(), []);
  }

  lemma StartGrants()
    ensures Granted(Start(), Request("a"), PRODUCT, 0, QUOTE)
    ensures ThreadsOk(Start()) && RecordsOk(Start())
  {
    assert Pricing.OrderAmount(100, 1) == 100;
  }

  // ---- a message under way ----

  ghost function UnderWay(): Sys {
    Reserved(Start(), "a", QUOTE, 0)
  }

  lemma UnderWayFacts()
    ensures var s := UnderWay();
            && s.db == Shop() && s.threads == map[] && s.topic == map["a" := Delivery(Letter(), 0)]
            && s.redis.stock == map[SHELF := 9] && s.redis.pending == map["a" := PendingRecord(1, "a", WISH, 0)]
  {
  }

  lemma UnderWayIsReachable()
    ensures Reachable(UnderWay(), SALE)
  {
    StartIsReachable();
    StartGrants();
    hide Reachable, Runs, Start, Reserved, Granted, ThreadsOk, RecordsOk;
    ReservedRuns(Start(), Request("a"), PRODUCT, 0, QUOTE);
    ReachableRuns(Start(), UnderWay(), SALE);
  }

  lemma UnderWayConfirms(db: Mysql)
    requires db == Shop()
    ensures ConfirmTx(db, Letter(), 200).Success? && 1 in ConfirmTx(db, Letter(), 200).value.skus
    ensures ConfirmTx(db, Letter(), 200).value.skus[1].available == 9
  {
    assert !Duplicate(db.orders, 1, OrderRow(Letter(), 200));
  }

  lemma CompensatorActs()
    ensures var s := UnderWay();
            && "a" in s.topic && "a" in s.redis.pending && !Compensate.Young(s.redis.pending["a"], 120)
            && Compensate.Fixed(s, "a", 120) == Returned(s, "a", WISH)
  {
    UnderWayFacts();
    hide UnderWay, Returned;
    assert !HasRequest(UnderWay().db.orders, "a");
  }

  /** Two minutes after the request its message may still be under way: the compensator gives its unit back. */
  lemma CompensatedTooEarly()
    ensures var s, t := UnderWay(), Compensate.Fixed(UnderWay(), "a", 120);
            && Reachable(s, SALE) && "a" in s.topic && "a" in s.redis.pending
            && !Compensate.Young(s.redis.pending["a"], 120)
            && !Inv(t, SALE) && t == Returned(s, "a", WISH)
  {
    hide Reachable, Inv, Compensate.Fixed, UnderWay, Returned, Compensate.Young;
    UnderWayIsReachable();
    CompensatorActs();
    Compensate.FixKeepsInvIffNotInProgress(UnderWay(), SALE, "a", 120);
  }

  /** Then the consumer sells the unit, and Redis offers ten where the database has nine. */
  lemma CompensatedThenSold()
    ensures var t := Returned(UnderWay(), "a", WISH);
            && SHELF in t.redis.stock && t.redis.stock[SHELF] == 10
            && "a" in t.topic && t.topic["a"].m == Letter() && ConfirmTx(t.db, Letter(), 200).Success?
            && 1 in ConfirmTx(t.db, Letter(), 200).value.skus
            && ConfirmTx(t.db, Letter(), 200).value.skus[1].available == 9
  {
    UnderWayFacts();
    var t := Returned(UnderWay(), "a", WISH);
    hide UnderWay;
    assert t.db == Shop();
    hide ConfirmTx, Shop;
    UnderWayConfirms(t.db);
  }

  /** The SKU as a listing shows it before anything is sold. */
  const LISTED := Compensate.Listed(1, 1, 10)

  /** Synchronising stock meanwhile hands Redis the reserved unit a second time, though the row has not changed. */
  lemma SynchronisedMeanwhile()
    ensures Reachable(UnderWay(), SALE) && OffOrder(UnderWay(), 1) == 1 && Compensate.ListedFrom(LISTED, UnderWay().db)
    ensures SHELF in Compensate.Synced(UnderWay(), LISTED).redis.stock
            && Compensate.Synced(UnderWay(), LISTED).redis.stock[SHELF] == 10
  {
    UnderWayIsReachable();
    UnderWayFacts();
    hide Reachable, UnderWay;
    CacheLagsByReservations(UnderWay(), SALE, SHELF);
  }

  lemma SoldIsReachable()
    ensures SHELF in Start().redis.stock && ConfirmTx(Reserved(Start(), "a", QUOTE, 0).db, Letter(), 200).Success?
    ensures Reachable(Bought(Start(), Letter(), QUOTE, 0, 200), SALE)
    ensures Runs(Start(), Bought(Start(), Letter(), QUOTE, 0, 200))
  {
    StartIsReachable();
    StartGrants();
    UnderWayFacts();
    UnderWayConfirms(UnderWay().db);
    ReservedRuns(Start(), Request("a"), PRODUCT, 0, QUOTE);
    ConfirmationRuns(UnderWay(), "a", 200, ConfirmTx(UnderWay().db, Letter(), 200).value);
    hide Reachable, Runs, Reserved, Start;
    RunsChain(Start(), UnderWay(), Bought(Start(), Letter(), QUOTE, 0, 200));
    ReachableRuns(Start(), Bought(Start(), Letter(), QUOTE, 0, 200), SALE);
  }

  /** A stale listing: ten units listed, one sold and confirmed, nothing held any more; writing the listed value
      leaves Redis with ten where the database has nine. */
  lemma SynchronisedLate()
    ensures SHELF in Start().redis.stock && ConfirmTx(Reserved(Start(), "a", QUOTE, 0).db, Letter(), 200).Success?
    ensures var s := Bought(Start(), Letter(), QUOTE, 0, 200);
            && Reachable(Start(), SALE) && Compensate.ListedFrom(LISTED, Start().db) && Runs(Start(), s)
            && OffOrder(s, 1) == 0 && 1 in s.db.skus && s.db.skus[1].available == 9
            && SHELF in Compensate.Synced(s, LISTED).redis.stock
            && Compensate.Synced(s, LISTED).redis.stock[SHELF] == 10
  {
    SoldIsReachable();
    StartIsReachable();
    UnderWayFacts();
    UnderWayConfirms(UnderWay().db);
    var s := Bought(Start(), Letter(), QUOTE, 0, 200);
    assert s.redis.stock == map[SHELF := 9];
    hide Reachable, Runs, Bought, Reserved, ConfirmTx, Start;
    CacheLagsByReservations(s, SALE, SHELF);
  }

  /** A request whose send takes two minutes: the compensator gives its reservation back under its hands. */
  lemma CompensatedWhileSending()
    ensures var s := Unsent(Start(), Request("a"), QUOTE, 0);
            && Reachable(s, SALE) && "a" in s.threads && "a" !in s.topic
            && "a" in s.redis.pending && !Compensate.Young(s.redis.pending["a"], 120)
            && !Inv(Compensate.Fixed(s, "a", 120), SALE)
  {
    StartIsReachable();
    StartGrants();
    UnsentRuns(Start(), Request("a"), PRODUCT, 0, QUOTE);
    UnsentIs(Start(), Request("a"), QUOTE, 0);
    var s := Unsent(Start(), Request("a"), QUOTE, 0);
    hide Reachable, Runs, Unsent;
    ReachableRuns(Start(), s, SALE);
    Compensate.FixKeepsInvIffNotInProgress(s, SALE, "a", 120);
  }

  // ---- a dead letter replayed ----

  /** A connection that broke during the transaction; to the classifier an error like any other. */
  const BROKEN := Infra("EOF", false)

  lemma BrokenIsFinal()
    ensures Routing.Route(BROKEN, 0) == Routing.DeadLettered
  {
    assert !Contains("EOF", "timeout") && !Contains("EOF", "deadlock") && !Contains("EOF", "connection refused");
  }

  lemma DiesAtOnce()
    ensures "a" in UnderWay().topic
    ensures Consumed(UnderWay(), "a", 0, Some(BROKEN))
         == (OnlySpent(Start(), "a"), Routing.DeadLettered)
    ensures Runs(UnderWay(), OnlySpent(Start(), "a"))
  {
    var e := Some(BROKEN);
    StartGrants();
    UnderWayFacts();
    assert TopicOk(Start());
    hide Reserved, Granted, OnlySpent, ThreadsOk, RecordsOk, Runs;
    BrokenIsFinal();
    DeadLetterUndoesReservation(Start(), Request("a"), PRODUCT, 0, QUOTE, 0, e);
    FailureRuns(UnderWay(), "a", 0, e);
  }

  /** The sale after the only request died, and after another user has reserved all ten units. */
  ghost function Died(): Sys {
    OnlySpent(Start(), "a")
  }

  const ALL := Claim(2, 1, 1, 10, 0)
  const ALL_QUOTE := Draft(ALL, 1, 100, Money(1000, 0, 1000))
  const ALL_REQUEST := CreateRequest("b", 2, 1, 1, 10, 0, 1)

  ghost function SoldOut(): Sys {
    Reserved(Died(), "b", ALL_QUOTE, 100)
  }

  lemma DiedFacts()
    ensures WasSent(Died(), Letter(), SALE) && Reachable(Died(), SALE) && Over(Died(), "a")
    ensures Died().db == Shop() && Died().redis.stock == map[SHELF := 10] && Died().nextNo == 2
    ensures Died().redis.marks == {} && Died().redis.idempotent == {"a"} && Died().topic == map[]
            && Died().threads == map[]
  {
    UnderWayIsReachable();
    UnderWayFacts();
    DiesAtOnce();
    hide Reachable, Runs, UnderWay, Consumed;
    ReachableRuns(UnderWay(), Died(), SALE);
  }

  lemma DiedGrants()
    ensures Granted(Died(), ALL_REQUEST, ProductInfo(100, 10), 100, ALL_QUOTE)
    ensures ThreadsOk(Died()) && RecordsOk(Died())
  {
    assert Pricing.OrderAmount(100, 10) == 1000;
  }

  lemma SoldOutState(s: Sys)
    requires s.db == Shop() && s.redis.stock == map[SHELF := 10] && s.nextNo == 2 && s.topic == map[]
    ensures var t := Reserved(s, "b", ALL_QUOTE, 100);
            && t.db == Shop() && t.redis.stock == map[SHELF := 0]
            && "b" in t.topic && t.topic["b"].m == MessageFor(2, "b", ALL_QUOTE)
  {
  }

  lemma SoldOutFacts()
    ensures WasSent(SoldOut(), Letter(), SALE) && Runs(Died(), SoldOut())
    ensures var s := SoldOut();
            && s.db == Shop() && s.redis.stock == map[SHELF := 0]
            && "b" in s.topic && s.topic["b"].m == MessageFor(2, "b", ALL_QUOTE)
  {
    hide WasSent, Reachable, Runs, Died, Reserved, Granted, ThreadsOk, RecordsOk, Over;
    DiedFacts();
    DiedGrants();
    ReservedRuns(Died(), ALL_REQUEST, ProductInfo(100, 10), 100, ALL_QUOTE);
    SoldOutState(Died());
    SentBefore();
  }

  lemma SentBefore()
    requires Runs(Died(), SoldOut())
    ensures WasSent(SoldOut(), Letter(), SALE)
  {
    UnderWayIsReachable();
    UnderWayFacts();
    DiesAtOnce();
    hide Reachable, UnderWay, Exec, Consumed;
    RunsChain(UnderWay(), Died(), SoldOut());
  }

  /** The dead letter replayed while another user holds all there is. */
  ghost function Resold(): Sys {
    Redelivered(SoldOut(), Letter(), 1, 200, None).0
  }

  lemma ResoldFacts()
    ensures "b" in Resold().topic && Resold().topic["b"].m == MessageFor(2, "b", ALL_QUOTE) && Resold() != SoldOut()
    ensures ConfirmTx(Shop(), Letter(), 200) == Success(Resold().db)
  {
    SoldOutFacts();
    UnderWayConfirms(Shop());
    hide SoldOut, WasSent, Runs, ConfirmTx;
    RedeliveredIs(SoldOut(), Letter(), 1, 200, None);
    LettersCompete(ConfirmTx(Shop(), Letter(), 200).value);
    assert 1 !in SoldOut().db.orders;
  }

  /** The replay sells one of the ten units that are held, and the message that Redis had admitted finds nine where it
      needs ten. */
  lemma ReplayStarvesAdmitted()
    ensures WasSent(Died(), Letter(), SALE) && Over(Died(), "a") && Runs(Died(), SoldOut())
    ensures Reachable(SoldOut(), SALE) && "b" in SoldOut().topic && OffOrder(SoldOut(), 1) == 10
    ensures var t := Resold();
            && t != SoldOut() && !Inv(t, SALE) && SHELF in t.redis.stock && Accounted(t, SHELF) == 11
            && "b" in t.topic && ConfirmTx(t.db, t.topic["b"].m, 300) == Failure(Biz(InsufficientStock))
  {
    hide WasSent, Reachable, Runs, Died, SoldOut, Inv, Genuine, Over, Resold, ConfirmTx, Accounted;
    DiedFacts();
    SoldOutFacts();
    ResoldFacts();
    WasSentFacts(SoldOut(), Letter(), SALE);
    CacheLagsByReservations(SoldOut(), SALE, SHELF);
    LettersCompete(Resold().db);
    ResoldIsRedelivered();
    ReplayIsHarmlessIff(Died(), SoldOut(), Letter(), SALE, 1, 200, None);
  }

  lemma ResoldIsRedelivered()
    ensures Resold() == Redelivered(SoldOut(), Letter(), 1, 200, None).0
  {
  }

  lemma LettersCompete(db: Mysql)
    requires ConfirmTx(Shop(), Letter(), 200) == Success(db)
    ensures ConfirmTx(db, MessageFor(2, "b", ALL_QUOTE), 300) == Failure(Biz(InsufficientStock)) && 1 in db.orders
  {
    var m := MessageFor(2, "b", ALL_QUOTE);
    assert db.orders == map[1 := OrderRow(Letter(), 200)];
    assert !Clash(db.orders[1], OrderRow(m, 300));
    assert !Duplicate(db.orders, 2, OrderRow(m, 300));
  }

  // ---- a second attempt after a cancellation ----

  /** The sale reaches the state after a purchase and its cancellation in which a second attempt is admitted and
      dropped. */
  lemma RetriedInVain()
    ensures var m := Letter();
            && SHELF in Start().redis.stock && ConfirmTx(Reserved(Start(), "a", QUOTE, 0).db, m, 200).Success?
            && var u := Bought(Start(), m, QUOTE, 0, 200);
            && 1 in u.db.orders && u.db.orders[1].claim.sku in u.db.skus
            && var v := CancelledEverywhere(u, 1);
            && Reachable(v, SALE) && SHELF in v.redis.stock
            && Granted(v, Request("b"), PRODUCT, 0, QUOTE) && DroppedAgain(v, "b", QUOTE, 0, 200)
  {
    var m := Letter();
    UnderWayIsReachable();
    StartIsReachable();
    StartGrants();
    UnderWayFacts();
    UnderWayConfirms(UnderWay().db);
    ReachableInv(Start(), SALE);
    RetryAfterCancelIsDropped(Start(), Request("a"), PRODUCT, 0, QUOTE, 200, "b", SALE);
    CancelUndoesPurchase(Start(), Request("a"), PRODUCT, 0, QUOTE, 200, SALE);
    var u := Bought(Start(), m, QUOTE, 0, 200);
    ConfirmationRuns(UnderWay(), "a", 200, ConfirmTx(UnderWay().db, m, 200).value);
    hide Reachable, Runs, Inv;
    ReachableRuns(UnderWay(), u, SALE);
    CancelledRuns(u, 1, 1);
    ReachableRuns(u, CancelledEverywhere(u, 1), SALE);
  }

  // ---- a payment lost, and a race ----

  function Till(): PaymentRuns.Till {
    PaymentRuns.Till(Adversarial.DbRun(Shop(), multiset{}, multiset{}), map[], map[], {}, {}, {}, {})
  }

  lemma TillIsReachable()
    ensures PaymentRuns.ReachableInTurn(Till(), SALE)
  {
    assert PaymentRuns.Opening(Till(), SALE);
    hide PaymentRuns.Opening, Till;
    assert PaymentRuns.Serial(Till(), []) && Till() == PaymentRuns.Exec(Till(), []);
  }

  ghost function Ordered(): PaymentRuns.Till {
    PaymentRuns.Do(Till(), PaymentRuns.Database(Adversarial.Confirm(Letter(), 0)))
  }

  lemma OrderedFacts()
    ensures var t := Ordered();
            && 1 in t.tables.db.orders && t.tables.db.orders[1] == OrderRow(Letter(), 0)
            && t == Till().(tables := t.tables)
  {
    UnderWayConfirms(Shop());
    assert !Duplicate(Shop().orders, 1, OrderRow(Letter(), 0));
  }

  /** Ordered and ready to be paid: number 5, a hundred cents. */
  ghost function Payable(): PaymentRuns.Till {
    PaymentRuns.Do(Ordered(), PaymentRuns.PayOrder(1, 1, 5, 60, true))
  }

  lemma PayableFacts()
    ensures var t := Payable();
            && t.tables == Ordered().tables && t.callbacks == map[] && t.locked == {}
            && t.pays == map[1 := Payment.PayRow(5, 1, 100, Payment.Created, None)]
            && PaymentRuns.IsPending(t, 1)
  {
    OrderedFacts();
    hide Ordered;
    assert OrderRow(Letter(), 0).status == Pending && OrderRow(Letter(), 0).createTime == 0;
    assert OrderRow(Letter(), 0).claim.user == 1 && OrderRow(Letter(), 0).money.finalAmount == 100;
  }

  lemma PayableIsReachable()
    ensures PaymentRuns.ReachableInTurn(Payable(), SALE)
  {
    hide PaymentRuns.ReachableInTurn, PaymentRuns.Do, Till;
    TillIsReachable();
    PaymentRuns.StepReaches(Till(), PaymentRuns.Database(Adversarial.Confirm(Letter(), 0)), SALE);
    PaymentRuns.StepReaches(Ordered(), PaymentRuns.PayOrder(1, 1, 5, 60, true), SALE);
  }

  /** A customer who pays within the minute loses the payment if the commit fails, and an unlucky pair of notices
      leaves the paid order with a failed record. */
  lemma PaymentsGoWrong()
    ensures exists t :: PaymentRuns.ReachableInTurn(t, SALE) && 1 in t.lost && PaymentRuns.IsPending(t, 1)
    ensures var good := Payment.CallbackRequest(1, 5, 100, true, 70);
            var t := PaymentRuns.Exec(Payable(), PaymentRuns.Race(good, good.(succeeded := false)));
            PaymentRuns.IsPaid(t, 1) && 1 in t.pays && t.pays[1].status == Payment.Failed
  {
    hide PaymentRuns.ReachableInTurn, PaymentRuns.Exec, Payable;
    PayableIsReachable();
    PayableFacts();
    var good := Payment.CallbackRequest(1, 5, 100, true, 70);
    PaymentRuns.FailedCommitLoses(Payable(), SALE, 1, good);
    PaymentRuns.RacingCallbacks(Payable(), 1, good, good.(succeeded := false));
  }

  /** Two success notices that tell different times of payment: the first one's commit fails, the second repairs it. */
  lemma LostAndRepaired()
    ensures exists t :: PaymentRuns.Reachable(t, SALE) && 1 in t.lost && PaymentRuns.IsPending(t, 1)
                        && PaymentRuns.IsPaid(PaymentRuns.Do(PaymentRuns.Do(t, PaymentRuns.WriteRecord(2)),
                                                             PaymentRuns.Commit(2, true)), 1)
  {
    hide PaymentRuns.ReachableInTurn, PaymentRuns.Reachable, PaymentRuns.Do, Payable, PaymentRuns.Inv;
    var one, two := Payment.CallbackRequest(1, 5, 100, true, 70), Payment.CallbackRequest(1, 5, 100, true, 80);
    PayableIsReachable();
    PayableFacts();
    PaymentRuns.InTurnIsCareful(Payable(), SALE);
    PaymentRuns.Reads(Payable(), 1, one);
    PaymentRuns.CarefulStepReaches(Payable(), PaymentRuns.ReadRecord(1, one), SALE);
    var a := PaymentRuns.Do(Payable(), PaymentRuns.ReadRecord(1, one));
    PaymentRuns.Reads(a, 2, two);
    PaymentRuns.CarefulStepReaches(a, PaymentRuns.ReadRecord(2, two), SALE);
    var b := PaymentRuns.Do(a, PaymentRuns.ReadRecord(2, two));
    PaymentRuns.WritesSuccess(b, 1);
    PaymentRuns.CarefulStepReaches(b, PaymentRuns.WriteRecord(1), SALE);
    var c := PaymentRuns.Do(b, PaymentRuns.WriteRecord(1));
    PaymentRuns.Commits(c, 1, false);
    PaymentRuns.CarefulStepReaches(c, PaymentRuns.Commit(1, false), SALE);
    var t := PaymentRuns.Do(c, PaymentRuns.Commit(1, false));
    PaymentRuns.StaleSuccessRepairs(t, SALE, 2);
  }

  // ---- two inviters ----

  function Inviter(user: Id): CouponIssue.GrantRequest {
    CouponIssue.GrantRequest(user, 0, CouponIssue.INVITE_NEW, false, 0, false, "")
  }

  function FirstInvitation(): CouponIssue.Grant {
    CouponIssue.GrantFor(Inviter(1), CouponIssue.INVITE_NEW, 0, Success(CouponIssue.GrantAnswer(0, false)))
  }

  function SecondInvitation(): CouponIssue.Grant {
    CouponIssue.GrantFor(Inviter(2), CouponIssue.INVITE_NEW, 9, Success(CouponIssue.GrantAnswer(0, true)))
  }

  function NoCoupons(): CouponIssue.Tables {
    CouponIssue.Tables(map[], map[], 0, 0)
  }

  function OneCoupon(): CouponIssue.Tables {
    CouponIssue.WithCoupon(CouponIssue.WithTemplate(NoCoupons(), FirstInvitation().template), 0,
                           CouponIssue.RowFor(FirstInvitation(), 0))
  }

  /** On an empty table two users invite one after the other: the second is shown the coupon of the first. */
  lemma SecondInviterGetsNothing()
    ensures CouponIssue.Opening(NoCoupons())
    ensures CouponIssue.History([NoCoupons(), OneCoupon(), OneCoupon()],
                                [CouponIssue.GrantCoupon(FirstInvitation()),
                                 CouponIssue.GrantCoupon(SecondInvitation())])
    ensures 0 in OneCoupon().coupons && OneCoupon().coupons[0].user == 1
  {
    var a, b := FirstInvitation(), SecondInvitation();
    CouponIssue.DefaultKeysAgreeIff(Inviter(1), Inviter(2), CouponIssue.INVITE_NEW, CouponIssue.INVITE_NEW);
    assert a.key == b.key && a.template == b.template;
    assert !CouponIssue.Issued(NoCoupons(), a.key) && !CouponIssue.OnFile(NoCoupons(), a.template);
    assert CouponIssue.Granted(NoCoupons(), a, OneCoupon());
    assert CouponIssue.Granted(OneCoupon(), b, OneCoupon());
  }
}
