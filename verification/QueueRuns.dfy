/** The delayed-cancellation queue among everything that runs beside it: any number of scanners whose clocks need
    not agree, workers that are slow, fail or crash, consumers that add orders, and any other database traffic. */
module QueueRuns {
  import opened Wrappers
  import opened Entities
  import opened MysqlRepo
  import opened DelayQueue
  import Adversarial

  /** A goroutine handling one claimed order: cancelling it, then removing it from the processing set. */
  datatype Worker = Cancelling(no: OrderNo) | Acknowledging(no: OrderNo)

  datatype Timers = Timers(
    tables: Adversarial.DbRun,
    queue: Queue,
    toAdd: set<OrderNo>,              // orders committed by consumers that have not called Add yet
    handed: set<OrderNo>,             // claimed by a scanner and perhaps not dispatched yet
    workers: map<nat, Worker>,
    // histories
    due: map<OrderNo, int>,           // Adds that took effect, with the time asked for
    claims: set<(OrderNo, int)>,      // claims, with the claiming scanner's clock
    autoCancelled: set<OrderNo>,      // orders a worker turned from Pending to Cancel
    latest: int)                      // no scanner clock or claim deadline so far is later

  datatype Step =
    | Database(step: Adversarial.DbStep)
    | Add(no: OrderNo, dueAt: int)
    | AddNever(no: OrderNo)
    | Requeue(now: int)
    | Claim(now: int, expireAt: int)
    | Dispatch(worker: nat, no: OrderNo)
    | WorkerCancels(worker: nat)
    | WorkerEnds(worker: nat)         // it fails, finds the lock busy, or its process dies
    | Acknowledge(worker: nat)

  function Latest(a: int, b: int): int { if a < b then b else a }

  ghost function Committed(db: Mysql, step: Adversarial.DbStep): set<OrderNo> {
    if step.Confirm? && ConfirmTx(db, step.m, step.now).Success? then {step.m.orderNo} else {}
  }

  ghost function DoDatabase(s: Timers, step: Adversarial.DbStep): Timers {
    s.(tables := Adversarial.Do(s.tables, step), toAdd := s.toAdd + Committed(s.tables.db, step))
  }

  function DoAdd(s: Timers, no: OrderNo, dueAt: int): Timers {
    if no in s.toAdd then
      s.(toAdd := s.toAdd - {no}, queue := s.queue.(main := s.queue.main[no := dueAt]), due := s.due[no := dueAt])
    else s
  }

  function DoRequeue(s: Timers, now: int): Timers {
    s.(queue := Requeued(s.queue, now, BATCH_SIZE), latest := Latest(s.latest, now))
  }

  function Firings(items: seq<OrderNo>, now: int): set<(OrderNo, int)> {
    set no | no in items :: (no, now)
  }

  /** The claim deadline is computed from a clock reading no earlier than the one the script compares with. */
  function DoClaim(s: Timers, now: int, expireAt: int): Timers {
    if expireAt < now then s
    else
      var (queue, items) := Claimed(s.queue, now, expireAt, BATCH_SIZE);
      s.(queue := queue, handed := s.handed + Members(items), claims := s.claims + Firings(items, now),
      latest := Latest(s.latest, expireAt))
  }

  function DoDispatch(s: Timers, worker: nat, no: OrderNo): Timers {
    if no in s.handed && worker !in s.workers then s.(workers := s.workers[worker := Cancelling(no)]) else s
  }

  /** handleTimeout without an error: the cancellation committed, or found the order no longer Pending. */
  ghost function DoWorkerCancels(s: Timers, worker: nat): Timers {
    if worker in s.workers && s.workers[worker].Cancelling? then
      var no := s.workers[worker].no;
      match CancelTx(s.tables.db, no)
      case Failure(_) => s.(workers := s.workers - {worker})
      case Success((_, order)) =>
        s.(tables := Adversarial.Do(s.tables, Adversarial.CancelOrder(no)),
        workers := s.workers[worker := Acknowledging(no)],
        autoCancelled := if order.status == Pending then s.autoCancelled + {no} else s.autoCancelled)
    else s
  }

  function DoAcknowledge(s: Timers, worker: nat): Timers {
    if worker in s.workers && s.workers[worker].Acknowledging? then
      s.(queue := s.queue.(processing := s.queue.processing - {s.workers[worker].no}), workers := s.workers - {worker})
    else s
  }

  ghost function Do(s: Timers, step: Step): Timers {
    match step
    case Database(step) => DoDatabase(s, step)
    case Add(no, dueAt) => DoAdd(s, no, dueAt)
    case AddNever(no) => s.(toAdd := s.toAdd - {no})
    case Requeue(now) => DoRequeue(s, now)
    case Claim(now, expireAt) => DoClaim(s, now, expireAt)
    case Dispatch(worker, no) => DoDispatch(s, worker, no)
    case WorkerCancels(worker) => DoWorkerCancels(s, worker)
    case WorkerEnds(worker) => s.(workers := s.workers - {worker})
    case Acknowledge(worker) => DoAcknowledge(s, worker)
  }

  ghost function Exec(s: Timers, steps: seq<Step>): Timers
    decreases |steps|
  {
    if steps == [] then s else Exec(Do(s, steps[0]), steps[1..])
  }

  ghost predicate Opening(s: Timers, onSale: map<Id, Offer>) {
    && Adversarial.Opening(s.tables, onSale)
    && s.queue == Queue(map[], map[]) && s.toAdd == {} && s.handed == {} && s.workers == map[]
    && s.due == map[] && s.claims == {} && s.autoCancelled == {}
  }

  // ---- the invariant ----

  predicate Finished(s: Timers, no: OrderNo) {
    no in s.tables.db.orders && s.tables.db.orders[no].status != Pending
  }

  /** A score lies between the time asked for and the latest time anybody has seen. */
  predicate ScoreOk(z: SortedSet, no: OrderNo, due: int, latest: int) {
    no in z ==> due <= z[no] <= Latest(due, latest)
  }

  predicate TimerOk(s: Timers, no: OrderNo) {
    if no in s.due then
      && no in s.tables.db.orders && no !in s.toAdd
      && !(no in s.queue.main && no in s.queue.processing)
      && (no in s.queue.main || no in s.queue.processing || Finished(s, no))
      && ScoreOk(s.queue.main, no, s.due[no], s.latest)
      && ScoreOk(s.queue.processing, no, s.due[no], s.latest)
    else
      && no !in s.queue.main && no !in s.queue.processing && no !in s.handed
      && (no in s.toAdd ==> no in s.tables.db.orders)
  }

  ghost predicate FiredOnTime(s: Timers, no: OrderNo) {
    no in s.due && exists at :: (no, at) in s.claims && s.due[no] <= at
  }

  ghost predicate ClaimsOk(s: Timers) {
    && (forall c :: c in s.claims ==> c.0 in s.due && s.due[c.0] <= c.1)
    && (forall no :: no in s.handed ==> FiredOnTime(s, no))
    && (forall no :: no in s.autoCancelled ==> FiredOnTime(s, no))
  }

  predicate WorkersOk(s: Timers) {
    forall w :: w in s.workers ==>
                  && s.workers[w].no in s.handed
                  && (s.workers[w].Acknowledging? ==> Finished(s, s.workers[w].no))
  }

  ghost predicate TimersOk(s: Timers) {
    forall no :: TimerOk(s, no)
  }

  ghost predicate Inv(s: Timers, onSale: map<Id, Offer>) {
    Adversarial.Inv(s.tables, onSale) && TimersOk(s) && ClaimsOk(s) && WorkersOk(s)
  }

  // ---- every step keeps it ----

  /** Orders that stay finished and rows that stay keep the timers. */
  lemma TablesEvolve(s: Timers, t: Timers)
    requires TimersOk(s) && ClaimsOk(s) && WorkersOk(s)
    requires t == s.(tables := t.tables) && Adversarial.Evolves(s.tables.db.orders, t.tables.db.orders)
    ensures TimersOk(t) && ClaimsOk(t) && WorkersOk(t)
  {
    forall no | no in s.tables.db.orders
      ensures no in t.tables.db.orders && (Finished(s, no) ==> Finished(t, no))
    {
    }
    forall no
      ensures TimerOk(t, no)
    {
      assert TimerOk(s, no);
    }
    forall no | FiredOnTime(s, no)
      ensures FiredOnTime(t, no)
    {
    }
  }

  lemma DatabaseKeeps(s: Timers, step: Adversarial.DbStep, onSale: map<Id, Offer>)
    requires Inv(s, onSale)
    ensures Inv(DoDatabase(s, step), onSale)
  {
    var t := s.(tables := Adversarial.Do(s.tables, step));
    Adversarial.StepKeepsInv(s.tables, step, onSale);
    TablesEvolve(s, t);
    hide Adversarial.Inv, Adversarial.Evolves, TimerOk;
    if Committed(s.tables.db, step) != {} {
      OrderCommitted(s, t, step.m, step.now);
    } else {
      assert DoDatabase(s, step) == t;
    }
  }

  /** A committed order is a new one, so nobody has added it before. */
  lemma OrderCommitted(s: Timers, t: Timers, m: Message, now: int)
    requires TimersOk(s) && TimersOk(t) && ClaimsOk(t) && WorkersOk(t)
    requires ConfirmTx(s.tables.db, m, now).Success?
    requires t == s.(tables := Adversarial.Do(s.tables, Adversarial.Confirm(m, now)))
    ensures var u := t.(toAdd := t.toAdd + {m.orderNo});
            TimersOk(u) && ClaimsOk(u) && WorkersOk(u)
  {
    var u := t.(toAdd := t.toAdd + {m.orderNo});
    assert TimerOk(s, m.orderNo);
    assert m.orderNo in t.tables.db.orders;
    forall no
      ensures TimerOk(u, no)
    {
      assert TimerOk(t, no);
    }
    forall no | FiredOnTime(t, no)
      ensures FiredOnTime(u, no)
    {
    }
  }

  lemma AddKeeps(s: Timers, no: OrderNo, dueAt: int, onSale: map<Id, Offer>)
    requires Inv(s, onSale)
    ensures Inv(DoAdd(s, no, dueAt), onSale)
  {
    hide Adversarial.Inv;
    var t := DoAdd(s, no, dueAt);
    assert TimerOk(s, no);
    forall o
      ensures TimerOk(t, o)
    {
      assert TimerOk(s, o);
    }
    if no in s.toAdd {
      forall o | FiredOnTime(s, o)
        ensures FiredOnTime(t, o)
      {
        var at :| (o, at) in s.claims && s.due[o] <= at;
        assert o != no && (o, at) in t.claims;
      }
    }
  }

  lemma AddNeverKeeps(s: Timers, no: OrderNo, onSale: map<Id, Offer>)
    requires Inv(s, onSale)
    ensures Inv(s.(toAdd := s.toAdd - {no}), onSale)
  {
    hide Adversarial.Inv;
    var t := s.(toAdd := s.toAdd - {no});
    forall o
      ensures TimerOk(t, o)
    {
      assert TimerOk(s, o);
    }
    SameHistory(s, t);
  }

  lemma SameHistory(s: Timers, t: Timers)
    requires ClaimsOk(s)
    requires t.due == s.due && t.claims == s.claims && t.handed == s.handed && t.autoCancelled == s.autoCancelled
    ensures ClaimsOk(t)
  {
    forall no | FiredOnTime(s, no)
      ensures FiredOnTime(t, no)
    {
    }
  }

  lemma RequeueTimer(s: Timers, now: int, no: OrderNo)
    requires TimerOk(s, no)
    ensures TimerOk(DoRequeue(s, now), no)
  {
    hide RangeByScore, Members, Scored, Due;
    var items := RangeByScore(s.queue.processing, now, BATCH_SIZE);
    RangeIsDistinct(s.queue.processing, now, BATCH_SIZE);
    MovedMember(s.queue.processing, s.queue.main, items, now, now, no);
  }

  lemma ClaimTimer(s: Timers, now: int, expireAt: int, no: OrderNo)
    requires TimerOk(s, no)
    ensures TimerOk(DoClaim(s, now, expireAt), no)
  {
    hide RangeByScore, Members, Scored, Due;
    var items := RangeByScore(s.queue.main, now, BATCH_SIZE);
    RangeIsDistinct(s.queue.main, now, BATCH_SIZE);
    MovedMember(s.queue.main, s.queue.processing, items, expireAt, now, no);
    assert no in Members(items) ==> no in items by {
      MembersAre(items);
    }
  }

  lemma MembersAre(items: seq<OrderNo>)
    ensures forall no :: no in Members(items) <==> no in items
  {
  }

  lemma RequeueKeeps(s: Timers, now: int, onSale: map<Id, Offer>)
    requires Inv(s, onSale)
    ensures Inv(DoRequeue(s, now), onSale)
  {
    hide Adversarial.Inv, TimerOk;
    forall no
      ensures TimerOk(DoRequeue(s, now), no)
    {
      RequeueTimer(s, now, no);
    }
    SameHistory(s, DoRequeue(s, now));
  }

  /** A claimed order is claimed at its score or later, and its score is never before its due time. */
  lemma ClaimedOnTime(s: Timers, now: int, no: OrderNo)
    requires TimerOk(s, no) && no in RangeByScore(s.queue.main, now, BATCH_SIZE)
    ensures no in s.due && s.due[no] <= now
  {
    RangeIsDistinct(s.queue.main, now, BATCH_SIZE);
    assert no in Members(RangeByScore(s.queue.main, now, BATCH_SIZE));
  }

  lemma ClaimHistory(s: Timers, now: int, expireAt: int)
    requires TimersOk(s) && ClaimsOk(s)
    ensures ClaimsOk(DoClaim(s, now, expireAt))
  {
    hide RangeByScore, Scored;
    var t := DoClaim(s, now, expireAt);
    var items := RangeByScore(s.queue.main, now, BATCH_SIZE);
    forall no | no in items
      ensures no in s.due && s.due[no] <= now
    {
      assert TimerOk(s, no);
      ClaimedOnTime(s, now, no);
    }
    if now <= expireAt {
      forall no | FiredOnTime(s, no)
        ensures FiredOnTime(t, no)
      {
        var at :| (no, at) in s.claims && s.due[no] <= at;
        assert (no, at) in t.claims;
      }
      forall no | no in items
        ensures FiredOnTime(t, no)
      {
        assert (no, now) in t.claims;
      }
    }
  }

  lemma ClaimKeeps(s: Timers, now: int, expireAt: int, onSale: map<Id, Offer>)
    requires Inv(s, onSale)
    ensures Inv(DoClaim(s, now, expireAt), onSale)
  {
    hide Adversarial.Inv, TimerOk;
    forall no
      ensures TimerOk(DoClaim(s, now, expireAt), no)
    {
      ClaimTimer(s, now, expireAt, no);
    }
    ClaimHistory(s, now, expireAt);
  }

  lemma DispatchKeeps(s: Timers, worker: nat, no: OrderNo, onSale: map<Id, Offer>)
    requires Inv(s, onSale)
    ensures Inv(DoDispatch(s, worker, no), onSale)
  {
    hide Adversarial.Inv;
    var t := DoDispatch(s, worker, no);
    forall o
      ensures TimerOk(t, o)
    {
      assert TimerOk(s, o);
    }
    SameHistory(s, t);
  }

  lemma WorkerEndsKeeps(s: Timers, worker: nat, onSale: map<Id, Offer>)
    requires Inv(s, onSale)
    ensures Inv(s.(workers := s.workers - {worker}), onSale)
  {
    hide Adversarial.Inv;
    var t := s.(workers := s.workers - {worker});
    forall o
      ensures TimerOk(t, o)
    {
      assert TimerOk(s, o);
    }
    SameHistory(s, t);
  }

  lemma WorkerCancelsKeeps(s: Timers, worker: nat, onSale: map<Id, Offer>)
    requires Inv(s, onSale)
    ensures Inv(DoWorkerCancels(s, worker), onSale)
  {
    if worker in s.workers && s.workers[worker].Cancelling? {
      var no := s.workers[worker].no;
      if CancelTx(s.tables.db, no).Failure? {
        WorkerEndsKeeps(s, worker, onSale);
      } else {
        var mid := s.(tables := Adversarial.Do(s.tables, Adversarial.CancelOrder(no)));
        Adversarial.StepKeepsInv(s.tables, Adversarial.CancelOrder(no), onSale);
        TablesEvolve(s, mid);
        assert Finished(mid, no);
        CancelReported(mid, DoWorkerCancels(s, worker), worker);
      }
    }
  }

  lemma CancelReported(s: Timers, t: Timers, worker: nat)
    requires TimersOk(s) && ClaimsOk(s) && WorkersOk(s)
    requires worker in s.workers && Finished(s, s.workers[worker].no)
    requires t == s.(workers := s.workers[worker := Acknowledging(s.workers[worker].no)],
                  autoCancelled := t.autoCancelled)
    requires t.autoCancelled <= s.autoCancelled + {s.workers[worker].no}
    ensures TimersOk(t) && ClaimsOk(t) && WorkersOk(t)
  {
    forall o
      ensures TimerOk(t, o)
    {
      assert TimerOk(s, o);
    }
    forall no | FiredOnTime(s, no)
      ensures FiredOnTime(t, no)
    {
    }
  }

  lemma AcknowledgeKeeps(s: Timers, worker: nat, onSale: map<Id, Offer>)
    requires Inv(s, onSale)
    ensures Inv(DoAcknowledge(s, worker), onSale)
  {
    hide Adversarial.Inv;
    var t := DoAcknowledge(s, worker);
    forall o
      ensures TimerOk(t, o)
    {
      assert TimerOk(s, o);
    }
    SameHistory(s, t);
  }

  lemma StepKeeps(s: Timers, step: Step, onSale: map<Id, Offer>)
    requires Inv(s, onSale)
    ensures Inv(Do(s, step), onSale)
  {
    hide Inv;
    match step
    case Database(step) => DatabaseKeeps(s, step, onSale);
    case Add(no, dueAt) => AddKeeps(s, no, dueAt, onSale);
    case AddNever(no) => AddNeverKeeps(s, no, onSale);
    case Requeue(now) => RequeueKeeps(s, now, onSale);
    case Claim(now, expireAt) => ClaimKeeps(s, now, expireAt, onSale);
    case Dispatch(worker, no) => DispatchKeeps(s, worker, no, onSale);
    case WorkerCancels(worker) => WorkerCancelsKeeps(s, worker, onSale);
    case WorkerEnds(worker) => WorkerEndsKeeps(s, worker, onSale);
    case Acknowledge(worker) => AcknowledgeKeeps(s, worker, onSale);
  }

  lemma {:induction false} RunKeeps(s: Timers, steps: seq<Step>, onSale: map<Id, Offer>)
    requires Inv(s, onSale)
    ensures Inv(Exec(s, steps), onSale)
    decreases |steps|
  {
    hide Inv, Do;
    if steps != [] {
      StepKeeps(s, steps[0], onSale);
      RunKeeps(Do(s, steps[0]), steps[1..], onSale);
    }
  }

  ghost predicate Reachable(s: Timers, onSale: map<Id, Offer>) {
    exists opening, steps :: Opening(opening, onSale) && s == Exec(opening, steps)
  }

  lemma ReachableInv(s: Timers, onSale: map<Id, Offer>)
    requires Reachable(s, onSale)
    ensures Inv(s, onSale)
  {
    hide Inv, Do;
    var opening, steps :| Opening(opening, onSale) && s == Exec(opening, steps);
    OpeningInv(opening, onSale);
    RunKeeps(opening, steps, onSale);
  }

  lemma OpeningInv(s: Timers, onSale: map<Id, Offer>)
    requires Opening(s, onSale)
    ensures Inv(s, onSale)
  {
    Adversarial.OpeningInv(s.tables, onSale);
  }

  // ---- what the queue promises ----

  /** Nothing is lost or doubled: an order whose Add took effect is in exactly one of the two sets, or no longer
      Pending; and it is never in both. */
  lemma QueueLosesNothing(s: Timers, onSale: map<Id, Offer>, no: OrderNo)
    requires Reachable(s, onSale) && no in s.due
    ensures no in s.tables.db.orders
    ensures s.tables.db.orders[no].status == Pending ==> (no in s.queue.main <==> no !in s.queue.processing)
    ensures !(no in s.queue.main && no in s.queue.processing)
  {
    ReachableInv(s, onSale);
    assert TimerOk(s, no);
  }

  /** No order is claimed before its original due time by the claiming scanner's clock, though requeueing rewrites
      scores; so no worker ever cancels an order that was not claimed on time. */
  lemma NothingFiresEarly(s: Timers, onSale: map<Id, Offer>)
    requires Reachable(s, onSale)
    ensures forall no, at :: (no, at) in s.claims ==> no in s.due && s.due[no] <= at
    ensures forall no :: no in s.autoCancelled ==> FiredOnTime(s, no)
  {
    ReachableInv(s, onSale);
    forall no, at | (no, at) in s.claims
      ensures no in s.due && s.due[no] <= at
    {
      assert (no, at).0 == no;
    }
  }

  /** Once a clock has passed an order's due time and every deadline set so far, a scan at that time still has
      the order among its work unless it is settled: whatever crashed or stalled before, it will be claimed. */
  lemma UnsettledOrdersComeUp(s: Timers, onSale: map<Id, Offer>, no: OrderNo, now: int)
    requires Reachable(s, onSale) && no in s.due && no in s.tables.db.orders
    requires s.tables.db.orders[no].status == Pending && s.due[no] <= now && s.latest <= now
    ensures Apart(s.queue) && no in Work(s.queue, now)
  {
    hide Inv, Reachable, Apart, Work, Finished;
    InvAtTimer(s, onSale, no);
    TimersAreApart(s);
    UnsettledIsWork(s, no, now);
  }

  lemma InvAtTimer(s: Timers, onSale: map<Id, Offer>, no: OrderNo)
    requires Reachable(s, onSale) && no in s.due
    ensures TimersOk(s) && TimerOk(s, no)
    ensures no in s.tables.db.orders ==> (s.tables.db.orders[no].status == Pending <==> !Finished(s, no))
  {
    ReachableInv(s, onSale);
  }

  lemma UnsettledIsWork(s: Timers, no: OrderNo, now: int)
    requires TimerOk(s, no) && no in s.due && !Finished(s, no)
    requires s.due[no] <= now && s.latest <= now
    ensures no in Work(s.queue, now)
  {
  }

  lemma TimersAreApart(s: Timers)
    requires TimersOk(s)
    ensures Apart(s.queue)
  {
    forall o
      ensures !(o in s.queue.main && o in s.queue.processing)
    {
      assert TimerOk(s, o);
    }
  }
}
