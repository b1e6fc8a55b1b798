/** Orders and payment records together, over every interleaving of pay requests, callbacks, cancellations and other
    database traffic. A callback reads the record before it locks the order, writes the record while it holds the
    lock, and only then commits the order; the commit may fail. */
module PaymentRuns {
  import opened Wrappers
  import opened Entities
  import opened MysqlRepo
  import opened Payment
  import Adversarial

  /** A callback under way: its record read and found not final, or its record written and the order still locked. */
  datatype Callback = HasRead(req: CallbackRequest) | HasWritten(req: CallbackRequest)

  datatype Till = Till(
    tables: Adversarial.DbRun,
    pays: PayTable,
    callbacks: map<nat, Callback>,
    locked: set<OrderNo>,             // orders a callback holds locked between its payment write and its commit
    // histories
    answers: set<(OrderNo, PayAnswer)>,
    received: set<OrderNo>,           // orders whose payment has been noted as a success
    lost: set<OrderNo>)               // of these, the ones whose commit failed and that nothing has put right since

  datatype Step =
    | Database(step: Adversarial.DbStep)
    | PayOrder(no: OrderNo, user: Id, drawn: PayNo, now: int, ok: bool)
    | ReadRecord(caller: nat, req: CallbackRequest)
    | WriteRecord(caller: nat)
    | Commit(caller: nat, ok: bool)
    | GiveUp(caller: nat)

  /** Orders are paid by callbacks only, and a locked row makes a cancellation wait. */
  predicate Admissible(s: Till, step: Adversarial.DbStep) {
    !step.Pay? && !(step.CancelOrder? && step.no in s.locked)
  }

  ghost function DoPayOrder(s: Till, no: OrderNo, user: Id, drawn: PayNo, now: int, ok: bool): Till {
    if no in s.locked then s
    else
      var (pays, res) := Charged(s.tables.db.orders, s.pays, no, user, drawn, now);
      s.(pays := pays, answers := if res.Success? && ok then s.answers + {(no, res.value)} else s.answers)
  }

  ghost function DoReadRecord(s: Till, caller: nat, req: CallbackRequest): Till {
    if caller !in s.callbacks
       && ReadVerdict(s.pays, req) == Success(None) then s.(callbacks := s.callbacks[caller := HasRead(req)]) else s
  }

  function DoWriteRecord(s: Till, caller: nat): Till {
    if caller in s.callbacks && s.callbacks[caller].HasRead? && s.callbacks[caller].req.orderNo !in s.locked then
      var req := s.callbacks[caller].req;
      if req.orderNo !in s.tables.db.orders then s.(callbacks := s.callbacks - {caller})
      else
        var (status, answer) := LockedVerdict(s.tables.db.orders[req.orderNo].status, req.succeeded);
        var noted := Noted(s.pays, req, status);
        if noted == s.pays then s.(callbacks := s.callbacks - {caller})
        else
          var t := if req.succeeded
                   then s.(pays := noted, received := s.received + {req.orderNo}, lost := s.lost - {req.orderNo})
                   else s.(pays := noted);
          if answer == PaymentSuccess
          then t.(callbacks := s.callbacks[caller := HasWritten(req)], locked := s.locked + {req.orderNo})
          else t.(callbacks := s.callbacks - {caller})
    else s
  }

  ghost function DoCommit(s: Till, caller: nat, ok: bool): Till {
    if caller in s.callbacks && s.callbacks[caller].HasWritten? then
      var no := s.callbacks[caller].req.orderNo;
      var unlocked := s.(callbacks := s.callbacks - {caller}, locked := s.locked - {no});
      if ok then unlocked.(tables := Adversarial.Do(s.tables, Adversarial.Pay(no)))
      else unlocked.(lost := s.lost + {no})
    else s
  }

  ghost function Do(s: Till, step: Step): Till {
    match step
    case Database(step) => if Admissible(s, step) then s.(tables := Adversarial.Do(s.tables, step)) else s
    case PayOrder(no, user, drawn, now, ok) => DoPayOrder(s, no, user, drawn, now, ok)
    case ReadRecord(caller, req) => DoReadRecord(s, caller, req)
    case WriteRecord(caller) => DoWriteRecord(s, caller)
    case Commit(caller, ok) => DoCommit(s, caller, ok)
    case GiveUp(caller) => if caller in s.callbacks
                              && s.callbacks[caller].HasRead? then s.(callbacks := s.callbacks - {caller}) else s
  }

  ghost function Exec(s: Till, steps: seq<Step>): Till
    decreases |steps|
  {
    if steps == [] then s else Exec(Do(s, steps[0]), steps[1..])
  }

  /** Some callback for the order is under way. */
  ghost predicate Busy(s: Till, no: OrderNo) {
    exists c :: c in s.callbacks && s.callbacks[c].req.orderNo == no
  }

  /** The assumption on deliveries: no callback for an order starts before the previous one has ended. */
  ghost predicate InTurn(s: Till, step: Step) {
    step.ReadRecord? ==> !Busy(s, step.req.orderNo)
  }

  ghost predicate Serial(s: Till, steps: seq<Step>)
    decreases |steps|
  {
    steps != [] ==> InTurn(s, steps[0]) && Serial(Do(s, steps[0]), steps[1..])
  }

  /** What is really needed, whoever overlaps: no failure is written over a success that came in since the record
      was read. */
  predicate Careful(s: Till, step: Step) {
    step.WriteRecord? && step.caller in s.callbacks && s.callbacks[step.caller].req.orderNo in s.pays ==>
      || s.callbacks[step.caller].req.succeeded
      || !Final(s.pays[s.callbacks[step.caller].req.orderNo].status)
      || DoWriteRecord(s, step.caller).pays == s.pays
  }

  ghost predicate CarefulRun(s: Till, steps: seq<Step>)
    decreases |steps|
  {
    steps != [] ==> Careful(s, steps[0]) && CarefulRun(Do(s, steps[0]), steps[1..])
  }

  ghost predicate Opening(s: Till, onSale: map<Id, Offer>) {
    && Adversarial.Opening(s.tables, onSale)
    && s.pays == map[] && s.callbacks == map[] && s.locked == {} && s.answers == {} && s.received == {} && s.lost == {}
  }

  // ---- the invariant ----

  predicate IsPaid(s: Till, no: OrderNo) {
    no in s.tables.db.orders && s.tables.db.orders[no].status == Paid
  }

  /** A record belongs to an order, and carries the order's buyer and amount. */
  predicate RecordOk(s: Till, no: OrderNo) {
    no in s.pays ==>
      && no in s.tables.db.orders
      && s.pays[no].user == s.tables.db.orders[no].claim.user
      && s.pays[no].amount == s.tables.db.orders[no].money.finalAmount
      && (s.pays[no].status == SucceededButCanceled ==> s.tables.db.orders[no].status == Cancel)
  }

  /** The record says SUCCESS exactly when the order is Paid, is about to be, or was about to be and its commit failed;
      and it shows a success status exactly when a success has come in. */
  predicate SuccessOk(s: Till, no: OrderNo) {
    && ((no in s.pays && s.pays[no].status == Succeeded) <==> (IsPaid(s, no) || no in s.locked || no in s.lost))
    && (no in s.locked ==> no !in s.lost && no in s.tables.db.orders && s.tables.db.orders[no].status == Pending)
    && (no in s.lost ==> !IsPaid(s, no))
    && (no in s.received <==> no in s.pays && Final(s.pays[no].status))
  }

  predicate OrderOk(s: Till, no: OrderNo) {
    RecordOk(s, no) && SuccessOk(s, no)
  }

  predicate CallbackOk(s: Till, c: nat) {
    c in s.callbacks ==>
      && var req := s.callbacks[c].req;
      && req.orderNo in s.pays && s.pays[req.orderNo].number == req.number && s.pays[req.orderNo].amount == req.amount
      && (s.callbacks[c].HasWritten? ==> req.orderNo in s.locked)
  }

  ghost predicate CallbacksOk(s: Till) {
    && (forall c :: CallbackOk(s, c))
    && (forall c, d | c in s.callbacks && d in s.callbacks && c != d && s.callbacks[c].HasWritten?
                      && s.callbacks[d].HasWritten? :: s.callbacks[c].req.orderNo != s.callbacks[d].req.orderNo)
  }

  predicate NumbersOk(pays: PayTable) {
    forall a, b | a in pays && b in pays && a != b :: pays[a].number != pays[b].number
  }

  predicate AnswersOk(s: Till) {
    forall a :: a in s.answers ==> a.0 in s.pays && s.pays[a.0].number == a.1.number && s.pays[a.0].amount == a.1.amount
  }

  ghost predicate OrdersOk(s: Till) {
    forall no :: OrderOk(s, no)
  }

  ghost predicate Inv(s: Till, onSale: map<Id, Offer>) {
    Adversarial.Inv(s.tables, onSale) && OrdersOk(s) && CallbacksOk(s) && NumbersOk(s.pays) && AnswersOk(s)
  }

  /** What taking turns adds: an order has one callback at a time, and its record is as the callback read it. */
  ghost predicate TurnsOk(s: Till) {
    && (forall c :: c in s.callbacks && s.callbacks[c].HasRead? && s.callbacks[c].req.orderNo in s.pays ==>
                      !Final(s.pays[s.callbacks[c].req.orderNo].status))
    && (forall c, d | c in s.callbacks && d in s.callbacks && c != d ::
          s.callbacks[c].req.orderNo != s.callbacks[d].req.orderNo)
  }

  /** What a payment record may become: it is never deleted, keeps its number, buyer and amount. */
  ghost predicate PaysKept(before: PayTable, after: PayTable) {
    forall no :: no in before ==>
                   && no in after
                   && after[no] == before[no].(status := after[no].status, payTime := after[no].payTime)
  }

  ghost predicate FinalsKept(before: PayTable, after: PayTable) {
    forall no :: no in before && Final(before[no].status) ==> no in after && after[no] == before[no]
  }

  // ---- every step keeps it ----

  /** A row changes only by being paid or cancelled itself, and nothing but a payment makes an order Paid. */
  lemma RowAfter(s: Adversarial.DbRun, step: Adversarial.DbStep, no: OrderNo)
    requires !step.Pay?
    ensures var before, after := s.db.orders, Adversarial.Do(s, step).db.orders;
            && (no in before ==> no in after && (after[no] == before[no] || after[no] == before[no].(status := Cancel)))
            && (no in before && before[no].status == Paid ==> after[no] == before[no])
            && (no in before && step != Adversarial.CancelOrder(no) ==> after[no] == before[no])
            && (no in after && no !in before ==> after[no].status == Pending)
  {
    hide Clashes;
  }

  lemma DatabaseOrder(s: Till, step: Adversarial.DbStep, no: OrderNo)
    requires OrderOk(s, no) && Admissible(s, step)
    ensures OrderOk(s.(tables := Adversarial.Do(s.tables, step)), no)
  {
    RowAfter(s.tables, step, no);
    hide Adversarial.Do;
  }

  lemma DatabaseKeeps(s: Till, step: Adversarial.DbStep, onSale: map<Id, Offer>)
    requires Inv(s, onSale) && Admissible(s, step)
    ensures Inv(s.(tables := Adversarial.Do(s.tables, step)), onSale)
  {
    var t := s.(tables := Adversarial.Do(s.tables, step));
    Adversarial.StepKeepsInv(s.tables, step, onSale);
    hide Adversarial.Inv, Adversarial.Do, Adversarial.Evolves, OrderOk, Admissible;
    forall no
      ensures OrderOk(t, no)
    {
      DatabaseOrder(s, step, no);
    }
    hide CallbacksOk, AnswersOk, NumbersOk;
    OnlyTablesChanged(s, t);
  }

  lemma OnlyTablesChanged(s: Till, t: Till)
    requires t == s.(tables := t.tables)
    ensures CallbacksOk(s) ==> CallbacksOk(t)
    ensures AnswersOk(s) ==> AnswersOk(t)
  {
    if CallbacksOk(s) {
      forall c
        ensures CallbackOk(t, c)
      {
        assert CallbackOk(s, c);
      }
    }
  }

  lemma ChargedOne(orders: map<OrderNo, Order>, pays: PayTable, no: OrderNo, user: Id, drawn: PayNo, now: int)
    requires NumbersOk(pays)
    ensures var (after, res) := Charged(orders, pays, no, user, drawn, now);
            && (after == pays ||
                (no in orders && no !in pays
                 && after == pays[no := PayRow(drawn, orders[no].claim.user, orders[no].money.finalAmount, Created,
                                               None)]))
            && NumbersOk(after)
            && (res.Success? ==> no in after && no in orders
                                 && res.value == PayAnswer(after[no].number, orders[no].money.finalAmount))
  {
  }

  lemma PayOrderKeeps(s: Till, no: OrderNo, user: Id, drawn: PayNo, now: int, ok: bool, onSale: map<Id, Offer>)
    requires Inv(s, onSale)
    ensures Inv(DoPayOrder(s, no, user, drawn, now, ok), onSale)
    ensures PaysKept(s.pays, DoPayOrder(s, no, user, drawn, now, ok).pays)
    ensures FinalsKept(s.pays, DoPayOrder(s, no, user, drawn, now, ok).pays)
  {
    hide Adversarial.Inv, Charged, NumbersOk;
    ChargedOne(s.tables.db.orders, s.pays, no, user, drawn, now);
    var t := DoPayOrder(s, no, user, drawn, now, ok);
    assert OrderOk(s, no);
    forall o
      ensures OrderOk(t, o)
    {
      assert OrderOk(s, o);
    }
    forall c
      ensures CallbackOk(t, c)
    {
      assert CallbackOk(s, c);
    }
  }

  lemma ReadRecordKeeps(s: Till, caller: nat, req: CallbackRequest, onSale: map<Id, Offer>)
    requires Inv(s, onSale)
    ensures Inv(DoReadRecord(s, caller, req), onSale)
  {
    hide Adversarial.Inv, NumbersOk, NumberTaken;
    var t := DoReadRecord(s, caller, req);
    forall o
      ensures OrderOk(t, o)
    {
      assert OrderOk(s, o);
    }
    forall c
      ensures CallbackOk(t, c)
    {
      assert CallbackOk(s, c);
    }
  }

  /** A callback that ends leaves the others as they were. */
  lemma CallbackEnds(s: Till, t: Till, caller: nat)
    requires CallbacksOk(s) && caller in s.callbacks && t.pays == s.pays && t.callbacks == s.callbacks - {caller}
    requires t.locked == s.locked
             || (s.callbacks[caller].HasWritten? && t.locked == s.locked - {s.callbacks[caller].req.orderNo})
    ensures CallbacksOk(t)
  {
    forall c
      ensures CallbackOk(t, c)
    {
      assert CallbackOk(s, c);
    }
  }

  /** One order, when a callback writes its record down: exactly a careful write leaves it in order. */
  lemma NotedHere(s: Till, caller: nat)
    requires caller in s.callbacks && s.callbacks[caller].HasRead? && OrderOk(s, s.callbacks[caller].req.orderNo)
    requires s.callbacks[caller].req.orderNo in s.pays && s.callbacks[caller].req.orderNo !in s.locked
    ensures OrderOk(DoWriteRecord(s, caller), s.callbacks[caller].req.orderNo) <==> Careful(s, WriteRecord(caller))
  {
    var no := s.callbacks[caller].req.orderNo;
    var t := DoWriteRecord(s, caller);
    if t.pays != s.pays {
      assert t.pays[no] != s.pays[no];
    }
  }

  lemma NotedOrders(s: Till, caller: nat)
    requires OrdersOk(s) && CallbacksOk(s)
    requires caller in s.callbacks && s.callbacks[caller].HasRead? && s.callbacks[caller].req.orderNo !in s.locked
    ensures OrdersOk(DoWriteRecord(s, caller)) <==> Careful(s, WriteRecord(caller))
  {
    var t := DoWriteRecord(s, caller);
    var no := s.callbacks[caller].req.orderNo;
    assert CallbackOk(s, caller);
    assert OrderOk(s, no);
    NotedHere(s, caller);
    forall o | o != no
      ensures OrderOk(t, o)
    {
      assert OrderOk(s, o);
    }
    hide OrderOk, Careful;
    if OrderOk(t, no) {
      forall o
        ensures OrderOk(t, o)
      {
        assert o != no ==> OrderOk(t, o);
      }
    }
  }

  lemma NotedCallbacks(s: Till, caller: nat)
    requires OrdersOk(s) && CallbacksOk(s)
    requires caller in s.callbacks && s.callbacks[caller].HasRead? && s.callbacks[caller].req.orderNo !in s.locked
    ensures CallbacksOk(DoWriteRecord(s, caller))
  {
    var t := DoWriteRecord(s, caller);
    assert CallbackOk(s, caller);
    assert OrderOk(s, s.callbacks[caller].req.orderNo);
    forall c
      ensures CallbackOk(t, c)
    {
      assert CallbackOk(s, c);
    }
    forall c | c in s.callbacks && s.callbacks[c].HasWritten?
      ensures s.callbacks[c].req.orderNo in s.locked
    {
      assert CallbackOk(s, c);
    }
  }

  lemma NotedRecords(s: Till, caller: nat)
    requires CallbacksOk(s) && NumbersOk(s.pays) && AnswersOk(s)
    ensures var t := DoWriteRecord(s, caller);
            NumbersOk(t.pays) && AnswersOk(t) && PaysKept(s.pays, t.pays)
  {
    if caller in s.callbacks {
      assert CallbackOk(s, caller);
    }
  }

  /** Writing a notice down keeps the invariant exactly if it is careful. */
  lemma WriteRecordKeepsIff(s: Till, caller: nat, onSale: map<Id, Offer>)
    requires Inv(s, onSale)
    ensures Inv(DoWriteRecord(s, caller), onSale) <==> Careful(s, WriteRecord(caller))
    ensures PaysKept(s.pays, DoWriteRecord(s, caller).pays)
  {
    NotedRecords(s, caller);
    if caller in s.callbacks && s.callbacks[caller].HasRead? && s.callbacks[caller].req.orderNo !in s.locked {
      hide Adversarial.Inv, NumbersOk, AnswersOk, PaysKept, Careful;
      NotedOrders(s, caller);
      NotedCallbacks(s, caller);
    }
  }

  lemma CommittedOrder(s: Till, caller: nat, ok: bool)
    requires OrdersOk(s) && CallbacksOk(s)
    requires caller in s.callbacks && s.callbacks[caller].HasWritten?
    ensures OrdersOk(DoCommit(s, caller, ok)) && CallbacksOk(DoCommit(s, caller, ok))
  {
    var t := DoCommit(s, caller, ok);
    var no := s.callbacks[caller].req.orderNo;
    assert CallbackOk(s, caller);
    assert OrderOk(s, no);
    assert t.tables.db.orders == if ok then s.tables.db.orders[no := s.tables.db.orders[no].(status := Paid)]
                                 else s.tables.db.orders;
    forall o
      ensures OrderOk(t, o)
    {
      assert OrderOk(s, o);
    }
    CallbackEnds(s, t, caller);
  }

  lemma CommitKeeps(s: Till, caller: nat, ok: bool, onSale: map<Id, Offer>)
    requires Inv(s, onSale)
    ensures Inv(DoCommit(s, caller, ok), onSale)
  {
    if caller in s.callbacks && s.callbacks[caller].HasWritten? {
      Adversarial.StepKeepsInv(s.tables, Adversarial.Pay(s.callbacks[caller].req.orderNo), onSale);
      CommittedOrder(s, caller, ok);
      hide Adversarial.Inv, Adversarial.Do, OrderOk, CallbacksOk;
    }
  }

  lemma GiveUpKeeps(s: Till, caller: nat, onSale: map<Id, Offer>)
    requires Inv(s, onSale) && caller in s.callbacks && s.callbacks[caller].HasRead?
    ensures Inv(s.(callbacks := s.callbacks - {caller}), onSale)
  {
    hide Adversarial.Inv;
    var t := s.(callbacks := s.callbacks - {caller});
    forall o
      ensures OrderOk(t, o)
    {
      assert OrderOk(s, o);
    }
    CallbackEnds(s, t, caller);
  }

  /** Whatever overlaps: a step keeps the invariant exactly if it is careful. */
  lemma StepKeepsIff(s: Till, step: Step, onSale: map<Id, Offer>)
    requires Inv(s, onSale)
    ensures Inv(Do(s, step), onSale) <==> Careful(s, step)
    ensures PaysKept(s.pays, Do(s, step).pays)
  {
    hide Inv, PaysKept;
    NothingChanges(s.pays);
    match step
    case Database(step) =>
      if Admissible(s, step) {
        DatabaseKeeps(s, step, onSale);
      }
    case PayOrder(no, user, drawn, now, ok) => PayOrderKeeps(s, no, user, drawn, now, ok, onSale);
    case ReadRecord(caller, req) => ReadRecordKeeps(s, caller, req, onSale);
    case WriteRecord(caller) => WriteRecordKeepsIff(s, caller, onSale);
    case Commit(caller, ok) => CommitKeeps(s, caller, ok, onSale);
    case GiveUp(caller) =>
      if caller in s.callbacks && s.callbacks[caller].HasRead? {
        GiveUpKeeps(s, caller, onSale);
      }
  }

  /** The invariant at every point of a run. */
  ghost predicate Throughout(s: Till, steps: seq<Step>, onSale: map<Id, Offer>)
    decreases |steps|
  {
    Inv(s, onSale) && (steps != [] ==> Throughout(Do(s, steps[0]), steps[1..], onSale))
  }

  /** From a state in order, a run stays in order throughout exactly if all its writes are careful. */
  lemma {:induction false} RunKeepsIff(s: Till, steps: seq<Step>, onSale: map<Id, Offer>)
    requires Inv(s, onSale)
    ensures Throughout(s, steps, onSale) <==> CarefulRun(s, steps)
    decreases |steps|
  {
    hide Inv, Do, Careful;
    if steps != [] {
      StepKeepsIff(s, steps[0], onSale);
      if Careful(s, steps[0]) {
        RunKeepsIff(Do(s, steps[0]), steps[1..], onSale);
      } else {
        assert !Inv(Do(s, steps[0]), onSale);
        NotThroughout(Do(s, steps[0]), steps[1..], onSale);
      }
    }
  }

  lemma NotThroughout(s: Till, steps: seq<Step>, onSale: map<Id, Offer>)
    requires !Inv(s, onSale)
    ensures !Throughout(s, steps, onSale)
  {
    hide Inv, Do;
  }

  lemma {:induction false} RunKeeps(s: Till, steps: seq<Step>, onSale: map<Id, Offer>)
    requires Inv(s, onSale) && CarefulRun(s, steps)
    ensures Inv(Exec(s, steps), onSale)
    decreases |steps|
  {
    hide Inv, Do, Careful;
    if steps != [] {
      StepKeepsIff(s, steps[0], onSale);
      RunKeeps(Do(s, steps[0]), steps[1..], onSale);
    }
  }

  // ---- callbacks in turn ----

  /** A callback in its turn writes over no success, for it would have read it. */
  lemma TurnIsCareful(s: Till, step: Step)
    requires CallbacksOk(s) && TurnsOk(s)
    ensures Careful(s, step)
  {
    if step.WriteRecord? && step.caller in s.callbacks {
      assert CallbackOk(s, step.caller);
    }
  }

  lemma WriteKeepsTurns(s: Till, caller: nat)
    requires OrdersOk(s) && CallbacksOk(s) && TurnsOk(s)
    ensures var t := DoWriteRecord(s, caller);
            TurnsOk(t) && FinalsKept(s.pays, t.pays) && s.lost <= t.lost
  {
    if caller in s.callbacks {
      assert CallbackOk(s, caller);
      assert OrderOk(s, s.callbacks[caller].req.orderNo);
    }
  }

  lemma TurnKeepsTurns(s: Till, step: Step)
    requires OrdersOk(s) && CallbacksOk(s) && TurnsOk(s) && NumbersOk(s.pays) && InTurn(s, step)
    ensures TurnsOk(Do(s, step)) && FinalsKept(s.pays, Do(s, step).pays) && s.lost <= Do(s, step).lost
  {
    hide NumbersOk, OrdersOk, CallbacksOk, Charged, Adversarial.Do, DoWriteRecord;
    match step
    case WriteRecord(caller) => WriteKeepsTurns(s, caller);
    case PayOrder(no, user, drawn, now, _) => ChargedOne(s.tables.db.orders, s.pays, no, user, drawn, now);
    case _ =>
  }

  lemma {:induction false} TurnsKeep(s: Till, steps: seq<Step>, onSale: map<Id, Offer>)
    requires Inv(s, onSale) && TurnsOk(s) && Serial(s, steps)
    ensures CarefulRun(s, steps) && TurnsOk(Exec(s, steps)) && FinalsKept(s.pays, Exec(s, steps).pays)
    ensures s.lost <= Exec(s, steps).lost
    decreases |steps|
  {
    hide Do, InTurn, Careful, TurnsOk, FinalsKept, OrdersOk, CallbacksOk, NumbersOk, AnswersOk, Adversarial.Inv;
    NothingChanges(s.pays);
    if steps != [] {
      TurnIsCareful(s, steps[0]);
      StepKeepsIff(s, steps[0], onSale);
      TurnKeepsTurns(s, steps[0]);
      TurnsKeep(Do(s, steps[0]), steps[1..], onSale);
      FinalsKeptTransitive(s.pays, Do(s, steps[0]).pays, Exec(s, steps).pays);
    }
  }

  lemma NothingChanges(pays: PayTable)
    ensures PaysKept(pays, pays) && FinalsKept(pays, pays)
  {
  }

  lemma FinalsKeptTransitive(a: PayTable, b: PayTable, c: PayTable)
    requires FinalsKept(a, b) && FinalsKept(b, c)
    ensures FinalsKept(a, c)
  {
  }

  lemma PaysKeptTransitive(a: PayTable, b: PayTable, c: PayTable)
    requires PaysKept(a, b) && PaysKept(b, c)
    ensures PaysKept(a, c)
  {
  }

  // ---- how orders and histories change ----

  lemma TablesOk(s: Till, onSale: map<Id, Offer>)
    requires Inv(s, onSale)
    ensures Adversarial.Inv(s.tables, onSale)
  {
  }

  lemma SameOrders(orders: map<OrderNo, Order>)
    ensures Adversarial.Evolves(orders, orders)
  {
  }

  lemma OrdersEvolve(s: Till, step: Step, onSale: map<Id, Offer>)
    requires Inv(s, onSale)
    ensures Adversarial.Evolves(s.tables.db.orders, Do(s, step).tables.db.orders)
    ensures s.received <= Do(s, step).received
  {
    hide Inv, Adversarial.Inv, Adversarial.Do, Adversarial.Evolves, Charged, ReadVerdict;
    TablesOk(s, onSale);
    SameOrders(s.tables.db.orders);
    match step
    case Database(step) => Adversarial.StepKeepsInv(s.tables, step, onSale);
    case Commit(caller, _) =>
      if caller in s.callbacks {
        Adversarial.StepKeepsInv(s.tables, Adversarial.Pay(s.callbacks[caller].req.orderNo), onSale);
      }
    case _ =>
  }

  lemma {:induction false} RunEvolves(s: Till, steps: seq<Step>, onSale: map<Id, Offer>)
    requires Inv(s, onSale) && CarefulRun(s, steps)
    ensures Adversarial.Evolves(s.tables.db.orders, Exec(s, steps).tables.db.orders)
    ensures s.received <= Exec(s, steps).received && PaysKept(s.pays, Exec(s, steps).pays)
    decreases |steps|
  {
    hide Inv, Do, Careful, PaysKept;
    NothingChanges(s.pays);
    if steps != [] {
      StepKeepsIff(s, steps[0], onSale);
      OrdersEvolve(s, steps[0], onSale);
      RunEvolves(Do(s, steps[0]), steps[1..], onSale);
      Adversarial.EvolvesTransitive(s.tables.db.orders, Do(s, steps[0]).tables.db.orders,
                                    Exec(s, steps).tables.db.orders);
      PaysKeptTransitive(s.pays, Do(s, steps[0]).pays, Exec(s, steps).pays);
    }
  }

  lemma OpeningInv(s: Till, onSale: map<Id, Offer>)
    requires Opening(s, onSale)
    ensures Inv(s, onSale) && TurnsOk(s)
  {
    Adversarial.OpeningInv(s.tables, onSale);
  }

  /** By any run of careful writes. */
  ghost predicate Reachable(s: Till, onSale: map<Id, Offer>) {
    exists opening, steps :: Opening(opening, onSale) && CarefulRun(opening, steps) && s == Exec(opening, steps)
  }

  /** By a run in which callbacks take turns. */
  ghost predicate ReachableInTurn(s: Till, onSale: map<Id, Offer>) {
    exists opening, steps :: Opening(opening, onSale) && Serial(opening, steps) && s == Exec(opening, steps)
  }

  lemma ReachableInv(s: Till, onSale: map<Id, Offer>)
    requires Reachable(s, onSale)
    ensures Inv(s, onSale)
  {
    hide Inv, Do, Careful;
    var opening, steps :| Opening(opening, onSale) && CarefulRun(opening, steps) && s == Exec(opening, steps);
    OpeningInv(opening, onSale);
    RunKeeps(opening, steps, onSale);
  }

  /** Callbacks that take turns write carefully, so what holds in careful runs holds in theirs. */
  lemma InTurnIsCareful(s: Till, onSale: map<Id, Offer>)
    requires ReachableInTurn(s, onSale)
    ensures Reachable(s, onSale) && Inv(s, onSale) && TurnsOk(s)
  {
    hide Inv, Do, Careful, InTurn;
    var opening, steps :| Opening(opening, onSale) && Serial(opening, steps) && s == Exec(opening, steps);
    OpeningInv(opening, onSale);
    TurnsKeep(opening, steps, onSale);
    RunKeeps(opening, steps, onSale);
  }

  lemma {:induction false} OneMore(s: Till, steps: seq<Step>, step: Step)
    requires Serial(s, steps) && InTurn(Exec(s, steps), step)
    ensures Serial(s, steps + [step]) && Exec(s, steps + [step]) == Do(Exec(s, steps), step)
    decreases |steps|
  {
    hide Do, InTurn;
    if steps == [] {
      assert [] + [step] == [step] && [step][1..] == [];
      FirstStep(s, step, []);
      assert [step] + [] == [step];
      assert Serial(Do(s, step), []);
    } else {
      assert (steps + [step])[1..] == steps[1..] + [step];
      OneMore(Do(s, steps[0]), steps[1..], step);
    }
  }

  lemma {:induction false} OneMoreCareful(s: Till, steps: seq<Step>, step: Step)
    requires CarefulRun(s, steps) && Careful(Exec(s, steps), step)
    ensures CarefulRun(s, steps + [step]) && Exec(s, steps + [step]) == Do(Exec(s, steps), step)
    decreases |steps|
  {
    hide Do, Careful;
    if steps == [] {
      assert [] + [step] == [step] && [step][1..] == [];
      FirstStep(s, step, []);
      assert [step] + [] == [step];
      assert CarefulRun(Do(s, step), []);
    } else {
      assert (steps + [step])[1..] == steps[1..] + [step];
      OneMoreCareful(Do(s, steps[0]), steps[1..], step);
    }
  }

  lemma CarefulStepReaches(s: Till, step: Step, onSale: map<Id, Offer>)
    requires Reachable(s, onSale) && Careful(s, step)
    ensures Reachable(Do(s, step), onSale)
  {
    hide Do, Opening, Careful;
    var opening, steps :| Opening(opening, onSale) && CarefulRun(opening, steps) && s == Exec(opening, steps);
    OneMoreCareful(opening, steps, step);
  }

  lemma StepReaches(s: Till, step: Step, onSale: map<Id, Offer>)
    requires ReachableInTurn(s, onSale) && InTurn(s, step)
    ensures ReachableInTurn(Do(s, step), onSale)
  {
    hide Do, Opening, InTurn;
    var opening, steps :| Opening(opening, onSale) && Serial(opening, steps) && s == Exec(opening, steps);
    OneMore(opening, steps, step);
  }

  /** From every state in which a payment can succeed, a commit that fails leads to one in which it is lost. */
  lemma FailedCommitLoses(s: Till, onSale: map<Id, Offer>, caller: nat, req: CallbackRequest)
    requires ReachableInTurn(s, onSale) && caller !in s.callbacks && !Busy(s, req.orderNo) && req.orderNo !in s.locked
    requires req.succeeded && Answers(s, req) && IsPending(s, req.orderNo)
    ensures exists t :: ReachableInTurn(t, onSale) && req.orderNo in t.lost && IsPending(t, req.orderNo)
  {
    hide Do, ReachableInTurn;
    Reads(s, caller, req);
    StepReaches(s, ReadRecord(caller, req), onSale);
    var a := Do(s, ReadRecord(caller, req));
    WritesSuccess(a, caller);
    StepReaches(a, WriteRecord(caller), onSale);
    var b := Do(a, WriteRecord(caller));
    Commits(b, caller, false);
    StepReaches(b, Commit(caller, false), onSale);
    assert req.orderNo in Do(b, Commit(caller, false)).lost;
  }

  // ---- what holds in every run of careful writes ----

  /** A Paid order always has a record that says SUCCESS. Conversely such a record means that the order is Paid, or that
      a callback is just about to commit, or that its commit failed; these exclude one another. A record that says the
      order had been canceled tells the truth. */
  lemma PaidIffRecorded(s: Till, onSale: map<Id, Offer>, no: OrderNo)
    requires Reachable(s, onSale)
    ensures (no in s.pays && s.pays[no].status == Succeeded) <==> (IsPaid(s, no) || no in s.locked || no in s.lost)
    ensures !(IsPaid(s, no) && no in s.locked) && !(IsPaid(s, no) && no in s.lost) && !(no in s.locked && no in s.lost)
    ensures no in s.pays && s.pays[no].status == SucceededButCanceled
            ==> no in s.tables.db.orders && s.tables.db.orders[no].status == Cancel
  {
    ReachableInv(s, onSale);
    assert OrderOk(s, no);
  }

  /** An order has one payment record, over exactly what it costs; however often its buyer asks to pay, the answer
      names that record's number, which no other order's record has, and that amount. */
  lemma OneRecordOneAmount(s: Till, onSale: map<Id, Offer>, no: OrderNo, answer: PayAnswer)
    requires Reachable(s, onSale) && (no, answer) in s.answers
    ensures no in s.pays && no in s.tables.db.orders
    ensures s.pays[no].amount == s.tables.db.orders[no].money.finalAmount
            && s.pays[no].user == s.tables.db.orders[no].claim.user
    ensures answer == PayAnswer(s.pays[no].number, s.tables.db.orders[no].money.finalAmount)
    ensures forall o :: o in s.pays && s.pays[o].number == answer.number ==> o == no
  {
    ReachableInv(s, onSale);
    assert OrderOk(s, no);
    assert (no, answer).0 == no;
  }

  /** Paid and Cancel are final for an order, and a success once come in stays on record, whatever comes later; with
      callbacks in turn a record with a success status never changes at all. */
  lemma OutcomesAreFinal(s: Till, onSale: map<Id, Offer>, steps: seq<Step>, no: OrderNo)
    requires Reachable(s, onSale) && CarefulRun(s, steps)
    ensures var t := Exec(s, steps);
            && (no in s.tables.db.orders && s.tables.db.orders[no].status != Pending ==>
                  no in t.tables.db.orders && t.tables.db.orders[no] == s.tables.db.orders[no])
            && (no in s.pays && Final(s.pays[no].status) ==> no in t.pays && Final(t.pays[no].status))
            && (no in s.pays ==> no in t.pays && t.pays[no].number == s.pays[no].number
                                 && t.pays[no].amount == s.pays[no].amount)
    ensures ReachableInTurn(s, onSale) && Serial(s, steps) && no in s.pays && Final(s.pays[no].status) ==>
              no in Exec(s, steps).pays && Exec(s, steps).pays[no] == s.pays[no]
  {
    hide Do, Careful, InTurn, Serial, CarefulRun, Exec, Reachable, ReachableInTurn;
    ReachableInv(s, onSale);
    RunKeeps(s, steps, onSale);
    RunEvolves(s, steps, onSale);
    assert OrderOk(s, no) && OrderOk(Exec(s, steps), no);
    if ReachableInTurn(s, onSale) && Serial(s, steps) {
      InTurnIsCareful(s, onSale);
      TurnsKeep(s, steps, onSale);
    }
  }

  /** A payment whose commit failed is not credited as long as callbacks take turns: every further notice is waved
      through as a duplicate, so the order never becomes Paid, and its record never says that the money is to be
      refunded. */
  lemma LostPaymentStaysLost(s: Till, onSale: map<Id, Offer>, steps: seq<Step>, no: OrderNo, req: CallbackRequest)
    requires ReachableInTurn(s, onSale) && Serial(s, steps) && no in s.lost && req.orderNo == no
    ensures var t := Exec(s, steps);
            && !IsPaid(t, no) && no in t.pays && t.pays[no].status == Succeeded
            && (ReadVerdict(t.pays, req).Success? ==> ReadVerdict(t.pays, req).value == Some(DuplicateIgnored))
  {
    hide Inv, Do, ReachableInTurn, InTurn, Careful, Final, TurnsOk;
    InTurnIsCareful(s, onSale);
    TurnsKeep(s, steps, onSale);
    RunKeeps(s, steps, onSale);
    LostIsUnpaid(Exec(s, steps), onSale, no, req);
  }

  lemma LostIsUnpaid(s: Till, onSale: map<Id, Offer>, no: OrderNo, req: CallbackRequest)
    requires Inv(s, onSale) && no in s.lost && req.orderNo == no
    ensures !IsPaid(s, no) && no in s.pays && s.pays[no].status == Succeeded
    ensures ReadVerdict(s.pays, req).Success? ==> ReadVerdict(s.pays, req).value == Some(DuplicateIgnored)
  {
    hide Adversarial.Inv, CallbacksOk, AnswersOk, NumbersOk, NumberTaken;
    assert OrderOk(s, no);
  }

  /** Cancellations, however many and however they interleave with callbacks: an order's stock goes back exactly once if
      it ends up Cancel, never if it is Paid, and a payment that arrives later is kept for refund. */
  lemma CancelledOnceAmongCallbacks(s: Till, onSale: map<Id, Offer>, no: OrderNo, req: CallbackRequest)
    requires Reachable(s, onSale) && req.orderNo == no
    ensures s.tables.restocked[no] == Adversarial.CancelCount(s.tables.db.orders, no)
    ensures IsPaid(s, no) ==> s.tables.restocked[no] == 0
    ensures no in s.tables.db.orders && s.tables.db.orders[no].status == Cancel && req.succeeded
            && ReadVerdict(s.pays, req) == Success(None) ==>
              Handled(s.tables.db, s.pays, req, true, true)
              == (s.tables.db, Noted(s.pays, req, SucceededButCanceled), Success(RecordedForRefund))
  {
    ReachableInv(s, onSale);
  }

  // ---- who is charged ----

  /** The order may be charged at this time to this user: it is there, Pending, the user's own, and no more than fifteen
      minutes old. */
  predicate Chargeable(s: Till, no: OrderNo, user: Id, now: int) {
    && no in s.tables.db.orders && s.tables.db.orders[no].status == Pending
    && s.tables.db.orders[no].claim.user == user && now - s.tables.db.orders[no].createTime <= 900
  }

  /** A step adds a record or an answer for an order only on behalf of its buyer, while the order may be charged. */
  lemma ChargesAreDue(s: Till, step: Step, no: OrderNo, answer: PayAnswer)
    ensures var t := Do(s, step);
            (no !in s.pays && no in t.pays) || ((no, answer) !in s.answers && (no, answer) in t.answers) ==>
              step.PayOrder? && step.no == no && Chargeable(s, no, step.user, step.now)
  {
    hide ReadVerdict, NumberTaken, Adversarial.Do;
  }

  /** The other way round: a buyer who asks while the order may be charged is answered with its record's number and
      its final amount; without a record, one is made, if the number drawn is new. (A locked row keeps the request
      waiting.) */
  lemma DueChargesAreAnswered(s: Till, no: OrderNo, user: Id, drawn: PayNo, now: int)
    requires Chargeable(s, no, user, now) && no !in s.locked
    requires no in s.pays || forall o :: o in s.pays ==> s.pays[o].number != drawn
    ensures var t, amount := Do(s, PayOrder(no, user, drawn, now, true)), s.tables.db.orders[no].money.finalAmount;
            && no in t.pays && (no, PayAnswer(t.pays[no].number, amount)) in t.answers
            && (if no in s.pays then t.pays == s.pays
                else t.pays == s.pays[no := PayRow(drawn, user, amount, Created, None)])
  {
  }

  lemma {:induction false} TablesStay(s: Till, steps: seq<Step>, onSale: map<Id, Offer>)
    requires Adversarial.Inv(s.tables, onSale)
    ensures Adversarial.Inv(Exec(s, steps).tables, onSale)
    ensures Adversarial.Evolves(s.tables.db.orders, Exec(s, steps).tables.db.orders)
    decreases |steps|
  {
    hide Do, Adversarial.Inv, Adversarial.Evolves;
    SameOrders(s.tables.db.orders);
    if steps != [] {
      TablesStep(s, steps[0], onSale);
      TablesStay(Do(s, steps[0]), steps[1..], onSale);
      Adversarial.EvolvesTransitive(s.tables.db.orders, Do(s, steps[0]).tables.db.orders,
                                    Exec(s, steps).tables.db.orders);
    }
  }

  lemma TablesStep(s: Till, step: Step, onSale: map<Id, Offer>)
    requires Adversarial.Inv(s.tables, onSale)
    ensures Adversarial.Inv(Do(s, step).tables, onSale)
    ensures Adversarial.Evolves(s.tables.db.orders, Do(s, step).tables.db.orders)
  {
    hide Adversarial.Inv, Adversarial.Do, Adversarial.Evolves, Charged, ReadVerdict;
    SameOrders(s.tables.db.orders);
    match step
    case Database(step) => Adversarial.StepKeepsInv(s.tables, step, onSale);
    case Commit(caller, _) =>
      if caller in s.callbacks {
        Adversarial.StepKeepsInv(s.tables, Adversarial.Pay(s.callbacks[caller].req.orderNo), onSale);
      }
    case _ =>
  }

  /** Whatever comes later, careful or not: an order that is no longer Pending and has no record never gets one, and
      no answer for it is ever given again. */
  lemma {:induction false} SettledIsNeverCharged(s: Till, steps: seq<Step>, onSale: map<Id, Offer>, no: OrderNo)
    requires Adversarial.Inv(s.tables, onSale) && no in s.tables.db.orders && s.tables.db.orders[no].status != Pending
    ensures no !in s.pays ==> no !in Exec(s, steps).pays
    ensures forall answer :: (no, answer) in Exec(s, steps).answers ==> (no, answer) in s.answers
    decreases |steps|
  {
    hide Do, Adversarial.Inv;
    if steps != [] {
      var t := Do(s, steps[0]);
      forall answer
        ensures no !in s.pays ==> no !in t.pays
        ensures (no, answer) in t.answers ==> (no, answer) in s.answers
      {
        ChargesAreDue(s, steps[0], no, answer);
      }
      assert no !in s.pays ==> no !in t.pays by {
        ChargesAreDue(s, steps[0], no, PayAnswer(0, 0));
      }
      TablesStep(s, steps[0], onSale);
      SettledIsNeverCharged(t, steps[1..], onSale, no);
    }
  }

  // ---- why callbacks have to take turns ----

  /** The request names the order's record by number and amount, and the record is not final. */
  predicate Answers(s: Till, req: CallbackRequest) {
    && req.orderNo in s.pays && !Final(s.pays[req.orderNo].status)
    && s.pays[req.orderNo].number == req.number && s.pays[req.orderNo].amount == req.amount
  }

  predicate IsPending(s: Till, no: OrderNo) {
    no in s.tables.db.orders && s.tables.db.orders[no].status == Pending
  }

  lemma Reads(s: Till, caller: nat, req: CallbackRequest)
    requires caller !in s.callbacks && Answers(s, req)
    ensures Do(s, ReadRecord(caller, req)) == s.(callbacks := s.callbacks[caller := HasRead(req)])
  {
    assert NumberTaken(s.pays, req.number);
  }

  /** A success notice for a Pending order is written, and the order stays locked. */
  lemma WritesSuccess(s: Till, caller: nat)
    requires caller in s.callbacks && s.callbacks[caller].HasRead? && s.callbacks[caller].req.succeeded
    requires Answers(s, s.callbacks[caller].req) && IsPending(s, s.callbacks[caller].req.orderNo)
    requires s.callbacks[caller].req.orderNo !in s.locked
    ensures var req := s.callbacks[caller].req;
            Do(s, WriteRecord(caller)) ==
            s.(pays := Noted(s.pays, req, Succeeded), callbacks := s.callbacks[caller := HasWritten(req)],
            locked := s.locked + {req.orderNo}, received := s.received + {req.orderNo}, lost := s.lost - {req.orderNo})
  {
    var req := s.callbacks[caller].req;
    assert Noted(s.pays, req, Succeeded)[req.orderNo] != s.pays[req.orderNo];
  }

  /** Committed, the order is Paid; with the commit lost it stays Pending and is noted as lost. */
  lemma Commits(s: Till, caller: nat, ok: bool)
    requires caller in s.callbacks && s.callbacks[caller].HasWritten? && IsPending(s, s.callbacks[caller].req.orderNo)
    ensures var no, t := s.callbacks[caller].req.orderNo, Do(s, Commit(caller, ok));
            && t.pays == s.pays && t.callbacks == s.callbacks - {caller} && t.locked == s.locked - {no}
            && t.answers == s.answers
            && (if ok then IsPaid(t, no) && t.lost == s.lost else t.tables == s.tables && t.lost == s.lost + {no})
  {
  }

  /** A failure notice is written whatever the record has become. */
  lemma WritesFailure(s: Till, caller: nat)
    requires caller in s.callbacks && s.callbacks[caller].HasRead? && !s.callbacks[caller].req.succeeded
    requires s.callbacks[caller].req.orderNo in s.pays && s.callbacks[caller].req.orderNo in s.tables.db.orders
    requires s.callbacks[caller].req.orderNo !in s.locked
    ensures var no, t := s.callbacks[caller].req.orderNo, Do(s, WriteRecord(caller));
            t.tables == s.tables && no in t.pays && t.pays[no].status == Failed
  {
  }

  /** Both notices read; then the one is written and committed, and then the other is written. */
  function Race(good: CallbackRequest, bad: CallbackRequest): seq<Step> {
    [ReadRecord(1, good), ReadRecord(2, bad), WriteRecord(1), Commit(1, true), WriteRecord(2)]
  }

  /** A success and a failure notice that both read the record before either wrote it: the order ends Paid, its
      record FAILED. */
  lemma RacingCallbacks(s: Till, no: OrderNo, good: CallbackRequest, bad: CallbackRequest)
    requires 1 !in s.callbacks && 2 !in s.callbacks && no !in s.locked
    requires IsPending(s, no)
    requires no in s.pays && s.pays[no].status == Created
    requires good == CallbackRequest(no, s.pays[no].number, s.pays[no].amount, true, good.payTime)
    requires bad == good.(succeeded := false)
    ensures var t := Exec(s,
                          [ReadRecord(1, good), ReadRecord(2, bad), WriteRecord(1), Commit(1, true), WriteRecord(2)]);
            IsPaid(t, no) && no in t.pays && t.pays[no].status == Failed
  {
    hide Do;
    Reads(s, 1, good);
    var a := Do(s, ReadRecord(1, good));
    Reads(a, 2, bad);
    var b := Do(a, ReadRecord(2, bad));
    WritesSuccess(b, 1);
    var c := Do(b, WriteRecord(1));
    Commits(c, 1, true);
    var d := Do(c, Commit(1, true));
    WritesFailure(d, 2);
    FiveSteps(s, ReadRecord(1, good), ReadRecord(2, bad), WriteRecord(1), Commit(1, true), WriteRecord(2));
  }

  lemma FiveSteps(s: Till, a: Step, b: Step, c: Step, d: Step, e: Step)
    ensures Exec(s, [a, b, c, d, e]) == Do(Do(Do(Do(Do(s, a), b), c), d), e)
  {
    hide Do;
    FirstStep(s, a, [b, c, d, e]);
    FirstStep(Do(s, a), b, [c, d, e]);
    ThreeSteps(Do(Do(s, a), b), c, d, e);
    assert [a] + [b, c, d, e] == [a, b, c, d, e] && [b] + [c, d, e] == [b, c, d, e];
  }

  lemma FirstStep(s: Till, step: Step, rest: seq<Step>)
    ensures Exec(s, [step] + rest) == Exec(Do(s, step), rest)
  {
    hide Do;
    assert ([step] + rest)[1..] == rest;
  }

  /** A lost payment put right: a second success notice that had read the record in time, and carries another time of
      payment, makes the order Paid after all. */
  lemma StaleSuccessRepairs(s: Till, onSale: map<Id, Offer>, caller: nat)
    requires Reachable(s, onSale) && caller in s.callbacks && s.callbacks[caller].HasRead?
    requires s.callbacks[caller].req.succeeded && s.callbacks[caller].req.orderNo in s.lost
    requires IsPending(s, s.callbacks[caller].req.orderNo) && s.callbacks[caller].req.orderNo in s.pays
    requires s.pays[s.callbacks[caller].req.orderNo].payTime != Some(s.callbacks[caller].req.payTime)
    ensures var no, t := s.callbacks[caller].req.orderNo, Do(Do(s, WriteRecord(caller)), Commit(caller, true));
            && Inv(t, onSale) && IsPaid(t, no) && no !in t.lost && no in t.pays && t.pays[no].status == Succeeded
  {
    ReachableInv(s, onSale);
    hide Reachable, Inv, Do, Careful;
    assert OrderOk(s, s.callbacks[caller].req.orderNo) by {
      OrdersInOrder(s, onSale, s.callbacks[caller].req.orderNo);
    }
    StepKeepsIff(s, WriteRecord(caller), onSale);
    SuccessIsCareful(s, caller);
    RepairIsWritten(s, caller);
    var a := Do(s, WriteRecord(caller));
    StepKeepsIff(a, Commit(caller, true), onSale);
    CommitIsCareful(a, caller);
    Commits(a, caller, true);
  }

  lemma OrdersInOrder(s: Till, onSale: map<Id, Offer>, no: OrderNo)
    requires Inv(s, onSale)
    ensures OrderOk(s, no)
  {
  }

  lemma SuccessIsCareful(s: Till, caller: nat)
    requires caller in s.callbacks && s.callbacks[caller].req.succeeded
    ensures Careful(s, WriteRecord(caller))
  {
  }

  lemma CommitIsCareful(s: Till, caller: nat)
    ensures Careful(s, Commit(caller, true))
  {
  }

  lemma RepairIsWritten(s: Till, caller: nat)
    requires caller in s.callbacks && s.callbacks[caller].HasRead? && s.callbacks[caller].req.succeeded
    requires s.callbacks[caller].req.orderNo in s.lost && OrderOk(s, s.callbacks[caller].req.orderNo)
    requires IsPending(s, s.callbacks[caller].req.orderNo) && s.callbacks[caller].req.orderNo in s.pays
    requires s.pays[s.callbacks[caller].req.orderNo].payTime != Some(s.callbacks[caller].req.payTime)
    ensures var req, t := s.callbacks[caller].req, Do(s, WriteRecord(caller));
            && caller in t.callbacks && t.callbacks[caller] == HasWritten(req) && IsPending(t, req.orderNo)
            && req.orderNo !in t.lost && req.orderNo in t.pays && t.pays[req.orderNo].status == Succeeded
  {
    var req := s.callbacks[caller].req;
    assert Noted(s.pays, req, Succeeded)[req.orderNo] != s.pays[req.orderNo];
  }

  // ---- the operations, uninterrupted, are such runs ----

  /** HandlePayCallback with nothing in between does what reading, writing and committing do one after the other. */
  lemma CallbackIsARun(s: Till, caller: nat, req: CallbackRequest, ok: bool)
    requires caller !in s.callbacks && req.orderNo !in s.locked && !Busy(s, req.orderNo)
    ensures var t := Exec(s, [ReadRecord(caller, req), WriteRecord(caller), Commit(caller, ok)]);
            var (db, pays, res) := Handled(s.tables.db, s.pays, req, true, ok);
            t.tables.db == db && t.pays == pays && t.callbacks == s.callbacks && t.locked == s.locked
  {
    ThreeSteps(s, ReadRecord(caller, req), WriteRecord(caller), Commit(caller, ok));
    var a := Do(s, ReadRecord(caller, req));
    if ReadVerdict(s.pays, req) == Success(None) {
      assert a == s.(callbacks := s.callbacks[caller := HasRead(req)]);
      WriteAndCommit(a, caller, ok);
      assert a.callbacks - {caller} == s.callbacks;
    } else {
      assert a == s && Do(a, WriteRecord(caller)) == s && Do(s, Commit(caller, ok)) == s;
    }
  }

  lemma WriteAndCommit(a: Till, caller: nat, ok: bool)
    requires caller in a.callbacks && a.callbacks[caller].HasRead? && a.callbacks[caller].req.orderNo !in a.locked
    requires ReadVerdict(a.pays, a.callbacks[caller].req) == Success(None)
    ensures var t := Do(Do(a, WriteRecord(caller)), Commit(caller, ok));
            var (db, pays, res) := Handled(a.tables.db, a.pays, a.callbacks[caller].req, true, ok);
            t.tables.db == db && t.pays == pays && t.callbacks == a.callbacks - {caller} && t.locked == a.locked
  {
    var req := a.callbacks[caller].req;
    hide NumberTaken;
    if IsPending(a, req.orderNo) && req.succeeded {
      WritesSuccess(a, caller);
      assert Noted(a.pays, req, Succeeded)[req.orderNo] != a.pays[req.orderNo];
    } else {
      assert caller !in Do(a, WriteRecord(caller)).callbacks;
    }
  }

  lemma ThreeSteps(s: Till, a: Step, b: Step, c: Step)
    ensures Exec(s, [a, b, c]) == Do(Do(Do(s, a), b), c)
  {
    hide Do;
    FirstStep(s, a, [b, c]);
    FirstStep(Do(s, a), b, [c]);
    FirstStep(Do(Do(s, a), b), c, []);
    assert [a] + [b, c] == [a, b, c] && [b] + [c] == [b, c] && [c] + [] == [c];
  }
}
