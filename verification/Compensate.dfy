/** The compensation job (internal/job/compensate.go): reservations that never became orders are given back, and the
    Redis counters are set to what the database says. */
module Compensate {
  import opened Wrappers
  import opened Entities
  import opened RedisRepo
  import opened MysqlRepo
  import opened StockLedger
  import opened Books
  import opened Protocol
  import opened ProtocolInv
  import opened ProtocolTheorems
  import opened Seckill
  import opened ProtocolRuns
  import opened Maps
  import Routing

  // ---- pending reservations ----

  const GRACE := Routing.COMPENSATE_GRACE / Routing.SECOND   // seconds

  predicate Young(p: PendingRecord, now: int) {
    now - p.createdAt < GRACE
  }

  /** A reservation made at `now` is left alone for two minutes, and not a second longer. */
  lemma ReservationIsLeftAlone(s: Sys, r: RequestId, draft: Draft, now: int, later: int)
    requires StockKeyOf(draft.claim) in s.redis.stock
    ensures var t := Reserved(s, r, draft, now);
            r in t.redis.pending && (Fixed(t, r, later) == t <== later - now < 120)
            && (later - now >= 120 ==> r !in Fixed(t, r, later).redis.pending)
  {
  }

  /** What the job does about one pending record. */
  ghost function Fixed(s: Sys, r: RequestId, now: int): Sys {
    if r !in s.redis.pending || Young(s.redis.pending[r], now) then s
    else if HasRequest(s.db.orders, r) then s.(redis := DeletePending(s.redis, r))
    else Returned(s, r, s.redis.pending[r].claim)
  }

  ghost function Swept(s: Sys, ids: seq<RequestId>, now: int): Sys {
    if ids == [] then s else Fixed(Swept(s, ids[..|ids| - 1], now), ids[|ids| - 1], now)
  }

  /** No message that is still under way, and no request still being worked on, is older than the grace period. */
  ghost predicate InFlightIsYoung(s: Sys, now: int) {
    forall r :: r in s.redis.pending && InProgress(s, r) ==> Young(s.redis.pending[r], now)
  }

  lemma FixedRuns(s: Sys, t: Sys, r: RequestId, now: int)
    requires Runs(s, t)
    requires r in t.redis.pending && !Young(t.redis.pending[r], now) ==> r !in t.topic && r !in t.threads
    ensures Runs(s, Fixed(t, r, now))
  {
    hide Runs;
    if r in t.redis.pending && !Young(t.redis.pending[r], now) {
      if HasRequest(t.db.orders, r) {
        RunsStep(s, t, Settle(r));
      } else {
        RunsStep(s, t, Step.Compensate(r));
        ReturnedRuns(s, t, r, t.redis.pending[r].claim);
      }
    }
  }

  lemma ReturnedOne(s: Sys, r: RequestId, c: Claim)
    ensures var t := Returned(s, r, c);
            && t.db == s.db.(coupons := t.db.coupons) && t.topic == s.topic && t.threads == s.threads
            && t.redis.pending == s.redis.pending - {r}
  {
  }

  lemma FixedOne(s: Sys, r: RequestId, now: int)
    ensures var t := Fixed(s, r, now);
            && t.db == s.db.(coupons := t.db.coupons) && t.topic == s.topic && t.threads == s.threads
            && t.redis.pending == (if r in s.redis.pending && !Young(s.redis.pending[r], now) then s.redis.pending - {r}
                                   else s.redis.pending)
  {
    hide Young, HasRequest, Returned;
    if r in s.redis.pending {
      ReturnedOne(s, r, s.redis.pending[r].claim);
    }
  }

  /** The sweep leaves exactly the young records, and no order, message or thread is touched. */
  lemma {:induction false} SweepKeepsYoung(s: Sys, ids: seq<RequestId>, now: int)
    ensures var t := Swept(s, ids, now);
            && t.db == s.db.(coupons := t.db.coupons) && t.topic == s.topic && t.threads == s.threads
            && (forall r :: r in t.redis.pending ==> r in s.redis.pending && t.redis.pending[r] == s.redis.pending[r])
            && (forall r :: r in s.redis.pending
                            ==> (r in t.redis.pending <==> r !in ids || Young(s.redis.pending[r], now)))
    decreases |ids|
  {
    if ids != [] {
      hide Fixed, Young;
      var last := |ids| - 1;
      SweepKeepsYoung(s, ids[..last], now);
      FixedOne(Swept(s, ids[..last], now), ids[last], now);
      assert ids == ids[..last] + [ids[last]];
    }
  }

  lemma {:induction false} SweptRuns(s: Sys, ids: seq<RequestId>, now: int)
    requires InFlightIsYoung(s, now)
    ensures Runs(s, Swept(s, ids, now)) && InFlightIsYoung(Swept(s, ids, now), now)
    decreases |ids|
  {
    hide Fixed, Runs;
    if ids == [] {
      RunsNowhere(s);
    } else {
      SweptRuns(s, ids[..|ids| - 1], now);
      FixedRuns(s, Swept(s, ids[..|ids| - 1], now), ids[|ids| - 1], now);
      FixedOne(Swept(s, ids[..|ids| - 1], now), ids[|ids| - 1], now);
    }
  }

  /** Somebody still works on the reservation: its message is under way, or the request itself, or another give-back. */
  predicate InProgress(s: Sys, r: RequestId) {
    r in s.topic || r in s.threads
  }

  /** The job's two minutes stand in for a condition it does not check: giving an old record back keeps the invariant
      exactly when nobody works on the reservation any more. */
  lemma FixKeepsInvIffNotInProgress(s: Sys, onSale: map<Id, Offer>, r: RequestId, now: int)
    requires Reachable(s, onSale) && r in s.redis.pending && !Young(s.redis.pending[r], now)
    ensures Inv(Fixed(s, r, now), onSale) <==> !InProgress(s, r)
  {
    ReachableInv(s, onSale);
    hide Reachable;
    if r in s.topic {
      assert !HasRequest(s.db.orders, r);
      assert r !in Fixed(s, r, now).redis.pending && r in Fixed(s, r, now).topic;
    } else if r in s.threads {
      assert !HasRequest(s.db.orders, r);
      FixedTwice(s, onSale, r, now);
    } else {
      RunsNowhere(s);
      FixedRuns(s, s, r, now);
      RunsKeep(s, Fixed(s, r, now), onSale);
    }
  }

  /** A reservation in somebody's hands and given back all the same: the holder still has what it had, and Redis has the
      units of the record on top. */
  lemma FixedTwice(s: Sys, onSale: map<Id, Offer>, r: RequestId, now: int)
    requires Reachable(s, onSale) && r in s.threads && r in s.redis.pending && !Young(s.redis.pending[r], now)
    ensures var c, t := s.redis.pending[r].claim, Fixed(s, r, now);
            && 1 <= c.quantity && c.sku in t.db.skus && StockKeyOf(c) in t.redis.stock
            && t.redis.stock[StockKeyOf(c)] + OffOrder(t, c.sku) == t.db.skus[c.sku].available + c.quantity
            && !Inv(t, onSale)
  {
    var c := s.redis.pending[r].claim;
    RecordOfThread(s, onSale, r);
    CacheLagsByReservations(s, onSale, StockKeyOf(c));
    ReturnedHolds(s, r, c);
    ReachableInv(s, onSale);
    assert Fixed(s, r, now) == Returned(s, r, c);
    hide Reachable, Inv, Fixed, Holds, HasRequest;
    LedgerOff(s, Returned(s, r, c), onSale, StockKeyOf(c));
  }

  lemma RecordOfThread(s: Sys, onSale: map<Id, Offer>, r: RequestId)
    requires Reachable(s, onSale) && r in s.threads && r in s.redis.pending
    ensures !HasRequest(s.db.orders, r)
    ensures OnOffer(onSale, StockKeyOf(s.redis.pending[r].claim)) && 1 <= s.redis.pending[r].claim.quantity
  {
    ReachableInv(s, onSale);
    ReachableRecordsOnOffer(s, onSale);
  }

  /** A record given back under a thread's hands is nobody's loss: the thread holds what it held. */
  lemma ReturnedHolds(s: Sys, r: RequestId, c: Claim)
    requires r in s.threads
    ensures Holds(Returned(s, r, c)) == Holds(s)
  {
    SameHold(s, Returned(s, r, c), r);
  }

  lemma LedgerOff(s: Sys, t: Sys, onSale: map<Id, Offer>, key: StockKey)
    requires Inv(s, onSale) && OnOffer(onSale, key) && Holds(t) == Holds(s)
    requires key in s.redis.stock && key in t.redis.stock && t.redis.stock[key] != s.redis.stock[key]
    ensures !Inv(t, onSale)
  {
    hide Holds, DbInv, LinksOk, ClaimsOk, MarksOk, CouponsOk;
    assert s.redis.stock[key] + Held(View(s).holds, key.sku) == onSale[key.sku].units;
  }

  /** What goes wrong otherwise: a message confirmed after its reservation was given back has its units sold in the
      database and on offer again in Redis, which is then ahead of the database wherever nothing else is held. */
  lemma FixedTooEarlyOversells(s: Sys, onSale: map<Id, Offer>, r: RequestId, now: int, later: int)
    requires Reachable(s, onSale) && r in s.topic && r in s.redis.pending && !Young(s.redis.pending[r], now)
    requires ConfirmTx(s.db, s.topic[r].m, later).Success?
    ensures var c := s.topic[r].m.claim;
            var t := Fixed(s, r, now);
            var db := ConfirmTx(t.db, t.topic[r].m, later);
            && db.Success? && c.sku in db.value.skus && StockKeyOf(c) in t.redis.stock
            && t.redis.stock[StockKeyOf(c)] == db.value.skus[c.sku].available + 2 * c.quantity - OffOrder(s, c.sku)
  {
    var c := s.topic[r].m.claim;
    InFlightFacts(s, onSale, r);
    CacheLagsByReservations(s, onSale, StockKeyOf(c));
    hide Reachable, Inv, OffOrder;
    assert Fixed(s, r, now) == Returned(s, r, c);
  }

  lemma InFlightFacts(s: Sys, onSale: map<Id, Offer>, r: RequestId)
    requires Reachable(s, onSale) && r in s.topic
    ensures r in s.redis.pending && s.redis.pending[r].claim == s.topic[r].m.claim && !HasRequest(s.db.orders, r)
    ensures OnOffer(onSale, StockKeyOf(s.topic[r].m.claim))
    ensures s.topic[r].m.claim.quantity == ToUint32(s.topic[r].m.claim.quantity)
  {
    ReachableInv(s, onSale);
    ReservedQuantity(s, r, onSale);
  }

  // ---- stock synchronisation ----

  /** A row as the product list returned it, some time before it is acted on. */
  datatype Listed = Listed(activity: Id, sku: Id, available: int)

  function ShelfOf(p: Listed): StockKey { StockKey(p.activity, p.sku) }

  predicate ListedFrom(p: Listed, db: Mysql) {
    p.sku in db.skus && p.activity == db.skus[p.sku].activity && p.available == db.skus[p.sku].available
  }

  /** Listed, and its version has not moved since. */
  predicate Untouched(p: Listed, start: Mysql, db: Mysql) {
    ListedFrom(p, start) && p.sku in db.skus && db.skus[p.sku].version == start.skus[p.sku].version
  }

  /** What synchronising does about one listed row: a missing counter is an error and stays missing. The counter is read
      before it is written; the write, if the values differed then, comes to this whatever it has become. */
  function Synced(s: Sys, p: Listed): Sys {
    if ShelfOf(p) in s.redis.stock then s.(redis := s.redis.(stock := s.redis.stock[ShelfOf(p) := p.available])) else s
  }

  function AllSynced(s: Sys, rows: seq<Listed>): Sys {
    if rows == [] then s else Synced(AllSynced(s, rows[..|rows| - 1]), rows[|rows| - 1])
  }

  ghost predicate IsListed(rows: seq<Listed>, key: StockKey) {
    exists p :: p in rows && ShelfOf(p) == key
  }

  ghost predicate IsListedAt(rows: seq<Listed>, key: StockKey, available: int) {
    exists p :: p in rows && ShelfOf(p) == key && p.available == available
  }

  lemma OneMoreRow(rows: seq<Listed>, p: Listed, key: StockKey, available: int)
    ensures IsListed(rows + [p], key) <==> IsListed(rows, key) || ShelfOf(p) == key
    ensures IsListedAt(rows + [p], key, available) <==>
            IsListedAt(rows, key, available) || (ShelfOf(p) == key && p.available == available)
  {
    assert p in rows + [p];
    forall q | q in rows
      ensures q in rows + [p]
    {
    }
  }

  /** A pass sets each existing counter that is listed to a listed value of it, and touches nothing else. */
  lemma {:induction false} SyncTouchesStockOnly(s: Sys, rows: seq<Listed>)
    ensures var t := AllSynced(s, rows);
            && t == s.(redis := s.redis.(stock := t.redis.stock)) && t.redis.stock.Keys == s.redis.stock.Keys
            && (forall key :: key in s.redis.stock ==>
                                if IsListed(rows, key) then IsListedAt(rows, key, t.redis.stock[key])
                                else t.redis.stock[key] == s.redis.stock[key])
    decreases |rows|
  {
    if rows != [] {
      var last := |rows| - 1;
      var t := AllSynced(s, rows);
      SyncTouchesStockOnly(s, rows[..last]);
      assert rows == rows[..last] + [rows[last]];
      hide IsListed, IsListedAt;
      forall key | key in s.redis.stock
        ensures if IsListed(rows, key) then IsListedAt(rows, key, t.redis.stock[key])
                else t.redis.stock[key] == s.redis.stock[key]
      {
        OneMoreRow(rows[..last], rows[last], key, t.redis.stock[key]);
      }
    }
  }

  lemma ActivityOfSku(s: Sys, onSale: map<Id, Offer>, sku: Id)
    requires Reachable(s, onSale) && sku in s.db.skus
    ensures OnOffer(onSale, StockKey(s.db.skus[sku].activity, sku))
  {
    ReachableInv(s, onSale);
  }

  /** A row listed earlier is still there, in the same activity, and if its version has not moved nor has its stock. */
  lemma ListedRow(start: Sys, s: Sys, onSale: map<Id, Offer>, p: Listed)
    requires Reachable(start, onSale) && Runs(start, s) && ListedFrom(p, start.db)
    ensures Reachable(s, onSale) && OnOffer(onSale, ShelfOf(p))
    ensures p.sku in s.db.skus && s.db.skus[p.sku].activity == p.activity
    ensures s.db.skus[p.sku].version == start.db.skus[p.sku].version ==> s.db.skus[p.sku].available == p.available
  {
    hide Exec, Reachable;
    var steps :| s == Exec(start, steps);
    RunEvolvesRows(start, steps);
    ReachableRuns(start, s, onSale);
    ActivityOfSku(start, onSale, p.sku);
  }

  /** Writing a listed value changes nothing exactly when the row has lost as many units since as are held off
      order; that is also exactly when the invariant survives. Otherwise the ledger is off by the difference. */
  lemma SyncIsHarmlessIff(start: Sys, s: Sys, onSale: map<Id, Offer>, p: Listed)
    requires Reachable(start, onSale) && Runs(start, s) && ListedFrom(p, start.db)
    ensures p.sku in s.db.skus && p.sku in onSale && ShelfOf(p) in Synced(s, p).redis.stock
    ensures Synced(s, p) == s <==> OffOrder(s, p.sku) == s.db.skus[p.sku].available - p.available
    ensures Inv(Synced(s, p), onSale) <==> Synced(s, p) == s
    ensures var t := Synced(s, p);
            t.redis.stock[ShelfOf(p)] + OffOrder(t, p.sku) + Ordered(t.db.orders, p.sku)
            == onSale[p.sku].units + p.available + OffOrder(s, p.sku) - s.db.skus[p.sku].available
  {
    ListedRow(start, s, onSale, p);
    CrossStoreLedger(s, onSale, ShelfOf(p));
    CacheLagsByReservations(s, onSale, ShelfOf(p));
    ReachableInv(s, onSale);
    SyncedHolds(s, p);
    hide Reachable, Runs, OffOrder, Inv, Holds;
    if p.available == s.redis.stock[ShelfOf(p)] {
      PutSame(s.redis.stock, ShelfOf(p), p.available);
    } else {
      assert Synced(s, p).redis.stock[ShelfOf(p)] != s.redis.stock[ShelfOf(p)];
      LedgerOff(s, Synced(s, p), onSale, ShelfOf(p));
    }
  }

  lemma SyncedHolds(s: Sys, p: Listed)
    ensures Holds(Synced(s, p)) == Holds(s) && OffOrder(Synced(s, p), p.sku) == OffOrder(s, p.sku)
  {
    assert IsSame(s, Synced(s, p));
    SameHolds(s, Synced(s, p));
  }

  ghost predicate IsSame(s: Sys, t: Sys) {
    t.db.orders == s.db.orders && t.threads == s.threads && t.cancels == s.cancels && t.redis.pending == s.redis.pending
  }

  lemma SameHolds(s: Sys, t: Sys)
    requires IsSame(s, t)
    ensures Holds(t) == Holds(s)
  {
    hide HasRequest;
    SameHold(s, t, "");
  }

  /** With the row untouched since the listing, which its version tells, what matters is what is held. */
  lemma SyncOfUntouchedRowIff(start: Sys, s: Sys, onSale: map<Id, Offer>, p: Listed)
    requires Reachable(start, onSale) && Runs(start, s) && Untouched(p, start.db, s.db)
    ensures Synced(s, p) == s <==> OffOrder(s, p.sku) == 0
    ensures Inv(Synced(s, p), onSale) <==> OffOrder(s, p.sku) == 0
    ensures ShelfOf(p) in s.redis.stock
            && Synced(s, p).redis.stock[ShelfOf(p)] == s.redis.stock[ShelfOf(p)] + OffOrder(s, p.sku)
  {
    ListedRow(start, s, onSale, p);
    SyncIsHarmlessIff(start, s, onSale, p);
    CacheLagsByReservations(s, onSale, ShelfOf(p));
    hide Reachable, Runs, OffOrder, Inv;
  }

  /** At rest with every reservation resolved and no row touched since the listing, a full pass changes nothing. */
  lemma {:induction false} SyncChangesNothingAtRest(start: Sys, s: Sys, onSale: map<Id, Offer>, rows: seq<Listed>)
    requires Reachable(start, onSale) && Runs(start, s) && Quiet(s) && forall r :: !Unresolved(s, r)
    requires forall p :: p in rows ==> Untouched(p, start.db, s.db)
    ensures AllSynced(s, rows) == s
    decreases |rows|
  {
    if rows != [] {
      var p := rows[|rows| - 1];
      SyncChangesNothingAtRest(start, s, onSale, rows[..|rows| - 1]);
      assert p in rows;
      hide Runs, Reachable;
      ListedRow(start, s, onSale, p);
      CacheAgreesAtRest(s, onSale, ShelfOf(p));
      PutSame(s.redis.stock, ShelfOf(p), p.available);
    }
  }

  class CompensateTask {
    const d: Deployment

    constructor (d: Deployment)
      ensures this.d == d
    {
      this.d := d;
    }

    /** One record of the scan. */
    method FixPendingReservation(r: RequestId, now: int)
      modifies d.cache, d.repo
      ensures d.State() == Fixed(old(d.State()), r, now)
    {
      if r !in d.cache.pending || Young(d.cache.pending[r], now) {
        return;
      }
      var order := d.repo.GetOrderByRequestID(r);
      if order.Some? {
        d.cache.DeletePendingReservation(r);
      } else {
        d.GiveBackReservation(r, d.cache.pending[r].claim);
      }
    }

    /** fixPendingReservations, over the keys in the order the scan yields them. Afterwards exactly the young
        records are left. If nothing older than the grace period was in progress, it was a schedule of the protocol
        and keeps its invariant. */
    method FixPendingReservations(now: int, ghost onSale: map<Id, Offer>) returns (scanned: seq<RequestId>)
      modifies d.cache, d.repo
      ensures d.State() == Swept(old(d.State()), scanned, now)
      ensures forall r :: r in scanned <==> r in old(d.cache.pending)
      ensures forall r :: r in d.cache.pending
                          <==> r in old(d.cache.pending) && now - old(d.cache.pending)[r].createdAt < 120
      ensures d.topic == old(d.topic) && d.repo.orders == old(d.repo.orders) && d.repo.skus == old(d.repo.skus)
      ensures InFlightIsYoung(old(d.State()), now) ==>
                Runs(old(d.State()), d.State()) && (Inv(old(d.State()), onSale) ==> Inv(d.State(), onSale))
    {
      hide Inv, Runs, Fixed;
      ghost var s := d.State();
      var unseen := d.cache.pending.Keys;
      scanned := [];
      while unseen != {}
        invariant d.State() == Swept(s, scanned, now)
        invariant forall r :: r in s.redis.pending <==> r in scanned || r in unseen
        invariant forall r :: r in scanned ==> r in s.redis.pending
        decreases unseen
      {
        var r :| r in unseen;
        FixPendingReservation(r, now);
        assert (scanned + [r])[..|scanned|] == scanned;
        scanned := scanned + [r];
        unseen := unseen - {r};
      }
      SweepKeepsYoung(s, scanned, now);
      if InFlightIsYoung(s, now) {
        SweptRuns(s, scanned, now);
        if Inv(s, onSale) {
          RunsKeep(s, d.State(), onSale);
        }
      }
    }

    /** syncStockConsistency, over the rows that the product list returned when the pass began. */
    method SyncStockConsistency(products: seq<Listed>)
      modifies d.cache`stock
      ensures d.State() == AllSynced(old(d.State()), products)
    {
      ghost var s := d.State();
      for i := 0 to |products|
        invariant d.State() == AllSynced(s, products[..i])
      {
        assert products[..i + 1][..i] == products[..i];
        var p := products[i];
        if ShelfOf(p) in d.cache.stock {
          if d.cache.stock[ShelfOf(p)] != p.available {
            d.cache.SetStock(ShelfOf(p), p.available);
          } else {
            PutSame(d.cache.stock, ShelfOf(p), p.available);
          }
        }
      }
      assert products[..|products|] == products;
    }
  }
}
