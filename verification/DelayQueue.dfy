/** The delayed-cancellation queue (internal/job/delay_queue.go): two Redis sorted sets and the scripts
    that move order numbers between them. */
module DelayQueue {
  import opened Entities

  const BATCH_SIZE: nat := 100
  const PROCESSING_TIMEOUT := 60   // seconds
  const MIN_POLL := 1
  const MAX_POLL := 30

  type SortedSet = map<OrderNo, int>

  // ---- ZRANGEBYSCORE key -inf now LIMIT 0 limit ----

  function Due(z: SortedSet, now: int): set<OrderNo> {
    set m | m in z && z[m] <= now
  }

  /** Sorted-set order: by score, ties by member. (Snowflake numbers have equally many digits, so the
      lexicographic order of their decimal strings is the numeric one.) */
  predicate Before(z: SortedSet, a: OrderNo, b: OrderNo)
    requires a in z && b in z
  {
    z[a] < z[b] || (z[a] == z[b] && a < b)
  }

  predicate IsFirst(z: SortedSet, candidates: set<OrderNo>, m: OrderNo)
    requires candidates <= z.Keys
  {
    m in candidates && forall x | x in candidates && x != m :: Before(z, m, x)
  }

  lemma {:induction false} FirstExists(z: SortedSet, candidates: set<OrderNo>)
    requires candidates != {} && candidates <= z.Keys
    ensures exists m :: IsFirst(z, candidates, m)
    decreases candidates
  {
    var c :| c in candidates;
    if candidates == {c} {
      assert IsFirst(z, candidates, c);
    } else {
      FirstExists(z, candidates - {c});
      var m :| IsFirst(z, candidates - {c}, m);
      if Before(z, c, m) {
        forall x | x in candidates && x != c
          ensures Before(z, c, x)
        {
          if x != m {
            assert x in candidates - {c} && Before(z, m, x);
          }
        }
        assert IsFirst(z, candidates, c);
      } else {
        assert Before(z, m, c);
        assert IsFirst(z, candidates, m);
      }
    }
  }

  function First(z: SortedSet, candidates: set<OrderNo>): (m: OrderNo)
    requires candidates != {} && candidates <= z.Keys
    ensures IsFirst(z, candidates, m)
  {
    FirstExists(z, candidates);
    var m :| m in candidates && IsFirst(z, candidates, m);
    m
  }

  function RangeByScore(z: SortedSet, now: int, limit: nat): seq<OrderNo>
    decreases limit
  {
    if limit == 0 || Due(z, now) == {} then []
    else
      var m := First(z, Due(z, now));
      [m] + RangeByScore(z - {m}, now, limit - 1)
  }

  function Members(items: seq<OrderNo>): set<OrderNo> {
    set m | m in items
  }

  /** A batch of the earliest due members: distinct, in order, and nothing due that is left out comes before them. */
  ghost predicate EarliestBatch(z: SortedSet, now: int, limit: nat, items: seq<OrderNo>) {
    && (forall m :: m in items ==> m in z && z[m] <= now)
    && |items| == (if |Due(z, now)| <= limit then |Due(z, now)| else limit)
    && (forall i, j :: 0 <= i < j < |items| ==> Before(z, items[i], items[j]))
    && (forall m, x :: m in items && x in Due(z, now) && x !in items ==> Before(z, m, x))
  }

  lemma {:induction false} RangeIsEarliestBatch(z: SortedSet, now: int, limit: nat)
    ensures EarliestBatch(z, now, limit, RangeByScore(z, now, limit))
    decreases limit
  {
    if limit > 0 && Due(z, now) != {} {
      var m := First(z, Due(z, now));
      RangeIsEarliestBatch(z - {m}, now, limit - 1);
      BatchGrows(z, now, limit, m, RangeByScore(z - {m}, now, limit - 1));
    }
  }

  /** The first due member before a batch of the others. */
  lemma BatchGrows(z: SortedSet, now: int, limit: nat, m: OrderNo, tail: seq<OrderNo>)
    requires limit > 0 && m in Due(z, now) && IsFirst(z, Due(z, now), m)
    requires EarliestBatch(z - {m}, now, limit - 1, tail)
    ensures EarliestBatch(z, now, limit, [m] + tail)
  {
    var items, rest := [m] + tail, z - {m};
    assert Due(rest, now) == Due(z, now) - {m};
    forall x | x in items
      ensures x in z && z[x] <= now
      ensures forall y :: y in Due(z, now) && y !in items ==> Before(z, x, y)
    {
      if x != m {
        assert x in tail;
        assert forall y :: y in Due(z, now) && y !in items ==> y in Due(rest, now) && Before(rest, x, y);
      }
    }
    forall i, j | 0 <= i < j < |items|
      ensures Before(z, items[i], items[j])
    {
      assert items[j] == tail[j - 1] && items[j] in Due(rest, now);
      if i > 0 {
        assert Before(rest, tail[i - 1], tail[j - 1]);
      }
    }
  }

  ghost predicate Distinct(items: seq<OrderNo>) {
    forall i, j :: 0 <= i < j < |items| ==> items[i] != items[j]
  }

  lemma RangeIsDistinct(z: SortedSet, now: int, limit: nat)
    ensures var items := RangeByScore(z, now, limit);
            Distinct(items) && Members(items) <= Due(z, now)
  {
    RangeIsEarliestBatch(z, now, limit);
    var items := RangeByScore(z, now, limit);
    forall i, j | 0 <= i < j < |items|
      ensures items[i] != items[j]
    {
      assert Before(z, items[i], items[j]);
    }
  }

  lemma BatchIsAllWhenShort(z: SortedSet, now: int, limit: nat)
    ensures Members(RangeByScore(z, now, limit)) <= Due(z, now)
    ensures |RangeByScore(z, now, limit)| < limit ==> Members(RangeByScore(z, now, limit)) == Due(z, now)
    ensures |Due(z, now)| >= limit ==> |RangeByScore(z, now, limit)| == limit
    ensures |RangeByScore(z, now, limit)| <= limit
  {
    RangeIsEarliestBatch(z, now, limit);
    RangeIsDistinct(z, now, limit);
    var items := RangeByScore(z, now, limit);
    if |items| < limit {
      DistinctMembers(items);
      SubsetFills(Members(items), Due(z, now));
    }
  }

  lemma {:induction false} DistinctMembers(items: seq<OrderNo>)
    requires Distinct(items)
    ensures |Members(items)| == |items|
    decreases |items|
  {
    if items != [] {
      var last := items[|items| - 1];
      var init := items[..|items| - 1];
      DistinctMembers(init);
      assert Members(items) == Members(init) + {last};
      assert last !in Members(init);
    }
  }

  lemma SubsetFills(a: set<OrderNo>, b: set<OrderNo>)
    requires a <= b && |a| == |b|
    ensures a == b
  {
    if a != b {
      var x :| x in b && x !in a;
      SubsetSize(a, b - {x});
    }
  }

  lemma {:induction false} SubsetSize(a: set<OrderNo>, b: set<OrderNo>)
    requires a <= b
    ensures |a| <= |b|
    decreases a
  {
    if a != {} {
      var x :| x in a;
      SubsetSize(a - {x}, b - {x});
    }
  }

  // ---- the scripts, as functions on the two sets ----

  datatype Queue = Queue(main: SortedSet, processing: SortedSet)

  function Scored(items: seq<OrderNo>, score: int): SortedSet {
    map m | m in items :: score
  }

  function Claimed(q: Queue, now: int, expireAt: int, limit: nat): (Queue, seq<OrderNo>) {
    var items := RangeByScore(q.main, now, limit);
    (Queue(q.main - Members(items), q.processing + Scored(items, expireAt)), items)
  }

  function Requeued(q: Queue, now: int, limit: nat): Queue {
    var items := RangeByScore(q.processing, now, limit);
    Queue(q.main + Scored(items, now), q.processing - Members(items))
  }

  // ---- rounds of the scanner at one clock reading ----

  predicate Apart(q: Queue) {
    q.main.Keys !! q.processing.Keys
  }

  /** What a scan at this time still has to deal with: due orders, and claims whose deadline has passed. */
  function Work(q: Queue, now: int): set<OrderNo> {
    Due(q.main, now) + Due(q.processing, now)
  }

  /** Moving due members from one set to the other under a new score. */
  lemma MoveEffect(source: SortedSet, target: SortedSet, items: seq<OrderNo>, score: int, now: int)
    requires Members(items) <= Due(source, now) && source.Keys !! target.Keys
    ensures Members(items) <= Due(source, now) <= source.Keys && Due(target, now) <= target.Keys
    ensures (source - Members(items)).Keys == source.Keys - Members(items)
    ensures (target + Scored(items, score)).Keys == target.Keys + Members(items)
    ensures Due(source - Members(items), now) == Due(source, now) - Members(items)
    ensures Due(target + Scored(items, score), now) == if score <= now then Due(target, now) + Members(items)
                                                       else Due(target, now)
  {
    assert Scored(items, score).Keys == Members(items);
  }

  /** Members moved from `a` to `b`, seen through the sets holding them: `x` and `y` are the parts of `a` and `b`
      that matter. */
  lemma MovedSets(a: set<OrderNo>, b: set<OrderNo>, x: set<OrderNo>, y: set<OrderNo>, moved: set<OrderNo>)
    requires moved <= x <= a && y <= b && a !! b
    ensures (a - moved) !! (b + moved)
    ensures (a - moved) + (b + moved) == a + b
    ensures (x - moved) + (y + moved) == x + y
    ensures (x - moved) + y == (x + y) - moved
  {
  }

  lemma RequeueEffect(q: Queue, now: int, limit: nat)
    requires Apart(q)
    ensures var after := Requeued(q, now, limit);
            && Apart(after)
            && after.main.Keys + after.processing.Keys == q.main.Keys + q.processing.Keys
            && Work(after, now) == Work(q, now)
            && (|Due(after.main, now)| < limit ==> Due(after.processing, now) == {})
  {
    hide RangeByScore, Due, Members, Scored, Distinct;
    var items := RangeByScore(q.processing, now, limit);
    BatchIsAllWhenShort(q.processing, now, limit);
    RangeIsDistinct(q.processing, now, limit);
    MoveEffect(q.processing, q.main, items, now, now);
    var moved, mainDue, late := Members(items), Due(q.main, now), Due(q.processing, now);
    MovedSets(q.processing.Keys, q.main.Keys, late, mainDue, moved);
    var after := Requeued(q, now, limit);
    assert Work(after, now) == (mainDue + moved) + (late - moved) == (late - moved) + (mainDue + moved)
        == Work(q, now) by {
      UnionSwaps(late - moved, mainDue + moved);
      UnionSwaps(late, mainDue);
    }
    UnionSwaps(q.processing.Keys - moved, q.main.Keys + moved);
    UnionSwaps(q.processing.Keys, q.main.Keys);
    if |Due(after.main, now)| < limit {
      DistinctMembers(items);
      SubsetSize(moved, mainDue + moved);
    }
  }

  lemma UnionSwaps(a: set<OrderNo>, b: set<OrderNo>)
    ensures a + b == b + a
  {
  }

  lemma ClaimEffect(q: Queue, now: int, expireAt: int, limit: nat)
    requires Apart(q) && now < expireAt
    ensures var (after, items) := Claimed(q, now, expireAt, limit);
            && Apart(after)
            && after.main.Keys + after.processing.Keys == q.main.Keys + q.processing.Keys
            && Distinct(items) && Members(items) <= Due(q.main, now)
            && Work(after, now) == Work(q, now) - Members(items)
            && (|items| < limit ==> Work(after, now) == Due(q.processing, now))
  {
    hide RangeByScore, Due, Members, Scored, Distinct;
    var items := RangeByScore(q.main, now, limit);
    BatchIsAllWhenShort(q.main, now, limit);
    RangeIsDistinct(q.main, now, limit);
    MoveEffect(q.main, q.processing, items, expireAt, now);
    MovedSets(q.main.Keys, q.processing.Keys, Due(q.main, now), Due(q.processing, now), Members(items));
    if |items| < limit {
      NothingLeft(Due(q.main, now), Due(q.processing, now));
    }
  }

  lemma NothingLeft(a: set<OrderNo>, b: set<OrderNo>)
    ensures (a - a) + b == b
  {
  }

  function Round(q: Queue, now: int): (Queue, seq<OrderNo>) {
    Claimed(Requeued(q, now, BATCH_SIZE), now, now + PROCESSING_TIMEOUT, BATCH_SIZE)
  }

  /** A scan claims the hundred earliest orders that are due, or all if they are fewer; each has a minute to be
      dealt with. Those whose minute was over before, the hundred earliest again, had first come back, due at once. */
  lemma RoundInNumbers(q: Queue, now: int, no: OrderNo)
    requires Apart(q)
    ensures var (after, items) := Round(q, now);
            && |items| <= 100 && (|items| < 100 ==> Due(after.main, now) == {})
            && (no in items ==> no in after.processing && after.processing[no] == now + 60)
            && (no in q.processing && now < q.processing[no] ==>
                  no in after.processing && after.processing[no] == q.processing[no])
            && (no in after.main ==> after.main[no] == if no in q.main then q.main[no] else now)
  {
    hide RangeByScore, Due;
    RoundSize(q, now);
    RequeueOf(q, now, no);
    ClaimOf(Requeued(q, now, BATCH_SIZE), now, no);
    hide Requeued, Claimed;
    NotDue(q.processing, now, no);
  }

  lemma RoundSize(q: Queue, now: int)
    requires Apart(q)
    ensures var (after, items) := Round(q, now);
            |items| <= 100 && (|items| < 100 ==> Due(after.main, now) == {})
  {
    hide RangeByScore, Due, Members, Scored;
    var mid := Requeued(q, now, BATCH_SIZE);
    var items := RangeByScore(mid.main, now, BATCH_SIZE);
    RequeueEffect(q, now, BATCH_SIZE);
    RangeIsDistinct(mid.main, now, BATCH_SIZE);
    BatchIsAllWhenShort(mid.main, now, BATCH_SIZE);
    MoveEffect(mid.main, mid.processing, items, now + PROCESSING_TIMEOUT, now);
  }

  lemma NotDue(z: SortedSet, now: int, no: OrderNo)
    ensures no in z && now < z[no] ==> no !in Due(z, now)
  {
  }

  lemma RequeueOf(q: Queue, now: int, no: OrderNo)
    requires Apart(q)
    ensures var mid := Requeued(q, now, BATCH_SIZE);
            && (no in mid.main ==> mid.main[no] == if no in q.main then q.main[no] else now)
            && (no in q.processing && now < q.processing[no] ==>
                  no !in mid.main && no in mid.processing && mid.processing[no] == q.processing[no])
  {
    hide RangeByScore, Due;
    var back := RangeByScore(q.processing, now, BATCH_SIZE);
    RangeIsDistinct(q.processing, now, BATCH_SIZE);
    MovedMember(q.processing, q.main, back, now, now, no);
  }

  lemma ClaimOf(q: Queue, now: int, no: OrderNo)
    ensures var (after, items) := Claimed(q, now, now + PROCESSING_TIMEOUT, BATCH_SIZE);
            && (no in items ==> no in q.main && no in after.processing
                                && after.processing[no] == now + PROCESSING_TIMEOUT)
            && (no !in q.main && no in q.processing
                ==> no in after.processing && after.processing[no] == q.processing[no])
            && (no in after.main ==> no in q.main && after.main[no] == q.main[no])
  {
    hide RangeByScore, Due;
    var items := RangeByScore(q.main, now, BATCH_SIZE);
    RangeIsDistinct(q.main, now, BATCH_SIZE);
    MovedMember(q.main, q.processing, items, now + PROCESSING_TIMEOUT, now, no);
  }

  /** What either script does to one order number: a member that is due moves, the rest stay. */
  lemma MovedMember(source: SortedSet, target: SortedSet, items: seq<OrderNo>, score: int, now: int, no: OrderNo)
    requires Members(items) <= Due(source, now)
    ensures no in items ==> no in source && source[no] <= now
    ensures no in source - Members(items) <==> no in source && no !in items
    ensures no in source && no !in items ==> (source - Members(items))[no] == source[no]
    ensures no in target + Scored(items, score) <==> no in target || no in items
    ensures no in items ==> (target + Scored(items, score))[no] == score
    ensures no in target && no !in items ==> (target + Scored(items, score))[no] == target[no]
  {
    assert no in items <==> no in Members(items);
    assert no in items <==> no in Scored(items, score);
  }

  lemma RoundIs(q: Queue, now: int)
    ensures Round(q, now) == Claimed(Requeued(q, now, BATCH_SIZE), now, now + PROCESSING_TIMEOUT, BATCH_SIZE)
  {
  }

  /** One scan takes a batch out of the work and adds nothing to it; a batch that is not full leaves none. */
  lemma RoundEffect(q: Queue, now: int)
    requires Apart(q)
    ensures var (after, items) := Round(q, now);
            && Apart(after)
            && after.main.Keys + after.processing.Keys == q.main.Keys + q.processing.Keys
            && Distinct(items) && Members(items) <= Work(q, now) && |items| <= BATCH_SIZE
            && Work(after, now) == Work(q, now) - Members(items)
            && (|items| < BATCH_SIZE ==> Work(after, now) == {})
  {
    var mid := Requeued(q, now, BATCH_SIZE);
    RequeueEffect(q, now, BATCH_SIZE);
    ClaimEffect(mid, now, now + PROCESSING_TIMEOUT, BATCH_SIZE);
    BatchIsAllWhenShort(mid.main, now, BATCH_SIZE);
    hide RangeByScore, Requeued;
  }

  /** Seconds until the next scan: the earliest order's due time, kept within one and thirty seconds. */
  function NextPollTime(main: SortedSet, now: int): (t: int)
    ensures now + MIN_POLL <= t <= now + MAX_POLL
  {
    if main == map[] then now + MAX_POLL
    else
      var wait := main[First(main, main.Keys)] - now;
      now + (if wait < MIN_POLL then MIN_POLL else if wait > MAX_POLL then MAX_POLL else wait)
  }

  /** The scanner never sleeps past an order that falls due a second or more from now, whatever else is queued. */
  lemma NoOrderSleptPast(main: SortedSet, now: int, no: OrderNo)
    requires no in main && main[no] >= now + MIN_POLL
    ensures NextPollTime(main, now) <= main[no]
  {
    var first := First(main, main.Keys);
    assert first == no || Before(main, first, no);
  }

  /** The next scan is at the time the earliest order falls due, but in no less than a second and no more than
      thirty, which is also the wait on an empty queue. */
  lemma NextPollIs(main: SortedSet, now: int)
    ensures main == map[] ==> NextPollTime(main, now) == now + 30
    ensures main != map[] ==>
              exists no :: no in main && (forall o :: o in main ==> main[no] <= main[o])
                           && NextPollTime(main, now) ==
                              if main[no] < now + 1 then now + 1 else if main[no] > now + 30 then now + 30 else main[no]
  {
    if main != map[] {
      var no := First(main, main.Keys);
      forall o | o in main
        ensures main[no] <= main[o]
      {
        assert o == no || Before(main, no, o);
      }
    }
  }

  /** One round of either script's loop. */
  lemma MoveOne(source: SortedSet, target: SortedSet, items: seq<OrderNo>, i: nat, score: int)
    requires i < |items| && Distinct(items) && Members(items) <= source.Keys
    ensures items[i] in source - Members(items[..i])
    ensures source - Members(items[..i]) - {items[i]} == source - Members(items[..i + 1])
    ensures (target + Scored(items[..i], score))[items[i] := score] == target + Scored(items[..i + 1], score)
  {
    assert items[..i + 1] == items[..i] + [items[i]];
    assert items[i] in Members(items);
    assert Members(items[..i + 1]) == Members(items[..i]) + {items[i]};
    assert Scored(items[..i + 1], score) == Scored(items[..i], score)[items[i] := score];
  }

  // ---- the queue ----

  class DelayQueue {
    var main: SortedSet
    var processing: SortedSet

    function Value(): Queue
      reads this
    {
      Queue(main, processing)
    }

    constructor ()
      ensures Value() == Queue(map[], map[])
    {
      main, processing := map[], map[];
    }

    method Add(no: OrderNo, dueAt: int)
      modifies this`main
      ensures main == old(main)[no := dueAt]
    {
      main := main[no := dueAt];
    }

    /** Script: move the earliest due members from main to processing, one ZREM and ZADD each. */
    method ClaimDueOrders(now: int, expireAt: int, limit: nat) returns (claimed: seq<OrderNo>)
      modifies this
      ensures (Value(), claimed) == Claimed(old(Value()), now, expireAt, limit)
    {
      var items := RangeByScore(main, now, limit);
      RangeIsDistinct(main, now, limit);
      claimed := [];
      for i := 0 to |items|
        invariant claimed == items[..i]
        invariant main == old(main) - Members(items[..i])
        invariant processing == old(processing) + Scored(items[..i], expireAt)
      {
        MoveOne(old(main), old(processing), items, i, expireAt);
        assert items[..i + 1] == items[..i] + [items[i]];
        if items[i] in main {
          main := main - {items[i]};
          processing := processing[items[i] := expireAt];
          claimed := claimed + [items[i]];
        }
      }
      assert items[..|items|] == items;
    }

    /** Script: move members whose processing deadline has passed back to main, due at once. */
    method RequeueExpiredProcessing(now: int)
      modifies this
      ensures Value() == Requeued(old(Value()), now, BATCH_SIZE)
    {
      var items := RangeByScore(processing, now, BATCH_SIZE);
      RangeIsDistinct(processing, now, BATCH_SIZE);
      for i := 0 to |items|
        invariant main == old(main) + Scored(items[..i], now)
        invariant processing == old(processing) - Members(items[..i])
      {
        MoveOne(old(processing), old(main), items, i, now);
        if items[i] in processing {
          processing := processing - {items[i]};
          main := main[items[i] := now];
        }
      }
      assert items[..|items|] == items;
    }

    /** A worker that has dealt with the order removes it from processing. */
    method Acknowledge(no: OrderNo)
      modifies this`processing
      ensures processing == old(processing) - {no}
    {
      processing := processing - {no};
    }

    /** runOnce, up to handing the claimed orders to workers. A requeue that fails is only logged; a claim that fails,
        or a look at the queue that fails, puts off the next scan by the longest interval. */
    method RunOnce(now: int, requeueOk: bool, claimOk: bool, peekOk: bool) returns (claimed: seq<OrderNo>,
                                                                                    nextPoll: int)
      modifies this
      ensures var start := if requeueOk then Requeued(old(Value()), now, BATCH_SIZE) else old(Value());
              (Value(), claimed) ==
                if claimOk then Claimed(start, now, now + PROCESSING_TIMEOUT, BATCH_SIZE) else (start, [])
      ensures nextPoll ==
              if !claimOk then now + 30
              else if |claimed| == 100 then now
              else if peekOk then NextPollTime(main, now) else now + 30
    {
      hide RangeByScore;
      if requeueOk {
        RequeueExpiredProcessing(now);
      }
      if !claimOk {
        return [], now + MAX_POLL;
      }
      claimed := ClaimDueOrders(now, now + PROCESSING_TIMEOUT, BATCH_SIZE);
      nextPoll :=
        if |claimed| == BATCH_SIZE then now else if peekOk then NextPollTime(main, now) else now + MAX_POLL;
    }

    /** The scanner's loop while the clock stands still: it goes on at once after a full batch. It stops, having claimed
        each due order and each expired claim exactly once and nothing else, with none left. */
    method Drain(now: int) returns (claimed: seq<OrderNo>)
      requires Apart(Value())
      modifies this
      ensures Apart(Value()) && Work(Value(), now) == {}
      ensures Distinct(claimed) && Members(claimed) == Work(old(Value()), now)
      ensures main.Keys + processing.Keys == old(main.Keys + processing.Keys)
    {
      hide Round, Claimed, Requeued, Distinct, Members, Work;
      claimed := [];
      EmptyBatch();
      var full := true;
      while full
        invariant Apart(Value())
        invariant Distinct(claimed)
        invariant Members(claimed) !! Work(Value(), now)
        invariant Members(claimed) + Work(Value(), now) == Work(old(Value()), now)
        invariant main.Keys + processing.Keys == old(main.Keys + processing.Keys)
        invariant !full ==> Work(Value(), now) == {}
        decreases full, |Work(Value(), now)|
      {
        ghost var before := Value();
        RoundEffect(before, now);
        RoundIs(before, now);
        var batch, nextPoll := RunOnce(now, true, true, true);
        DistinctJoin(claimed, batch);
        if |batch| == BATCH_SIZE {
          FullBatchShrinks(Work(before, now), batch);
        }
        claimed := claimed + batch;
        full := |batch| == BATCH_SIZE;
      }
    }
  }

  lemma EmptyBatch()
    ensures Distinct([]) && Members([]) == {}
  {
  }

  lemma FullBatchShrinks(work: set<OrderNo>, batch: seq<OrderNo>)
    requires batch != [] && Members(batch) <= work
    ensures |work - Members(batch)| < |work|
  {
    assert batch[0] in Members(batch);
    StrictSubset(work - Members(batch), work);
  }

  lemma DistinctJoin(a: seq<OrderNo>, b: seq<OrderNo>)
    requires Distinct(a) && Distinct(b) && Members(a) !! Members(b)
    ensures Distinct(a + b) && Members(a + b) == Members(a) + Members(b)
  {
    forall i, j | 0 <= i < j < |a + b|
      ensures (a + b)[i] != (a + b)[j]
    {
      if i < |a| <= j {
        assert a[i] in Members(a) && b[j - |a|] in Members(b);
      }
    }
  }

  lemma StrictSubset(a: set<OrderNo>, b: set<OrderNo>)
    requires a < b
    ensures |a| < |b|
  {
    SubsetSize(a, b);
    if |a| == |b| {
      SubsetFills(a, b);
    }
  }
}
