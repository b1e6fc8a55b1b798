/** The token bucket (internal/cache/limiter.go). Token amounts are reals; the clock counts microseconds. */
module Limiter {
  import opened Wrappers

  const MICROS := 1_000_000.0

  datatype Bucket = Bucket(tokens: real, last: int)

  datatype Params = Params(rate: real, capacity: real)

  /** Rates and capacities come from bucketParams, which never makes them negative. */
  predicate Sound(p: Params) {
    p.rate >= 0.0 && p.capacity >= 0.0
  }

  /** Tokens that flow in during a span of microseconds. */
  function Gain(p: Params, micros: int): real {
    (micros as real) / MICROS * p.rate
  }

  /** The tokens a call finds: a new bucket is full, and a clock that went back adds nothing. */
  function Found(b: Option<Bucket>, p: Params, now: int): real {
    match b
    case None => p.capacity
    case Some(Bucket(tokens, last)) =>
      var refilled := tokens + Gain(p, if now < last then 0 else now - last);
      if refilled > p.capacity then p.capacity else refilled
  }

  /** One run of the script: the bucket it stores, and its verdict. */
  function Call(b: Option<Bucket>, p: Params, now: int): (Bucket, bool) {
    var tokens := Found(b, p, now);
    if tokens >= 1.0 then (Bucket(tokens - 1.0, now), true) else (Bucket(tokens, now), false)
  }

  /** The verdicts on a sequence of calls. */
  function Verdicts(b: Option<Bucket>, p: Params, times: seq<int>): seq<bool>
    decreases |times|
  {
    if times == [] then []
    else [Call(b, p, times[0]).1] + Verdicts(Some(Call(b, p, times[0]).0), p, times[1..])
  }

  function After(b: Option<Bucket>, p: Params, times: seq<int>): Option<Bucket>
    decreases |times|
  {
    if times == [] then b else After(Some(Call(b, p, times[0]).0), p, times[1..])
  }

  function Count(verdicts: seq<bool>): nat {
    if verdicts == [] then 0 else (if verdicts[0] then 1 else 0) + Count(verdicts[1..])
  }

  predicate Within(b: Option<Bucket>, p: Params) {
    b.Some? ==> 0.0 <= b.value.tokens <= p.capacity
  }

  lemma GainAdds(p: Params, a: int, b: int)
    ensures Gain(p, a) + Gain(p, b) == Gain(p, a + b)
    ensures Gain(p, 0) == 0.0
  {
    var x, y := (a as real) / MICROS, (b as real) / MICROS;
    assert ((a + b) as real) / MICROS == x + y;
    assert (x + y) * p.rate == x * p.rate + y * p.rate;
  }

  lemma GainGrows(p: Params, a: int, b: int)
    requires Sound(p) && a <= b
    ensures Gain(p, a) <= Gain(p, b)
  {
    GainAdds(p, a, b - a);
    Product((b - a) as real / MICROS, p.rate);
  }

  lemma Product(x: real, y: real)
    requires x >= 0.0 && y >= 0.0
    ensures x * y >= 0.0
  {
  }

  /** Tokens stay between zero and the capacity, through every sequence of calls, whatever the clock does. */
  lemma {:induction false} TokensStayWithin(b: Option<Bucket>, p: Params, times: seq<int>)
    requires Sound(p) && Within(b, p)
    ensures Within(After(b, p, times), p)
    decreases |times|
  {
    if times != [] {
      CallWithin(b, p, times[0]);
      TokensStayWithin(Some(Call(b, p, times[0]).0), p, times[1..]);
    }
  }

  lemma CallWithin(b: Option<Bucket>, p: Params, now: int)
    requires Sound(p) && Within(b, p)
    ensures 0.0 <= Found(b, p, now) <= p.capacity
    ensures Within(Some(Call(b, p, now).0), p)
  {
    if b.Some? {
      var span := if now < b.value.last then 0 else now - b.value.last;
      GainAdds(p, 0, 0);
      GainGrows(p, 0, span);
    }
  }

  // ---- the admission bound ----

  /** How far the clock moves forward over a sequence of calls, its jumps back not counted. */
  function Climb(times: seq<int>): nat
    decreases |times|
  {
    if |times| <= 1 then 0
    else (if times[1] < times[0] then 0 else times[1] - times[0]) + Climb(times[1..])
  }

  /** Whatever the clock does, no sequence of calls is granted more than the capacity and what flows in while
      the clock moves forward. */
  lemma {:induction false} GrantedAtMostClimb(b: Option<Bucket>, p: Params, times: seq<int>)
    requires Sound(p) && Within(b, p) && times != []
    ensures Count(Verdicts(b, p, times)) as real <= Found(b, p, times[0]) + Gain(p, Climb(times))
    ensures Found(b, p, times[0]) <= p.capacity
    decreases |times|
  {
    var (next, granted) := Call(b, p, times[0]);
    CallWithin(b, p, times[0]);
    CountFirst(granted, Verdicts(Some(next), p, times[1..]));
    GainAdds(p, 0, 0);
    if |times| > 1 {
      var move := if times[1] < times[0] then 0 else times[1] - times[0];
      GrantedAtMostClimb(Some(next), p, times[1..]);
      assert Found(Some(next), p, times[1]) <= next.tokens + Gain(p, move);
      GainAdds(p, move, Climb(times[1..]));
    } else {
      assert Verdicts(Some(next), p, times[1..]) == [];
    }
  }

  lemma CountFirst(first: bool, rest: seq<bool>)
    ensures Count([first] + rest) == (if first then 1 else 0) + Count(rest)
  {
    assert ([first] + rest)[1..] == rest;
  }

  predicate Nondecreasing(times: seq<int>) {
    forall i, j :: 0 <= i < j < |times| ==> times[i] <= times[j]
  }

  lemma {:induction false} ClimbIsElapsed(times: seq<int>)
    requires Nondecreasing(times) && times != []
    ensures Climb(times) == times[|times| - 1] - times[0]
    decreases |times|
  {
    if |times| > 1 {
      ClimbIsElapsed(times[1..]);
    }
  }

  lemma {:induction false} VerdictsSplit(b: Option<Bucket>, p: Params, first: seq<int>, rest: seq<int>)
    ensures Verdicts(b, p, first + rest) == Verdicts(b, p, first) + Verdicts(After(b, p, first), p, rest)
    ensures |Verdicts(b, p, first)| == |first|
    decreases |first|
  {
    if first == [] {
      assert first + rest == rest;
    } else {
      assert (first + rest)[1..] == first[1..] + rest;
      VerdictsSplit(Some(Call(b, p, first[0]).0), p, first[1..], rest);
    }
  }

  lemma LaterVerdicts(b: Option<Bucket>, p: Params, times: seq<int>, i: nat)
    requires i <= |times|
    ensures |Verdicts(b, p, times)| == |times|
    ensures Verdicts(b, p, times)[i..] == Verdicts(After(b, p, times[..i]), p, times[i..])
  {
    assert times[..i] + times[i..] == times;
    VerdictsSplit(b, p, times[..i], times[i..]);
    VerdictsSplit(After(b, p, times[..i]), p, times[i..], []);
  }

  lemma EarlierVerdicts(b: Option<Bucket>, p: Params, times: seq<int>, j: nat)
    requires j <= |times|
    ensures |Verdicts(b, p, times)| == |times|
    ensures Verdicts(b, p, times)[..j] == Verdicts(b, p, times[..j])
  {
    assert times[..j] + times[j..] == times;
    VerdictsSplit(b, p, times[..j], times[j..]);
    VerdictsSplit(After(b, p, times[..j]), p, times[j..], []);
  }

  /** The verdicts within a window are those of the window's calls on the bucket as the earlier ones left it. */
  lemma WindowVerdicts(b: Option<Bucket>, p: Params, times: seq<int>, i: nat, j: nat)
    requires i <= j <= |times|
    ensures |Verdicts(b, p, times)| == |times|
    ensures Verdicts(b, p, times)[i..j] == Verdicts(After(b, p, times[..i]), p, times[i..j])
  {
    LaterVerdicts(b, p, times, i);
    EarlierVerdicts(After(b, p, times[..i]), p, times[i..], j - i);
    hide Verdicts, After;
    assert times[i..][..j - i] == times[i..j];
    assert Verdicts(b, p, times)[i..][..j - i] == Verdicts(b, p, times)[i..j];
  }

  /** The admission bound: over any window of any sequence of calls on a fresh bucket, the granted calls are at most
      the capacity and what flows in between the first and the last call of the window. */
  lemma WindowBound(p: Params, times: seq<int>, i: nat, j: nat)
    requires Sound(p) && Nondecreasing(times) && i <= j < |times|
    ensures |Verdicts(None, p, times)| == |times|
    ensures Count(Verdicts(None, p, times)[i..j + 1]) as real <= p.capacity + Gain(p, times[j] - times[i])
  {
    var window := times[i..j + 1];
    WindowVerdicts(None, p, times, i, j + 1);
    TokensStayWithin(None, p, times[..i]);
    GrantedAtMostClimb(After(None, p, times[..i]), p, window);
    ClimbIsElapsed(window);
  }

  /** Without a steady clock the bound fails, since the script stores the clock even when it went back: a second
      between calls is counted as often as the clock crosses it. */
  lemma ClockStepBackRefillsTwice()
    ensures var p, times := Params(1.0, 1.0), [1_000_000, 0, 1_000_000];
            && Count(Verdicts(None, p, times)) as real > p.capacity + Gain(p, times[2] - times[0])
  {
    var p := Params(1.0, 1.0);
    var (a, x) := Call(None, p, 1_000_000);
    var (b, y) := Call(Some(a), p, 0);
    var (c, z) := Call(Some(b), p, 1_000_000);
    assert a == Bucket(0.0, 1_000_000) && x;
    assert b == Bucket(0.0, 0) && !y;
    assert z;
    assert [1_000_000, 0, 1_000_000][1..] == [0, 1_000_000];
    assert [0, 1_000_000][1..] == [1_000_000];
    assert Verdicts(Some(b), p, [1_000_000]) == [true];
    assert Verdicts(Some(a), p, [0, 1_000_000]) == [false, true];
    assert Verdicts(None, p, [1_000_000, 0, 1_000_000]) == [true, false, true];
    CountFirst(false, [true]);
    CountFirst(true, [false, true]);
    assert [true, false, true] == [true] + [false, true];
  }

  /** A sequence climbs at least as far as it gets, and no further only if it never steps back. */
  lemma {:induction false} ClimbExceeds(times: seq<int>)
    requires times != []
    ensures Climb(times) >= times[|times| - 1] - times[0]
    ensures Climb(times) == times[|times| - 1] - times[0] ==> Nondecreasing(times)
    decreases |times|
  {
    if |times| > 1 {
      var rest := times[1..];
      ClimbExceeds(rest);
      if Climb(times) == times[|times| - 1] - times[0] {
        forall i, j | 0 <= i < j < |times|
          ensures times[i] <= times[j]
        {
          assert times[j] == rest[j - 1];
          if i > 0 {
            assert times[i] == rest[i - 1];
          } else {
            assert rest[0] <= rest[j - 1];
          }
        }
      }
    }
  }

  /** A bucket that is one token short of its calls, has the token flow in while the clock climbs, and never overflows,
      grants them all. */
  lemma {:induction false} EveryCallGranted(b: Bucket, p: Params, rest: seq<int>)
    requires Sound(p)
    requires b.tokens >= |rest| as real - 1.0 && b.tokens + Gain(p, Climb([b.last] + rest)) >= |rest| as real
    requires b.tokens + Gain(p, Climb([b.last] + rest)) <= p.capacity
    ensures Count(Verdicts(Some(b), p, rest)) == |rest|
    decreases |rest|
  {
    if rest != [] {
      var times := [b.last] + rest;
      var move := if rest[0] < b.last then 0 else rest[0] - b.last;
      assert times[1..] == rest && Climb(times) == move + Climb(rest);
      assert [rest[0]] + rest[1..] == rest;
      GainAdds(p, move, Climb(rest));
      GainAdds(p, 0, 0);
      GainGrows(p, 0, move);
      GainGrows(p, 0, Climb(rest));
      if |rest| == 1 {
        assert Climb(rest) == 0;
      }
      var next := Bucket(b.tokens + Gain(p, move) - 1.0, rest[0]);
      assert Call(Some(b), p, rest[0]) == (next, true);
      EveryCallGranted(next, p, rest[1..]);
      CountFirst(true, Verdicts(Some(next), p, rest[1..]));
    }
  }

  /** The window from the first call to the last keeps the bound with these parameters. */
  predicate Bounded(p: Params, times: seq<int>)
    requires times != []
  {
    Count(Verdicts(None, p, times)) as real <= p.capacity + Gain(p, times[|times| - 1] - times[0])
  }

  /** Room for all calls but one, and one token per climb; for a clock that only falls, a token and a fast flow. */
  function Tight(times: seq<int>): Params
    requires times != []
  {
    if Climb(times) == 0 then Params(MICROS * (|times| as real + 1.0), 1.0)
    else Params(1.0 / (Climb(times) as real / MICROS), |times| as real - 1.0)
  }

  lemma TightIsSound(times: seq<int>)
    requires times != []
    ensures Sound(Tight(times)) && (Climb(times) > 0 ==> Gain(Tight(times), Climb(times)) == 1.0)
  {
    if Climb(times) > 0 {
      Reciprocal(Climb(times) as real / MICROS);
    }
  }

  lemma Reciprocal(x: real)
    requires x > 0.0
    ensures 1.0 / x > 0.0 && x * (1.0 / x) == 1.0
  {
  }

  /** A clock that steps back breaks the bound: every call is granted, though one token less came in than the bound
      counts. */
  lemma StepBackIsUnbounded(times: seq<int>)
    requires times != [] && !Nondecreasing(times)
    ensures Sound(Tight(times)) && !Bounded(Tight(times), times)
  {
    var p, elapsed := Tight(times), times[|times| - 1] - times[0];
    TightIsSound(times);
    ClimbExceeds(times);
    if Climb(times) == 0 {
      GainGrows(p, elapsed, -1);
      assert Gain(p, -1) == -(|times| as real + 1.0);
    } else {
      TightGrantsAll(times);
      hide Verdicts, Tight;
      StrictGain(p, elapsed, Climb(times));
      assert p.capacity == |times| as real - 1.0;
    }
  }

  lemma TightGrantsAll(times: seq<int>)
    requires times != [] && Climb(times) > 0
    ensures Count(Verdicts(None, Tight(times), times)) == |times| && Tight(times).capacity == |times| as real - 1.0
  {
    var p := Tight(times);
    TightIsSound(times);
    assert |times| >= 2;
    hide Tight;
    var first := Bucket(p.capacity - 1.0, times[0]);
    assert Call(None, p, times[0]) == (first, true);
    assert [times[0]] + times[1..] == times;
    EveryCallGranted(first, p, times[1..]);
    CountFirst(true, Verdicts(Some(first), p, times[1..]));
  }

  lemma StrictGain(p: Params, a: int, b: int)
    requires Sound(p) && a < b && Gain(p, b) == 1.0
    ensures Gain(p, a) < 1.0
  {
    GainGrows(p, a, b);
    if Gain(p, a) == 1.0 {
      GainAdds(p, a, b - a);
    }
  }

  /** Every window of a call sequence keeps the bound. */
  predicate AllWindowsBounded(p: Params, times: seq<int>) {
    forall i, j :: 0 <= i <= j < |times| ==>
                     |Verdicts(None, p, times)| == |times|
                     && Count(Verdicts(None, p, times)[i..j + 1]) as real <= p.capacity + Gain(p, times[j] - times[i])
  }

  /** The admission bound holds, in every window and for all parameters, exactly for clocks that never step back;
      already for the window from the first call to the last no other clock will do. */
  lemma BoundIffSteadyClock(times: seq<int>)
    requires times != []
    ensures (forall p | Sound(p) :: AllWindowsBounded(p, times)) <==> Nondecreasing(times)
    ensures (forall p | Sound(p) :: Bounded(p, times)) <==> Nondecreasing(times)
  {
    if Nondecreasing(times) {
      forall p | Sound(p)
        ensures AllWindowsBounded(p, times) && Bounded(p, times)
      {
        forall i, j | 0 <= i <= j < |times|
          ensures |Verdicts(None, p, times)| == |times|
          ensures Count(Verdicts(None, p, times)[i..j + 1]) as real <= p.capacity + Gain(p, times[j] - times[i])
        {
          WindowBound(p, times, i, j);
        }
        WholeWindow(p, times);
      }
    } else {
      StepBackIsUnbounded(times);
      if AllWindowsBounded(Tight(times), times) {
        WholeWindow(Tight(times), times);
      }
    }
  }

  lemma WholeWindow(p: Params, times: seq<int>)
    requires times != [] && AllWindowsBounded(p, times)
    ensures Bounded(p, times)
  {
    var verdicts := Verdicts(None, p, times);
    assert 0 <= 0 <= |times| - 1 < |times|;
    assert verdicts[0..|times| - 1 + 1] == verdicts;
  }

  // ---- the converse: who keeps the pace is never denied ----

  /** A call at least one token's time after the previous one is granted, whatever happened before. */
  lemma PacedCallIsGranted(b: Bucket, p: Params, now: int)
    requires Sound(p) && p.capacity >= 1.0 && 0.0 <= b.tokens && b.last <= now && Gain(p, now - b.last) >= 1.0
    ensures Call(Some(b), p, now).1
  {
  }

  predicate Paced(p: Params, times: seq<int>) {
    forall i :: 1 <= i < |times| ==> times[i - 1] <= times[i] && Gain(p, times[i] - times[i - 1]) >= 1.0
  }

  lemma PacedTail(p: Params, times: seq<int>)
    requires Paced(p, times) && |times| > 1
    ensures Paced(p, times[1..]) && times[0] <= times[1] && Gain(p, times[1] - times[0]) >= 1.0
  {
    hide Gain;
    forall i | 1 <= i < |times[1..]|
      ensures times[1..][i - 1] <= times[1..][i] && Gain(p, times[1..][i] - times[1..][i - 1]) >= 1.0
    {
      assert times[1..][i] == times[i + 1] && times[1..][i - 1] == times[(i + 1) - 1];
    }
    assert times[1 - 1] == times[0];
  }

  lemma {:induction false} PacedCallsAreGranted(b: Option<Bucket>, p: Params, times: seq<int>)
    requires Sound(p) && p.capacity >= 1.0 && Within(b, p) && Paced(p, times)
    requires times != [] && b.Some? ==> b.value.last <= times[0] && Gain(p, times[0] - b.value.last) >= 1.0
    ensures forall v :: v in Verdicts(b, p, times) ==> v
    decreases |times|
  {
    if times != [] {
      CallWithin(b, p, times[0]);
      if b.Some? {
        PacedCallIsGranted(b.value, p, times[0]);
      }
      if |times| > 1 {
        PacedTail(p, times);
      }
      hide Gain, Paced;
      PacedCallsAreGranted(Some(Call(b, p, times[0]).0), p, times[1..]);
    }
  }

  // ---- a denied call costs nothing ----

  function Least(a: real, b: real): real { if a < b then a else b }

  /** Nothing gets lost: under a steady clock what is left and what was granted together are at least what was there
      plus what flowed in, up to the capacity. */
  lemma {:induction false} NothingIsLost(b: Bucket, p: Params, times: seq<int>)
    requires Sound(p) && Within(Some(b), p) && Nondecreasing(times)
    requires times != [] && b.last <= times[0]
    ensures After(Some(b), p, times).Some?
    ensures After(Some(b), p, times).value.tokens + Count(Verdicts(Some(b), p, times)) as real
         >= Least(p.capacity, b.tokens + Gain(p, times[|times| - 1] - b.last))
    decreases |times|
  {
    var (next, granted) := Call(Some(b), p, times[0]);
    CallWithin(Some(b), p, times[0]);
    CountFirst(granted, Verdicts(Some(next), p, times[1..]));
    if |times| == 1 {
      assert times[1..] == [];
    } else {
      var last := times[|times| - 1];
      NothingIsLost(next, p, times[1..]);
      assert times[1..][|times| - 2] == last;
      GainAdds(p, times[0] - b.last, last - times[0]);
      GainAdds(p, 0, 0);
      GainGrows(p, 0, last - times[0]);
    }
  }

  /** However often a caller is denied in between: a call at least one token's time after the last granted one is
      granted. (b is the bucket as that one left it; the calls before the last are all denied.) */
  lemma ImpatienceIsNotPunished(b: Bucket, p: Params, times: seq<int>)
    requires Sound(p) && p.capacity >= 1.0 && Within(Some(b), p) && Nondecreasing(times)
    requires times != [] && b.last <= times[0] && Gain(p, times[|times| - 1] - b.last) >= 1.0
    requires Count(Verdicts(Some(b), p, times[..|times| - 1])) == 0
    ensures |Verdicts(Some(b), p, times)| == |times| && Verdicts(Some(b), p, times)[|times| - 1]
  {
    var n, verdicts := |times| - 1, Verdicts(Some(b), p, times);
    EarlierVerdicts(Some(b), p, times, n);
    NothingIsLost(b, p, times);
    if !verdicts[n] {
      LastDenied(b, p, times);
      hide Verdicts, After, Gain;
      assert verdicts == verdicts[..n] + [verdicts[n]];
      CountConcat(verdicts[..n], [verdicts[n]]);
    }
  }

  /** A call that is denied leaves less than one token. */
  lemma {:induction false} LastDenied(b: Bucket, p: Params, times: seq<int>)
    requires times != [] && |Verdicts(Some(b), p, times)| == |times| && !Verdicts(Some(b), p, times)[|times| - 1]
    ensures After(Some(b), p, times).Some? && After(Some(b), p, times).value.tokens < 1.0
    decreases |times|
  {
    var next := Call(Some(b), p, times[0]).0;
    if |times| > 1 {
      var rest := times[1..];
      assert Verdicts(Some(b), p, times) == [Call(Some(b), p, times[0]).1] + Verdicts(Some(next), p, rest);
      LastDenied(next, p, rest);
    } else {
      assert times[1..] == [];
    }
  }

  // ---- key expiry ----

  /** The bucket a call finds when idle keys are deleted after ttl seconds. */
  function Live(b: Option<Bucket>, ttl: nat, now: int): Option<Bucket> {
    if b.Some? && now - b.value.last >= ttl * 1_000_000 then None else b
  }

  function ExpiringVerdicts(b: Option<Bucket>, p: Params, ttl: nat, times: seq<int>): seq<bool>
    decreases |times|
  {
    if times == [] then []
    else
      var (next, granted) := Call(Live(b, ttl, times[0]), p, times[0]);
      [granted] + ExpiringVerdicts(Some(next), p, ttl, times[1..])
  }

  /** An expired bucket would have been full again. */
  lemma ExpiredBucketWasFull(b: Bucket, p: Params, ttl: nat, now: int)
    requires Sound(p) && Within(Some(b), p) && p.capacity <= Gain(p, ttl * 1_000_000) && now - b.last >= ttl * 1_000_000
    ensures Call(Some(b), p, now) == Call(None, p, now)
  {
    GainGrows(p, ttl * 1_000_000, now - b.last);
  }

  lemma {:induction false} ExpiryInvisible(b: Option<Bucket>, p: Params, ttl: nat, times: seq<int>)
    requires Sound(p) && Within(b, p) && p.capacity <= Gain(p, ttl * 1_000_000)
    ensures ExpiringVerdicts(b, p, ttl, times) == Verdicts(b, p, times)
    decreases |times|
  {
    if times != [] {
      CallWithin(b, p, times[0]);
      if Live(b, ttl, times[0]) != b {
        ExpiredBucketWasFull(b.value, p, ttl, times[0]);
      }
      ExpiryInvisible(Some(Call(b, p, times[0]).0), p, ttl, times[1..]);
    }
  }

  function Repeat(now: int, n: nat): seq<int> {
    seq(n, _ => now)
  }

  /** A burst at one instant takes one token a call while there are any. */
  lemma {:induction false} Burst(b: Bucket, p: Params, n: nat)
    requires Sound(p) && n as real <= b.tokens <= p.capacity
    ensures After(Some(b), p, Repeat(b.last, n)) == Some(Bucket(b.tokens - n as real, b.last))
    decreases n
  {
    GainAdds(p, 0, 0);
    if n > 0 {
      assert Repeat(b.last, n)[1..] == Repeat(b.last, n - 1);
      Burst(Bucket(b.tokens - 1.0, b.last), p, n - 1);
    }
  }

  /** Keys do not expire within a burst, so the calls after it find what it left. */
  lemma {:induction false} ExpiringBurst(b: Bucket, p: Params, ttl: nat, n: nat, rest: seq<int>)
    requires Sound(p) && n as real <= b.tokens <= p.capacity && ttl > 0
    ensures Count(ExpiringVerdicts(Some(b), p, ttl, Repeat(b.last, n) + rest))
         == n + Count(ExpiringVerdicts(Some(Bucket(b.tokens - n as real, b.last)), p, ttl, rest))
    decreases n
  {
    GainAdds(p, 0, 0);
    if n == 0 {
      assert Repeat(b.last, 0) + rest == rest;
    } else {
      var next := Bucket(b.tokens - 1.0, b.last);
      var times := Repeat(b.last, n) + rest;
      assert times[1..] == Repeat(b.last, n - 1) + rest;
      assert Call(Live(Some(b), ttl, b.last), p, b.last) == (next, true);
      ExpiringBurst(next, p, ttl, n - 1, rest);
      CountFirst(true, ExpiringVerdicts(Some(next), p, ttl, times[1..]));
    }
  }

  /** Two bursts of the full capacity, one time to live apart. */
  function TwoBursts(n: nat, ttl: nat): seq<int> {
    Repeat(0, n) + Repeat(ttl * 1_000_000, n)
  }

  /** A full bucket that a first call has found is a bucket with one token less. */
  lemma FullBucket(p: Params, now: int, rest: seq<int>)
    requires Sound(p)
    ensures Call(None, p, now) == Call(Some(Bucket(p.capacity, now)), p, now)
  {
    GainAdds(p, 0, 0);
  }

  lemma ExpiringGrantsBoth(p: Params, n: nat, ttl: nat)
    requires Sound(p) && p.capacity == n as real && n > 0 && ttl > 0
    ensures Count(ExpiringVerdicts(None, p, ttl, TwoBursts(n, ttl))) == 2 * n
  {
    var times, later := TwoBursts(n, ttl), ttl * 1_000_000;
    var full, lateFull := Bucket(p.capacity, 0), Bucket(p.capacity, later);
    FullBucket(p, 0, times);
    assert ExpiringVerdicts(None, p, ttl, times) == ExpiringVerdicts(Some(full), p, ttl, times);
    ExpiringBurst(full, p, ttl, n, Repeat(later, n));
    FullBucket(p, later, times);
    assert ExpiringVerdicts(Some(Bucket(0.0, 0)), p, ttl, Repeat(later, n))
        == ExpiringVerdicts(Some(lateFull), p, ttl, Repeat(later, n));
    ExpiringBurst(lateFull, p, ttl, n, []);
    assert Repeat(later, n) + [] == Repeat(later, n);
  }

  lemma {:induction false} CountConcat(a: seq<bool>, b: seq<bool>)
    ensures Count(a + b) == Count(a) + Count(b)
    ensures Count(a) <= |a|
    decreases |a|
  {
    if a == [] {
      assert a + b == b;
    } else {
      assert (a + b)[1..] == a[1..] + b;
      CountConcat(a[1..], b);
    }
  }

  lemma KeptGrantsFewer(p: Params, n: nat, ttl: nat)
    requires Sound(p) && p.capacity == n as real && n > 0 && Gain(p, ttl * 1_000_000) < p.capacity
    ensures Count(Verdicts(None, p, TwoBursts(n, ttl))) < 2 * n
  {
    var times, later, full := TwoBursts(n, ttl), ttl * 1_000_000, Bucket(p.capacity, 0);
    FullBucket(p, 0, times);
    assert Verdicts(None, p, times) == Verdicts(Some(full), p, times);
    VerdictsSplit(Some(full), p, Repeat(0, n), Repeat(later, n));
    Burst(full, p, n);
    var drained := Some(Bucket(0.0, 0));
    CountConcat(Verdicts(Some(full), p, Repeat(0, n)), Verdicts(drained, p, Repeat(later, n)));
    GrantedAtMostClimb(drained, p, Repeat(later, n));
    ClimbIsElapsed(Repeat(later, n));
    GainAdds(p, 0, 0);
  }

  /** Deleting idle keys changes no verdict, for any steady sequence of calls, exactly when an empty bucket
      fills up within the time to live. (Capacities are whole numbers.) */
  lemma ExpiryInvisibleIffRefilled(p: Params, n: nat, ttl: nat)
    requires Sound(p) && p.capacity == n as real && ttl > 0
    ensures (forall times :: Nondecreasing(times) ==> ExpiringVerdicts(None, p, ttl, times) == Verdicts(None, p, times))
       <==> p.capacity <= Gain(p, ttl * 1_000_000)
  {
    if p.capacity <= Gain(p, ttl * 1_000_000) {
      forall times | Nondecreasing(times)
        ensures ExpiringVerdicts(None, p, ttl, times) == Verdicts(None, p, times)
      {
        ExpiryInvisible(None, p, ttl, times);
      }
    } else {
      GainAdds(p, 0, 0);
      GainGrows(p, 0, ttl * 1_000_000);
      ExpiringGrantsBoth(p, n, ttl);
      KeptGrantsFewer(p, n, ttl);
      assert Nondecreasing(TwoBursts(n, ttl));
    }
  }

  // ---- bucketParams and the limiter's three uses ----

  const NANOS := 1_000_000_000
  const MIN_TTL := 60
  const MAX_TTL := 604_800   // seven days

  /** The bucket of `limit` calls per window, with room for `burst`: rate, capacity, time to live in seconds. */
  function BucketParams(limit: int, burst: int, window: int): (r: (Params, nat))
    ensures Sound(r.0) && MIN_TTL <= r.1 <= MAX_TTL
  {
    var calls := if limit <= 0 then 0 else limit;
    var room := if burst <= 0 then calls else burst;
    var seconds := if window <= 0 then 1.0 else window as real / NANOS as real;
    var threefold := -(-(seconds * 3.0)).Floor;
    Quotient(calls as real, seconds);
    (Params(calls as real / seconds, room as real),
     if threefold < MIN_TTL then MIN_TTL else if threefold > MAX_TTL then MAX_TTL else threefold)
  }

  lemma Quotient(x: real, y: real)
    requires x >= 0.0 && y > 0.0
    ensures x / y >= 0.0
  {
  }

  /** The parameters: `limit` calls flow in per window (a window of no length counts as a second), the room is the
      burst or else the limit, and the key lives for three windows, rounded up, but a minute at least and seven days
      at most. */
  lemma BucketParamsAre(limit: int, burst: int, window: int)
    ensures var (p, ttl) := BucketParams(limit, burst, window);
            var calls := if limit > 0 then limit else 0;
            && p.rate * (if window > 0 then window as real / 1_000_000_000.0 else 1.0) == calls as real
            && p.capacity == (if burst > 0 then burst else calls) as real
            && 60 <= ttl <= 604_800
            && (60 < ttl < 604_800
                ==> window > 0 && (ttl - 1) as real < 3.0 * (window as real / 1_000_000_000.0) <= ttl as real)
            && (ttl == 604_800 ==> 3.0 * (window as real / 1_000_000_000.0) > 604_799.0)
            && (ttl == 60 && window > 0 ==> 3.0 * (window as real / 1_000_000_000.0) <= 60.0)
  {
    var calls := if limit > 0 then limit else 0;
    var seconds := if window <= 0 then 1.0 else window as real / NANOS as real;
    Divides(calls as real, seconds);
  }

  lemma Divides(x: real, y: real)
    requires y > 0.0
    ensures x / y * y == x
  {
  }

  /** bucketParams makes expiry invisible for every positive limit with a burst of at most three times the limit, as
      long as three windows fit in the seven-day cap. */
  lemma ParamsHideExpiry(limit: int, burst: int, window: int)
    requires limit > 0 && burst <= 3 * limit && window <= MAX_TTL / 3 * NANOS
    ensures var (p, ttl) := BucketParams(limit, burst, window);
            p.capacity <= Gain(p, ttl * 1_000_000)
  {
    var (p, ttl) := BucketParams(limit, burst, window);
    var seconds := if window <= 0 then 1.0 else window as real / NANOS as real;
    assert ttl as real >= seconds * 3.0;
    Refill(limit as real, seconds, ttl as real);
    assert (ttl * 1_000_000) as real / MICROS == ttl as real;
  }

  lemma Refill(calls: real, seconds: real, ttl: real)
    requires calls > 0.0 && seconds > 0.0 && ttl >= seconds * 3.0
    ensures ttl * (calls / seconds) >= 3.0 * calls
  {
    Quotient(calls, seconds);
    Product(ttl - seconds * 3.0, calls / seconds);
    assert seconds * (calls / seconds) == calls;
    assert seconds * 3.0 * (calls / seconds) == 3.0 * calls;
  }

  /** With whole windows of twenty seconds up to the cap, the burst condition is also necessary. */
  lemma LongWindowsNeedTheBurstBound(limit: int, burst: int, seconds: int)
    requires limit > 0 && burst > 0 && 20 <= seconds <= MAX_TTL / 3
    ensures var (p, ttl) := BucketParams(limit, burst, seconds * NANOS);
            p.capacity <= Gain(p, ttl * 1_000_000) <==> burst <= 3 * limit
  {
    var (p, ttl) := BucketParams(limit, burst, seconds * NANOS);
    assert (seconds * NANOS) as real / NANOS as real == seconds as real;
    assert ttl == 3 * seconds;
    var rate := limit as real / seconds as real;
    assert p.rate == rate;
    assert seconds as real * rate == limit as real;
    assert (ttl * 1_000_000) as real / MICROS == ttl as real;
    assert ttl as real * rate == 3.0 * (seconds as real * rate);
  }

  /** The three limits of CreateSeckillOrder, a second each: expiry is invisible for all of them, and no user gets
      more than six requests through in any stretch of a second, deletions of idle keys included. */
  lemma TheThreeLimits(times: seq<int>, i: nat, j: nat)
    requires Nondecreasing(times) && i <= j < |times| && times[j] - times[i] <= 1_000_000
    ensures BucketParams(10000, 20000, NANOS) == (Params(10000.0, 20000.0), 60)
    ensures BucketParams(3, 3, NANOS) == (Params(3.0, 3.0), 60)
    ensures BucketParams(8000, 0, NANOS) == (Params(8000.0, 8000.0), 60)
    ensures forall limit, burst | (limit, burst) in {(10000, 20000), (3, 3), (8000, 0)} ::
              var (p, ttl) := BucketParams(limit, burst, NANOS);
              ExpiringVerdicts(None, p, ttl, times) == Verdicts(None, p, times)
    ensures |Verdicts(None, Params(3.0, 3.0), times)| == |times|
    ensures Count(Verdicts(None, Params(3.0, 3.0), times)[i..j + 1]) <= 6
  {
    forall limit, burst | (limit, burst) in {(10000, 20000), (3, 3), (8000, 0)}
      ensures var (p, ttl) := BucketParams(limit, burst, NANOS);
              ExpiringVerdicts(None, p, ttl, times) == Verdicts(None, p, times)
    {
      ParamsHideExpiry(limit, burst, NANOS);
      var (p, ttl) := BucketParams(limit, burst, NANOS);
      ExpiryInvisible(None, p, ttl, times);
    }
    var user := Params(3.0, 3.0);
    WindowBound(user, times, i, j);
    GainGrows(user, times[j] - times[i], 1_000_000);
  }

  datatype Key = ByUser(id: nat) | Global | ByActivity(id: nat)

  class RateLimiter {
    var buckets: map<Key, Bucket>
    var ttls: map<Key, nat>

    constructor ()
      ensures buckets == map[] && ttls == map[]
    {
      buckets, ttls := map[], map[];
    }

    predicate Valid()
      reads this
    {
      buckets.Keys == ttls.Keys
    }

    function Stored(key: Key, now: int): Option<Bucket>
      requires Valid()
      reads this
    {
      if key in buckets then Live(Some(buckets[key]), ttls[key], now) else None
    }

    /** The script, on the key's bucket if it has not expired. */
    method RunBucket(key: Key, p: Params, ttl: nat, now: int) returns (allowed: bool)
      requires Valid() && Sound(p)
      modifies this
      ensures Valid()
      ensures var (next, granted) := Call(old(Stored(key, now)), p, now);
              allowed == granted && buckets == old(buckets)[key := next] && ttls == old(ttls)[key := ttl]
    {
      var tokens := p.capacity;
      if key in buckets && now - buckets[key].last < ttls[key] * 1_000_000 {
        var elapsed := now - buckets[key].last;
        if elapsed < 0 {
          elapsed := 0;
        }
        tokens := buckets[key].tokens + Gain(p, elapsed);
        if tokens > p.capacity {
          tokens := p.capacity;
        }
      }
      allowed := false;
      if tokens >= 1.0 {
        tokens := tokens - 1.0;
        allowed := true;
      }
      buckets, ttls := buckets[key := Bucket(tokens, now)], ttls[key := ttl];
    }

    /** UserRateLimit, GlobalRateLimit and ActivityRateLimit differ in the key only. */
    method RateLimit(key: Key, limit: int, burst: int, window: int, now: int) returns (allowed: bool)
      requires Valid()
      modifies this
      ensures Valid()
      ensures var (p, ttl) := BucketParams(limit, burst, window);
              var (next, granted) := Call(old(Stored(key, now)), p, now);
              allowed == granted && buckets == old(buckets)[key := next] && ttls == old(ttls)[key := ttl]
    {
      var (p, ttl) := BucketParams(limit, burst, window);
      allowed := RunBucket(key, p, ttl, now);
    }
  }
}
