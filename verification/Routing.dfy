/** Where a consumed order message goes when its processing fails
    (internal/kafka/consumer.go, internal/kafka/error_classify.go). */
module Routing {
  import opened Entities

  const MAX_RETRY_COUNT := 3

  // Durations in nanoseconds, as Go's time.Duration.
  const SECOND := 1_000_000_000
  const RETRY_BASE_DELAY := 10 * SECOND
  const MAX_RETRY_DELAY := 600 * SECOND
  const COMPENSATE_GRACE := 120 * SECOND
  const MAX_INT64 := 0x7fff_ffff_ffff_ffff

  datatype FailureType = FailureRetry | FailureDLQ | FailureDrop

  /** Only an infrastructure error carries English text. */
  predicate Mentions(e: GoError, word: string) {
    e.Infra? && Contains(e.text, word)
  }

  predicate IsTemporaryNetError(e: GoError) {
    e.Infra? && e.netTemporary
  }

  function ClassifyOrderError(e: GoError): FailureType {
    if e == Biz(OrderExists) then FailureDrop
    else if e == Biz(SystemBusy) || Mentions(e, "timeout") || Mentions(e, "deadlock")
            || Mentions(e, "connection refused") then
      FailureRetry
    else if e.Biz? && e.sentinel in {
                                      InsufficientStock, AddressNotFound, CouponInvalid, AlreadyBought, ExceedLimit,
                                      OrderStatusIncorrect, OrderTimeout, PaymentExists, UserNotMatch
                                    } then
      FailureDLQ
    else if IsTemporaryNetError(e) then FailureRetry
    else FailureDLQ
  }

  datatype Outcome = Acked | Retried(count: nat) | DeadLettered

  /** routeFailure when sends succeed; the order-exists error has already been turned into success. */
  function Route(e: GoError, retryCount: nat): Outcome {
    match ClassifyOrderError(e)
    case FailureDrop => Acked
    case FailureDLQ => DeadLettered
    case FailureRetry => if retryCount >= MAX_RETRY_COUNT then DeadLettered else Retried(retryCount + 1)
  }

  // ---- what that means error by error ----

  predicate StandsAt(word: string, text: string, i: int) {
    0 <= i <= |text| - |word| && text[i..i + |word|] == word
  }

  /** The word stands somewhere in the text. */
  predicate Occurs(word: string, text: string) {
    exists i | 0 <= i <= |text| :: StandsAt(word, text, i)
  }

  /** Errors that may pass: the busy signal, a text that tells of a timeout, a deadlock or a refused connection, and a
      network error that calls itself temporary. */
  predicate Transient(e: GoError) {
    match e
    case Biz(sentinel) => sentinel == SystemBusy
    case Infra(text, netTemporary) =>
      netTemporary || Occurs("timeout", text) || Occurs("deadlock", text) || Occurs("connection refused", text)
  }

  lemma OccursIsContains(word: string, text: string)
    ensures Occurs(word, text) <==> Contains(text, word)
  {
    if Occurs(word, text) {
      var i :| 0 <= i <= |text| && StandsAt(word, text, i);
      assert text[i..][..|word|] == text[i..i + |word|];
      assert word <= text[i..];
    }
    if Contains(text, word) {
      var i :| 0 <= i <= |text| && word <= text[i..];
      assert text[i..][..|word|] == word;
      assert StandsAt(word, text, i);
    }
  }

  /** A transient error is retried until the message has been consumed four times; an order that exists is as good as
      confirmed; whatever else goes wrong, sentinels and unknown errors alike, is final at once. */
  lemma ErrorsDecide(e: GoError, retryCount: nat)
    ensures Route(e, retryCount) ==
            if e == Biz(OrderExists) then Acked
            else if Transient(e) && retryCount < 3 then Retried(retryCount + 1)
            else DeadLettered
    ensures e.Biz? && e.sentinel in {InsufficientStock, AddressNotFound, CouponInvalid, AlreadyBought, ExceedLimit,
                                     OrderStatusIncorrect, OrderTimeout, PaymentExists, UserNotMatch} ==>
              Route(e, retryCount) == DeadLettered
  {
    if e.Infra? {
      hide Occurs, Contains;
      OccursIsContains("timeout", e.text);
      OccursIsContains("deadlock", e.text);
      OccursIsContains("connection refused", e.text);
    }
  }

  // ---- whole lives of a message ----

  /** The outcomes of the successive consumptions of one message: errors[i] is what the i-th attempt
      hit. The life ends at the first outcome that is not a retry; with errors used up the last attempt succeeds. */
  function Life(errors: seq<GoError>, retryCount: nat): seq<Outcome>
    decreases |errors|
  {
    if errors == [] then [Acked]
    else
      var outcome := Route(errors[0], retryCount);
      if outcome.Retried? then [outcome] + Life(errors[1..], outcome.count)
      else [outcome]
  }

  /** However the attempts fail, a message is consumed at most four times, every
      attempt but the last is a retry with the count one higher, and the last one is final. */
  lemma {:induction false} LifeIsShortAndEndsOnce(errors: seq<GoError>, retryCount: nat)
    requires retryCount <= 3
    ensures var life := Life(errors, retryCount);
            && 1 <= |life| <= 4 - retryCount
            && !life[|life| - 1].Retried?
            && forall i :: 0 <= i < |life| - 1 ==> life[i] == Retried(retryCount + i + 1)
    decreases |errors|
  {
    if errors != [] {
      var outcome := Route(errors[0], retryCount);
      if outcome.Retried? {
        LifeIsShortAndEndsOnce(errors[1..], outcome.count);
      }
    }
  }

  /** A message that only ever meets transient errors uses every attempt and is then dead-lettered. */
  lemma {:induction false} PersistentFaultIsDeadLettered(errors: seq<GoError>, retryCount: nat)
    requires retryCount <= 3 && |errors| >= 4 - retryCount
    requires forall i :: 0 <= i < |errors| ==> Transient(errors[i])
    ensures var life := Life(errors, retryCount);
            |life| == 4 - retryCount && life[|life| - 1] == DeadLettered
    decreases |errors|
  {
    hide Transient, Route;
    ErrorsDecide(errors[0], retryCount);
    assert Transient(errors[0]) && errors[0] != Biz(OrderExists) by {
      TransientIsNoSuccess(errors[0]);
    }
    if retryCount < 3 {
      PersistentFaultIsDeadLettered(errors[1..], retryCount + 1);
    }
  }

  lemma TransientIsNoSuccess(e: GoError)
    requires Transient(e)
    ensures e != Biz(OrderExists)
  {
  }

  // ---- backoff ----

  function Pow2(n: nat): nat {
    if n == 0 then 1 else 2 * Pow2(n - 1)
  }

  lemma {:induction false} Pow2Monotone(i: nat, j: nat)
    requires i <= j
    ensures 1 <= Pow2(i) <= Pow2(j)
    decreases j
  {
    if i < j {
      Pow2Monotone(i, j - 1);
    } else if j > 0 {
      Pow2Monotone(j - 1, j - 1);
    }
  }

  function Min(a: int, b: int): int { if a < b then a else b }

  function Backoff(retryCount: int): int {
    if retryCount <= 0 then RETRY_BASE_DELAY
    else Min(RETRY_BASE_DELAY * Pow2(retryCount - 1), MAX_RETRY_DELAY)
  }

  /** The doubling loop computes the capped exponential, and no intermediate value leaves int64. */
  method CalculateBackoff(retryCount: int) returns (delay: int)
    ensures delay == Backoff(retryCount)
  {
    if retryCount <= 0 {
      return RETRY_BASE_DELAY;
    }
    delay := RETRY_BASE_DELAY;
    for i := 1 to retryCount
      invariant delay == RETRY_BASE_DELAY * Pow2(i - 1) <= MAX_RETRY_DELAY
    {
      assert delay * 2 <= MAX_INT64;
      delay := delay * 2;
      if delay > MAX_RETRY_DELAY {
        Pow2Monotone(i, retryCount - 1);
        return MAX_RETRY_DELAY;
      }
    }
  }

  lemma BackoffNondecreasing(m: int, n: int)
    requires m <= n
    ensures RETRY_BASE_DELAY <= Backoff(m) <= Backoff(n) <= MAX_RETRY_DELAY
  {
    if 1 <= m {
      Pow2Monotone(m - 1, n - 1);
    }
    if 1 <= n {
      Pow2Monotone(0, n - 1);
    }
  }

  /** The first wait is ten seconds, and each further one twice as long until they reach ten minutes. */
  lemma BackoffDoubles(n: int)
    requires n >= 1
    ensures Backoff(1) == 10_000_000_000 == Backoff(0)
    ensures Backoff(n + 1) == if 2 * Backoff(n) > 600_000_000_000 then 600_000_000_000 else 2 * Backoff(n)
  {
    assert Pow2(n) == 2 * Pow2(n - 1);
  }

  function TotalBackoff(retries: nat): int {
    if retries == 0 then 0 else TotalBackoff(retries - 1) + Backoff(retries)
  }

  /** The waits before a message's three retries are together seventy seconds, less than the two minutes the compensator
      leaves it; the time a message spends on the topics and in the consumer comes on top. */
  lemma RetriesFitInGrace()
    ensures TotalBackoff(3) == 70_000_000_000 < 120_000_000_000 == COMPENSATE_GRACE
  {
    assert Pow2(2) == 4;
    assert TotalBackoff(3) == Backoff(1) + Backoff(2) + Backoff(3);
  }
}
