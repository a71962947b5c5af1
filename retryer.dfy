/** The retry policy of the customer service's Account client
    (customer-mongo CustomerFeignClientRetryer): a counter of attempts, a fixed
    wait between attempts and a maximum after which the failure is rethrown. */
module Retryer {
  import ErrorDecoder

  const INT_MIN := -0x8000_0000
  const INT_MAX := 0x7fff_ffff
  /** Java `int`. */
  type Int32 = x: int | INT_MIN <= x <= INT_MAX
  /** Java `long`. */
  type Int64 = x: int | -0x8000_0000_0000_0000 <= x < 0x8000_0000_0000_0000

  const DEFAULT_INTERVAL: Int64 := 10000
  const DEFAULT_MAX_ATTEMPT: Int32 := 6

  /** `attempt++` on a Java int: wraps from INT_MAX to INT_MIN. */
  function Incremented(attempt: Int32): (r: Int32)
    ensures attempt < INT_MAX ==> r == attempt + 1
    ensures attempt == INT_MAX ==> r == INT_MIN
  {
    if attempt == INT_MAX then INT_MIN else attempt + 1
  }

  /** The counter after `n` calls, starting from `attempt`. */
  function AttemptAfter(attempt: Int32, n: nat): Int32
    decreases n
  {
    if n == 0 then attempt else Incremented(AttemptAfter(attempt, n - 1))
  }

  /** Whether each of `n` consecutive calls, starting with the counter at
      `attempt`, rethrows (true) or lets the caller retry (false). */
  function Outcomes(attempt: Int32, max: Int32, n: nat): (r: seq<bool>)
    ensures |r| == n
    decreases n
  {
    if n == 0 then [] else [attempt >= max] + Outcomes(Incremented(attempt), max, n - 1)
  }

  /** What continueOrPropagate does with the retryable exception it is
      given (one the error decoder produced). */
  datatype Decision = Retry | Rethrow(e: ErrorDecoder.Retryable)

  class CustomerFeignClientRetryer {
    var retryInterval: Int64
    var retryMaxAttempt: Int32
    var attempt: Int32

    /** Decisions taken since construction, oldest first (true: rethrown). */
    ghost var history: seq<bool>
    /** Number of completed waits of retryInterval milliseconds. */
    ghost var waits: nat

    ghost predicate Valid()
      reads this
    {
      && attempt == AttemptAfter(1, |history|)
      && history == Outcomes(1, retryMaxAttempt, |history|)
    }

    /** The no-argument constructor: 10 seconds between attempts, 6 attempts. */
    constructor Default()
      ensures Valid() && history == [] && waits == 0
      ensures retryInterval == DEFAULT_INTERVAL && retryMaxAttempt == DEFAULT_MAX_ATTEMPT && attempt == 1
    {
      retryInterval := DEFAULT_INTERVAL;
      retryMaxAttempt := DEFAULT_MAX_ATTEMPT;
      attempt := 1;
      history := [];
      waits := 0;
    }

    constructor (retryInterval: Int64, retryMaxAttempt: Int32)
      ensures Valid() && history == [] && waits == 0
      ensures this.retryInterval == retryInterval && this.retryMaxAttempt == retryMaxAttempt && attempt == 1
    {
      this.retryInterval := retryInterval;
      this.retryMaxAttempt := retryMaxAttempt;
      attempt := 1;
      history := [];
      waits := 0;
    }

    /** Rethrows `e` once the counter has reached the maximum, otherwise waits
        one interval; the counter is post-incremented on every call. */
    method ContinueOrPropagate(e: ErrorDecoder.Retryable) returns (d: Decision)
      requires Valid()
      modifies this`attempt, this`history, this`waits
      ensures Valid()
      ensures attempt == Incremented(old(attempt))
      ensures d == Rethrow(e) <==> old(attempt) >= retryMaxAttempt
      ensures d == Retry <==> old(attempt) < retryMaxAttempt
      ensures history == old(history) + [d.Rethrow?]
      ensures waits == if d == Retry then old(waits) + 1 else old(waits)
    {
      var before := attempt;
      attempt := Incremented(attempt);
      history := history + [before >= retryMaxAttempt];
      OutcomesExtend(1, retryMaxAttempt, |old(history)|);
      if before >= retryMaxAttempt {
        return Rethrow(e);
      }
      waits := waits + 1;
      d := Retry;
    }

    /** A new retryer with the same interval and maximum and a fresh counter. */
    method Clone() returns (r: CustomerFeignClientRetryer)
      ensures fresh(r) && r.Valid() && r.history == [] && r.waits == 0
      ensures r.retryInterval == retryInterval && r.retryMaxAttempt == retryMaxAttempt && r.attempt == 1
    {
      r := new CustomerFeignClientRetryer(retryInterval, retryMaxAttempt);
    }
  }

  /** One more call appends the decision taken at the counter reached so far. */
  lemma {:induction false} OutcomesExtend(attempt: Int32, max: Int32, n: nat)
    ensures Outcomes(attempt, max, n + 1) == Outcomes(attempt, max, n) + [AttemptAfter(attempt, n) >= max]
    decreases n
  {
    if n > 0 {
      OutcomesExtend(Incremented(attempt), max, n - 1);
      AttemptAfterShift(attempt, n - 1);
    }
  }

  /** Counting n + 1 calls from `attempt` is counting n from the next value. */
  lemma {:induction false} AttemptAfterShift(attempt: Int32, n: nat)
    ensures AttemptAfter(attempt, n + 1) == AttemptAfter(Incremented(attempt), n)
    decreases n
  {
    if n > 0 {
      AttemptAfterShift(attempt, n - 1);
    }
  }

  /** Call i (counting from 0) sees the counter after i increments and
      rethrows exactly when that has reached the maximum. */
  lemma {:induction false} OutcomesAt(attempt: Int32, max: Int32, n: nat, i: nat)
    requires i < n
    ensures Outcomes(attempt, max, n)[i] == (AttemptAfter(attempt, i) >= max)
    decreases i
  {
    if i > 0 {
      OutcomesAt(Incremented(attempt), max, n - 1, i - 1);
      AttemptAfterShift(attempt, i - 1);
    }
  }

  /** Until INT_MAX is passed, n calls add exactly n to the counter. */
  lemma {:induction false} AttemptAfterWithoutWrap(attempt: Int32, n: nat)
    requires attempt + n <= INT_MAX
    ensures AttemptAfter(attempt, n) == attempt + n
    decreases n
  {
    if n > 0 {
      AttemptAfterWithoutWrap(attempt, n - 1);
    }
  }

  /** A fresh retryer with maximum m lets exactly max(m - 1, 0) calls retry
      and rethrows on the next one. */
  lemma FreshRetryerSchedule(max: Int32)
    ensures var retries := if max > 1 then max - 1 else 0;
      Outcomes(1, max, retries + 1) == seq(retries, _ => false) + [true]
  {
    var retries := if max > 1 then max - 1 else 0;
    var r := Outcomes(1, max, retries + 1);
    forall i | 0 <= i < retries + 1
      ensures r[i] == (seq(retries, _ => false) + [true])[i]
    {
      OutcomesAt(1, max, retries + 1, i);
      AttemptAfterWithoutWrap(1, i);
    }
  }

  /** With the defaults, calls 1 to 5 retry and the 6th rethrows. */
  lemma DefaultRetryerSchedule()
    ensures Outcomes(1, DEFAULT_MAX_ATTEMPT, 6) == [false, false, false, false, false, true]
  {
    FreshRetryerSchedule(DEFAULT_MAX_ATTEMPT);
  }

  /** The counter is a Java int: with maximum INT_MAX the call that rethrows
      leaves it at INT_MIN, so a further call on the same retryer would retry. */
  lemma CounterWrapsAfterRethrowAtIntMax()
    ensures Outcomes(1, INT_MAX, INT_MAX + 1)[INT_MAX - 1]
    ensures AttemptAfter(1, INT_MAX) == INT_MIN
    ensures !Outcomes(1, INT_MAX, INT_MAX + 1)[INT_MAX]
  {
    AttemptAfterWithoutWrap(1, INT_MAX - 1);
    OutcomesAt(1, INT_MAX, INT_MAX + 1, INT_MAX - 1);
    OutcomesAt(1, INT_MAX, INT_MAX + 1, INT_MAX);
  }
}
