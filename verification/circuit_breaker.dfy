/** The circuit breaker: a three-state machine (CLOSED, OPEN, HALF_OPEN) with a
    failure counter and a timed reset. The wall clock is passed in as `now`;
    the model reads it in whole seconds, where the breaker compares
    fractional seconds. */
module CircuitBreakers {
  import opened Wrappers

  const DefaultThreshold: int := 3
  const DefaultResetTimeout: int := 60

  datatype BreakerState = Closed | Open | HalfOpen

  /** The breaker value doubles as its `get_state` snapshot. The threshold is
      never validated, so any integer is allowed. */
  datatype CircuitBreaker = CircuitBreaker(
    threshold: int,
    resetTimeout: int,
    failureCount: nat,
    lastFailureTime: Option<int>,
    state: BreakerState)

  /** What every reachable breaker satisfies: it only leaves CLOSED after the
      counter reached the threshold, and only after a failure was stamped. */
  predicate Inv(b: CircuitBreaker) {
    b.state != Closed ==> b.failureCount >= b.threshold && b.lastFailureTime.Some?
  }

  function NewBreaker(threshold: int, resetTimeout: int): (b: CircuitBreaker)
    ensures b.state == Closed && b.failureCount == 0 && b.lastFailureTime == None
    ensures b.threshold == threshold && b.resetTimeout == resetTimeout
    ensures Inv(b)
  {
    CircuitBreaker(threshold, resetTimeout, 0, None, Closed)
  }

  /** Whether an OPEN breaker has waited long enough to probe again. */
  predicate ResetElapsed(b: CircuitBreaker, now: int) {
    b.lastFailureTime.Some? && now - b.lastFailureTime.value > b.resetTimeout
  }

  datatype Gate = Gate(allowed: bool, breaker: CircuitBreaker)

  /** `can_execute`: the answer, and the breaker after the call (an OPEN
      breaker whose reset timeout has elapsed moves to HALF_OPEN). */
  function CanExecute(b: CircuitBreaker, now: int): (g: Gate)
    ensures !g.allowed <==> b.state == Open && !ResetElapsed(b, now)
    ensures !g.allowed ==> g.breaker == b
    ensures b.state == Open && g.allowed ==> g.breaker == b.(state := HalfOpen)
    ensures b.state != Open ==> g.breaker == b
    ensures g.breaker.failureCount == b.failureCount && g.breaker.lastFailureTime == b.lastFailureTime
    ensures Inv(b) ==> Inv(g.breaker)
  {
    match b.state
    case Closed => Gate(true, b)
    case Open =>
      if ResetElapsed(b, now) then Gate(true, b.(state := HalfOpen)) else Gate(false, b)
    case HalfOpen => Gate(true, b)
  }

  /** `record_success`: back to CLOSED with a zero count; the last failure
      time is kept. */
  function RecordSuccess(b: CircuitBreaker): (b': CircuitBreaker)
    ensures b'.state == Closed && b'.failureCount == 0
    ensures b'.threshold == b.threshold && b'.resetTimeout == b.resetTimeout
    ensures b'.lastFailureTime == b.lastFailureTime
    ensures Inv(b')
  {
    b.(failureCount := 0, state := Closed)
  }

  /** `record_failure`: one more failure stamped at `now`; OPEN once the count
      reaches the threshold, otherwise the state is kept. */
  function RecordFailure(b: CircuitBreaker, now: int): (b': CircuitBreaker)
    ensures b'.failureCount == b.failureCount + 1
    ensures b'.lastFailureTime == Some(now)
    ensures b'.failureCount >= b.threshold ==> b'.state == Open
    ensures b'.failureCount < b.threshold ==> b'.state == b.state
    ensures b'.threshold == b.threshold && b'.resetTimeout == b.resetTimeout
    ensures Inv(b) ==> Inv(b')
  {
    var count := b.failureCount + 1;
    b.(failureCount := count, lastFailureTime := Some(now),
       state := if count >= b.threshold then Open else b.state)
  }

  /** A failed probe re-opens a HALF_OPEN breaker. */
  lemma HalfOpenFailureReopens(b: CircuitBreaker, now: int)
    requires Inv(b) && b.state == HalfOpen
    ensures RecordFailure(b, now).state == Open
  {
  }

  /** The breaker after one failure at each of `times`, in order. */
  function FailAll(b: CircuitBreaker, times: seq<int>): CircuitBreaker
    decreases |times|
  {
    if times == [] then b else FailAll(RecordFailure(b, times[0]), times[1..])
  }

  /** Consecutive failures add up, the last one is the stamp, and enough of
      them leave the breaker OPEN. */
  lemma {:induction false} FailuresAccumulate(b: CircuitBreaker, times: seq<int>)
    ensures FailAll(b, times).failureCount == b.failureCount + |times|
    ensures FailAll(b, times).threshold == b.threshold
    ensures FailAll(b, times).resetTimeout == b.resetTimeout
    ensures times != [] ==> FailAll(b, times).lastFailureTime == Some(times[|times| - 1])
    ensures times != [] && b.failureCount + |times| >= b.threshold ==> FailAll(b, times).state == Open
    decreases |times|
  {
    if times != [] {
      var b1 := RecordFailure(b, times[0]);
      FailuresAccumulate(b1, times[1..]);
      if |times| > 1 {
        assert times[1..][|times[1..]| - 1] == times[|times| - 1];
      }
    }
  }

  /** After `threshold` failures in a row the breaker refuses every call until
      strictly more than `resetTimeout` seconds have passed since the last one,
      and then lets the next call through in HALF_OPEN. */
  lemma TrippedBreakerWaitsForTimeout(b: CircuitBreaker, times: seq<int>, now: int)
    requires times != [] && |times| >= b.threshold
    ensures var t := FailAll(b, times);
      && t.state == Open
      && (CanExecute(t, now).allowed <==> now - times[|times| - 1] > b.resetTimeout)
      && (CanExecute(t, now).allowed ==> CanExecute(t, now).breaker.state == HalfOpen)
  {
    FailuresAccumulate(b, times);
  }

  /** Only an OPEN breaker ever refuses a call. */
  lemma OnlyOpenRefuses(b: CircuitBreaker, now: int)
    requires !CanExecute(b, now).allowed
    ensures b.state == Open
  {
  }
}
