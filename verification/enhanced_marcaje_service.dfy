/** The clock-in service with retries, a circuit breaker and metrics. One call
    processes one RUT: the breaker gate, then up to `retry_attempts + 1`
    attempts, each drawing a delay and punching, with a fixed back-off
    between attempts; the last failure is recorded once. */
module EnhancedMarcaje {
  import opened Wrappers
  import opened Delays
  import Metrics
  import opened CircuitBreakers
  import opened ExecutionConfigs
  import opened Actions

  datatype Service = Service(
    breaker: CircuitBreaker,
    delays: DelayManager,
    metrics: Metrics.Metrics,
    debug: bool,
    config: Option<ExecutionConfig>)

  /** The constructor: the breaker threshold comes from the execution
      configuration when there is one, and the service always starts its own
      metrics collector. */
  function NewService(delays: DelayManager, debug: bool, config: Option<ExecutionConfig>): (s: Service)
    ensures config.Some? ==> s.breaker == NewBreaker(config.value.circuitBreakerThreshold, DefaultResetTimeout)
    ensures config.None? ==> s.breaker == NewBreaker(DefaultThreshold, DefaultResetTimeout)
    ensures s.metrics == Metrics.Fresh && s.delays == delays
    ensures s.debug == debug && s.config == config
    ensures Inv(s.breaker)
  {
    var threshold := if config.Some? then config.value.circuitBreakerThreshold else DefaultThreshold;
    Service(NewBreaker(threshold, DefaultResetTimeout), delays, Metrics.Fresh, debug, config)
  }

  /** `max_attempts`: one more than the configured retries, or a single
      attempt without an execution configuration. Not range-checked here, so
      a negative retry count gives no attempt at all. */
  function MaxAttemptsOf(config: Option<ExecutionConfig>): (n: int)
    ensures config.None? ==> n == 1
    ensures config.Some? ==> n == config.value.retryAttempts + 1
  {
    if config.Some? then config.value.retryAttempts + 1 else 1
  }

  /** The punch kind and the browser outcome of attempt `i` (from 0). */
  function KindAt(env: RutEnv, i: nat): ActionType {
    ActionKindAt(env.hour(i))
  }

  function OutcomeAt(debug: bool, env: RutEnv, i: nat): Outcome {
    if debug then Done else env.act(i)
  }

  /** Some attempt from `k` up to the budget would punch successfully. */
  predicate SomeAttemptSucceeds(env: RutEnv, k: nat, budget: int) {
    exists i :: k <= i < budget && env.act(i).Done?
  }

  /** The retry loop from attempt `k` on, as far as its control flow goes:
      how many attempts run. It stops at the first success and at the end of
      the budget; debug mode always succeeds at once. */
  function AttemptCount(debug: bool, env: RutEnv, k: nat, budget: int): (n: nat)
    requires k < budget
    ensures 1 <= n <= budget - k
    ensures debug ==> n == 1
    ensures forall i :: k <= i < k + n - 1 ==> OutcomeAt(debug, env, i).Failed?
    ensures OutcomeAt(debug, env, k + n - 1).Failed? ==> k + n == budget
    ensures !debug ==> (OutcomeAt(debug, env, k + n - 1).Done? <==> SomeAttemptSucceeds(env, k, budget))
    decreases budget - k
  {
    if OutcomeAt(debug, env, k).Done? || k + 1 >= budget then
      assert !debug && env.act(k).Failed? ==> !SomeAttemptSucceeds(env, k, budget) by {
        if !debug && env.act(k).Failed? {
          assert k + 1 == budget;
        }
      }
      1
    else
      var n := 1 + AttemptCount(debug, env, k + 1, budget);
      assert SomeAttemptSucceeds(env, k, budget) ==> SomeAttemptSucceeds(env, k + 1, budget) by {
        if SomeAttemptSucceeds(env, k, budget) {
          var i :| k <= i < budget && env.act(i).Done?;
          assert i != k;
        }
      }
      n
  }

  /** The delays drawn by `n` successive attempts for the same RUT, the
      manager after them and the random-source cursor after them. */
  datatype Draws = Draws(delays: seq<int>, manager: DelayManager, next: nat)

  /** `get_random_delay(rut)` called once per attempt, `n` times in a row. */
  function DrawDelays(dm: DelayManager, rut: string, draw: RandomSource, pos: nat, n: nat): (r: Draws)
    ensures |r.delays| == n
    ensures n == 0 ==> r == Draws([], dm, pos)
    ensures n > 0 ==> r.manager.registry == dm.registry[rut := r.delays[n - 1]]
    ensures dm.coincidences <= r.manager.coincidences <= dm.coincidences + n
    ensures pos + n <= r.next
    decreases n
  {
    if n == 0 then Draws([], dm, pos)
    else
      var prev := DrawDelays(dm, rut, draw, pos, n - 1);
      var a := GetRandomDelay(prev.manager, rut, draw, prev.next);
      Draws(prev.delays + [a.delay], a.manager, a.next)
  }

  predicate AllInRange(ds: seq<int>) {
    forall i :: 0 <= i < |ds| ==> MinDelay <= ds[i] <= MaxDelay
  }

  lemma AppendInRange(ds: seq<int>, d: int)
    requires AllInRange(ds) && MinDelay <= d <= MaxDelay
    ensures AllInRange(ds + [d])
  {
    assert forall i :: 0 <= i < |ds| ==> (ds + [d])[i] == ds[i];
  }

  /** A delay requested at any later cursor of an in-range source is in range. */
  lemma LaterDelayInRange(dm: DelayManager, rut: string, draw: RandomSource, pos: nat, later: nat)
    requires DrawsInRange(draw, pos) && pos <= later
    ensures MinDelay <= GetRandomDelay(dm, rut, draw, later).delay <= MaxDelay
  {
    DrawsInRangeLater(draw, pos, later);
  }

  /** Every delay drawn from an in-range source is in range. */
  lemma {:induction false} DrawnDelaysInRange(dm: DelayManager, rut: string, draw: RandomSource, pos: nat, n: nat)
    requires DrawsInRange(draw, pos)
    ensures AllInRange(DrawDelays(dm, rut, draw, pos, n).delays)
    decreases n
  {
    if n > 0 {
      var prev := DrawDelays(dm, rut, draw, pos, n - 1);
      var ds := prev.delays;
      assert AllInRange(ds) by {
        DrawnDelaysInRange(dm, rut, draw, pos, n - 1);
      }
      var a := GetRandomDelay(prev.manager, rut, draw, prev.next);
      LaterDelayInRange(prev.manager, rut, draw, pos, prev.next);
      AppendInRange(ds, a.delay);
      assert DrawDelays(dm, rut, draw, pos, n).delays == prev.delays + [a.delay];
    }
  }

  /** The attempt records of a run of `n` attempts with the given delays
      (ignored in debug mode, where none is drawn). */
  function AttemptsOf(debug: bool, env: RutEnv, delays: seq<int>, n: nat): (r: seq<Attempt>)
    requires debug || |delays| >= n
    ensures |r| == n
    ensures forall i :: 0 <= i < n ==> r[i].action == KindAt(env, i) && r[i].outcome == OutcomeAt(debug, env, i)
    ensures forall i :: 0 <= i < n ==> r[i].delay == (if debug then None else Some(delays[i]))
  {
    seq(n, i requires 0 <= i < n && (debug || i < |delays|) =>
      Attempt(if debug then None else Some(delays[i]), KindAt(env, i), OutcomeAt(debug, env, i)))
  }

  /** What one `process_rut` call did: its return value, whether the breaker
      let it through, the attempts, the back-offs, the notices and the
      service and random-source cursor afterwards. */
  datatype RutResult = RutResult(
    ok: bool,
    admitted: bool,
    attempts: seq<Attempt>,
    backoffs: seq<int>,
    notices: seq<Notice>,
    service: Service,
    next: nat)

  /** `process_rut`. A refused RUT changes nothing and sends nothing; an
      admitted one makes at most the budgeted number of attempts and sends
      exactly one notice when it made any. */
  function ProcessRut(svc: Service, rut: string, env: RutEnv, draw: RandomSource, pos: nat): (r: RutResult)
    ensures !r.admitted <==> svc.breaker.state == Open && !ResetElapsed(svc.breaker, env.gateTime)
    ensures !r.admitted ==> r == RutResult(false, false, [], [], [], svc, pos)
    ensures r.ok ==> r.admitted && r.attempts != []
    ensures |r.attempts| <= if MaxAttemptsOf(svc.config) <= 0 then 0 else MaxAttemptsOf(svc.config)
    ensures |r.notices| == (if r.attempts == [] then 0 else 1)
    ensures r.service.debug == svc.debug && r.service.config == svc.config
  {
    var gate := CanExecute(svc.breaker, env.gateTime);
    var budget := MaxAttemptsOf(svc.config);
    if !gate.allowed then RutResult(false, false, [], [], [], svc, pos)
    else
      var s0 := svc.(breaker := gate.breaker, metrics := Metrics.RecordRutStart(svc.metrics));
      if budget <= 0 then RutResult(false, true, [], [], [], s0, pos)
      else
        var n := AttemptCount(svc.debug, env, 0, budget);
        var d := if svc.debug then Draws([], svc.delays, pos) else DrawDelays(svc.delays, rut, draw, pos, n);
        var attempts := AttemptsOf(svc.debug, env, d.delays, n);
        var backoffs := seq(n - 1, _ requires svc.config.Some? => svc.config.value.retryDelaySeconds);
        var applied := if svc.debug then 0 else n;
        var s1 := s0.(delays := d.manager,
                      metrics := s0.metrics.(delaysApplied := s0.metrics.delaysApplied + applied));
        var last := attempts[n - 1];
        if last.outcome.Done? then
          var s2 := s1.(breaker := RecordSuccess(s1.breaker),
                        metrics := Metrics.RecordSuccess(s1.metrics, env.elapsed));
          RutResult(true, true, attempts, backoffs, [SuccessNotice(rut, last.action)], s2, d.next)
        else
          var s2 := s1.(breaker := RecordFailure(s1.breaker, env.failTime),
                        metrics := Metrics.RecordError(s1.metrics));
          RutResult(false, true, attempts, backoffs, [ErrorNotice(rut, Marcaje)], s2, d.next)
  }

  /** The bookkeeping of an admitted RUT: it counts as started; a success
      closes the breaker and records its duration; only the final failure is
      recorded, on the breaker and the error counter, with one error notice
      labelled MARCAJE; no attempt at all (a negative retry count) records
      nothing more. */
  lemma AdmittedRutAccounting(svc: Service, rut: string, env: RutEnv, draw: RandomSource, pos: nat)
    ensures var r := ProcessRut(svc, rut, env, draw, pos);
      && (r.admitted ==> r.service.metrics.rutsProcessed == svc.metrics.rutsProcessed + 1)
      && (r.admitted && r.attempts == [] ==>
            !r.ok && r.notices == [] && r.next == pos
            && r.service.breaker == CanExecute(svc.breaker, env.gateTime).breaker
            && r.service.metrics == svc.metrics.(rutsProcessed := svc.metrics.rutsProcessed + 1))
      && (r.ok ==>
            && r.attempts[|r.attempts| - 1].outcome.Done?
            && r.notices == [SuccessNotice(rut, r.attempts[|r.attempts| - 1].action)]
            && r.service.breaker == RecordSuccess(CanExecute(svc.breaker, env.gateTime).breaker)
            && r.service.breaker.state == Closed && r.service.breaker.failureCount == 0
            && r.service.metrics.successes == svc.metrics.successes + 1
            && r.service.metrics.errors == svc.metrics.errors
            && r.service.metrics.totalDuration == svc.metrics.totalDuration + env.elapsed)
      && (r.admitted && !r.ok && r.attempts != [] ==>
            && r.attempts[|r.attempts| - 1].outcome.Failed?
            && r.notices == [ErrorNotice(rut, Marcaje)]
            && r.service.breaker == RecordFailure(CanExecute(svc.breaker, env.gateTime).breaker, env.failTime)
            && r.service.metrics.errors == svc.metrics.errors + 1
            && r.service.metrics.successes == svc.metrics.successes)
  {
  }

  /** The attempts follow the retry loop: attempt `i` punches the kind of the
      hour read before it, every attempt but the last failed, a failed last
      attempt used the whole budget, and an admitted RUT with a positive
      budget makes at least one attempt. */
  lemma AttemptsFollowRetryLoop(svc: Service, rut: string, env: RutEnv, draw: RandomSource, pos: nat)
    ensures var r := ProcessRut(svc, rut, env, draw, pos);
      && (forall i :: 0 <= i < |r.attempts| ==>
            r.attempts[i].action == KindAt(env, i) && r.attempts[i].outcome == OutcomeAt(svc.debug, env, i))
      && (forall i :: 0 <= i < |r.attempts| - 1 ==> r.attempts[i].outcome.Failed?)
      && (r.attempts != [] && r.attempts[|r.attempts| - 1].outcome.Failed? ==>
            |r.attempts| == MaxAttemptsOf(svc.config))
      && (r.admitted && MaxAttemptsOf(svc.config) > 0 ==> r.attempts != [])
  {
  }

  /** The configured back-off separates consecutive attempts: one wait fewer
      than attempts, each of `retry_delay_seconds`. */
  lemma BackoffsBetweenAttempts(svc: Service, rut: string, env: RutEnv, draw: RandomSource, pos: nat)
    ensures var r := ProcessRut(svc, rut, env, draw, pos);
      && |r.backoffs| == (if r.attempts == [] then 0 else |r.attempts| - 1)
      && (forall i :: 0 <= i < |r.backoffs| ==>
            svc.config.Some? && r.backoffs[i] == svc.config.value.retryDelaySeconds)
  {
  }

  /** Outside debug mode an admitted RUT succeeds exactly when some punch
      within the budget would succeed. */
  lemma SuccessIffSomeAttemptSucceeds(svc: Service, rut: string, env: RutEnv, draw: RandomSource, pos: nat)
    requires !svc.debug
    ensures var r := ProcessRut(svc, rut, env, draw, pos);
      r.admitted ==> (r.ok <==> SomeAttemptSucceeds(env, 0, MaxAttemptsOf(svc.config)))
  {
  }

  /** Outside debug mode the delays of the attempts are, in order, the values
      of `get_random_delay(rut)` called once per attempt. */
  lemma AttemptsCarryDrawnDelays(svc: Service, rut: string, env: RutEnv, draw: RandomSource, pos: nat)
    requires !svc.debug
    ensures var r := ProcessRut(svc, rut, env, draw, pos);
      var d := DrawDelays(svc.delays, rut, draw, pos, |r.attempts|);
      && (forall i :: 0 <= i < |r.attempts| ==> r.attempts[i].delay == Some(d.delays[i]))
      && (r.attempts != [] ==> r.service.delays == d.manager && r.next == d.next)
  {
  }

  /** Outside debug mode every attempt draws one delay, and the RUT ends up
      registered with the delay of its last attempt; without attempts, or in
      debug mode, nothing is drawn. */
  lemma DelaysPerAttempt(svc: Service, rut: string, env: RutEnv, draw: RandomSource, pos: nat)
    ensures var r := ProcessRut(svc, rut, env, draw, pos);
      && (!svc.debug ==> forall i :: 0 <= i < |r.attempts| ==> r.attempts[i].delay.Some?)
      && (!svc.debug && r.attempts != [] ==>
            && r.service.delays.registry == svc.delays.registry[rut := r.attempts[|r.attempts| - 1].delay.value]
            && pos + |r.attempts| <= r.next)
      && (r.attempts == [] || svc.debug ==> r.service.delays == svc.delays && r.next == pos)
  {
    if !svc.debug {
      AttemptsCarryDrawnDelays(svc, rut, env, draw, pos);
    }
  }

  /** Each drawn delay is counted as applied: the counter grows by the number
      of attempts outside debug mode and stays put in debug mode. */
  lemma DelaysCounted(svc: Service, rut: string, env: RutEnv, draw: RandomSource, pos: nat)
    ensures var r := ProcessRut(svc, rut, env, draw, pos);
      r.service.metrics.delaysApplied == svc.metrics.delaysApplied + (if svc.debug then 0 else |r.attempts|)
  {
  }

  /** Every delay of an in-range random source is between 1 and 20 minutes. */
  lemma DelaysInRange(svc: Service, rut: string, env: RutEnv, draw: RandomSource, pos: nat)
    requires DrawsInRange(draw, pos)
    ensures var r := ProcessRut(svc, rut, env, draw, pos);
      forall i :: 0 <= i < |r.attempts| && r.attempts[i].delay.Some? ==>
        MinDelay <= r.attempts[i].delay.value <= MaxDelay
  {
    if !svc.debug {
      var r := ProcessRut(svc, rut, env, draw, pos);
      AttemptsCarryDrawnDelays(svc, rut, env, draw, pos);
      DrawnDelaysInRange(svc.delays, rut, draw, pos, |r.attempts|);
    }
  }

  /** Debug mode punches nothing and draws no delay: an admitted RUT succeeds
      at the first attempt. */
  lemma DebugSucceedsAtOnce(svc: Service, rut: string, env: RutEnv, draw: RandomSource, pos: nat)
    requires svc.debug && MaxAttemptsOf(svc.config) > 0
    ensures var r := ProcessRut(svc, rut, env, draw, pos);
      r.admitted ==> r.ok && r.attempts == [Attempt(None, KindAt(env, 0), Done)] && r.service.delays == svc.delays
  {
  }

  /** Every breaker the service reaches satisfies the breaker invariant. */
  lemma ProcessRutKeepsBreakerInvariant(svc: Service, rut: string, env: RutEnv, draw: RandomSource, pos: nat)
    requires Inv(svc.breaker)
    ensures Inv(ProcessRut(svc, rut, env, draw, pos).service.breaker)
  {
  }

  /** The counters stay consistent: no more successes and errors together
      than RUTs started. */
  predicate MetricsConsistent(m: Metrics.Metrics) {
    m.successes + m.errors <= m.rutsProcessed
  }

  lemma ProcessRutKeepsMetricsConsistent(svc: Service, rut: string, env: RutEnv, draw: RandomSource, pos: nat)
    requires MetricsConsistent(svc.metrics)
    ensures MetricsConsistent(ProcessRut(svc, rut, env, draw, pos).service.metrics)
  {
  }

  /** Without an execution configuration there is exactly one attempt and no
      back-off. */
  lemma NoRetryWithoutConfig(svc: Service, rut: string, env: RutEnv, draw: RandomSource, pos: nat)
    requires svc.config.None?
    ensures var r := ProcessRut(svc, rut, env, draw, pos);
      r.admitted ==> |r.attempts| == 1 && r.backoffs == []
  {
  }

  /** A RUT whose every punch fails uses the whole budget, waits the
      configured back-off between consecutive attempts, and ends with one
      recorded failure and one error notice. */
  lemma PersistentFailureExhaustsRetries(svc: Service, rut: string, env: RutEnv, draw: RandomSource, pos: nat)
    requires !svc.debug && svc.config.Some? && 0 <= svc.config.value.retryAttempts
    requires forall i :: 0 <= i <= svc.config.value.retryAttempts ==> env.act(i).Failed?
    ensures var r := ProcessRut(svc, rut, env, draw, pos);
      r.admitted ==>
        && !r.ok
        && |r.attempts| == svc.config.value.retryAttempts + 1
        && r.backoffs == seq(svc.config.value.retryAttempts, _ => svc.config.value.retryDelaySeconds)
        && r.notices == [ErrorNotice(rut, Marcaje)]
        && r.service.breaker.failureCount == svc.breaker.failureCount + 1
  {
    var r := ProcessRut(svc, rut, env, draw, pos);
    if r.admitted {
      var n := MaxAttemptsOf(svc.config);
      assert !SomeAttemptSucceeds(env, 0, n);
    }
  }
}
