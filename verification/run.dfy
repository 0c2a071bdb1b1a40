/** The run coordinator: configuration and activation gating, the holiday
    check, the choice between one-by-one and thread-pool processing, the
    success count and the final statistics. The thread pool is represented by
    what each worker returned and by the order in which the workers finished. */
module Run {
  import opened Wrappers
  import opened Settings
  import opened ExecutionConfigs
  import opened Holidays
  import opened Delays
  import opened CircuitBreakers
  import opened Actions
  import opened EnhancedMarcaje
  import Metrics

  /** The number of `process_rut` calls that returned true. */
  function CountOk(rs: seq<RutResult>): (n: nat)
    ensures n <= |rs|
    ensures n == |rs| <==> forall i :: 0 <= i < |rs| ==> rs[i].ok
    ensures n == 0 <==> forall i :: 0 <= i < |rs| ==> !rs[i].ok
    decreases |rs|
  {
    if rs == [] then 0
    else
      var k := |rs| - 1;
      var n := CountOk(rs[..k]) + (if rs[k].ok then 1 else 0);
      assert forall i :: 0 <= i < k ==> rs[..k][i] == rs[i];
      n
  }

  /** The calls of one-by-one processing and the service and random-source
      cursor they leave behind. */
  datatype SequentialReport = SequentialReport(results: seq<RutResult>, service: Service, next: nat)

  /** `process_rut` once per RUT, in list order, each call seeing the service
      the previous one left; RUT `i` meets the outside world `envs(i)`. */
  function SequentialRun(svc: Service, ruts: seq<string>, envs: nat -> RutEnv, draw: RandomSource, pos: nat)
    : (r: SequentialReport)
    ensures |r.results| == |ruts|
    ensures r.service.debug == svc.debug && r.service.config == svc.config
    decreases |ruts|
  {
    if ruts == [] then SequentialReport([], svc, pos)
    else
      var k := |ruts| - 1;
      var prev := SequentialRun(svc, ruts[..k], envs, draw, pos);
      var rr := ProcessRut(prev.service, ruts[k], envs(k), draw, prev.next);
      SequentialReport(prev.results + [rr], rr.service, rr.next)
  }

  /** Processing is strictly in list order: the results for the first `i`
      RUTs do not depend on the RUTs after them. */
  lemma {:induction false} SequentialRunPrefix(svc: Service, ruts: seq<string>, envs: nat -> RutEnv,
                                               draw: RandomSource, pos: nat, i: nat)
    requires i <= |ruts|
    ensures SequentialRun(svc, ruts, envs, draw, pos).results[..i]
         == SequentialRun(svc, ruts[..i], envs, draw, pos).results
    decreases |ruts|
  {
    if i < |ruts| {
      var k := |ruts| - 1;
      var prev := SequentialRun(svc, ruts[..k], envs, draw, pos);
      SequentialRunPrefix(svc, ruts[..k], envs, draw, pos, i);
      assert ruts[..k][..i] == ruts[..i];
      var all := SequentialRun(svc, ruts, envs, draw, pos).results;
      assert all[..k] == prev.results;
      assert all[..i] == all[..k][..i];
    } else {
      assert ruts[..i] == ruts;
    }
  }

  /** One more RUT extends the run by exactly one `process_rut` call. */
  lemma SequentialRunStep(svc: Service, ruts: seq<string>, envs: nat -> RutEnv, draw: RandomSource, pos: nat, i: nat)
    requires i < |ruts|
    ensures var prev := SequentialRun(svc, ruts[..i], envs, draw, pos);
      var rr := ProcessRut(prev.service, ruts[i], envs(i), draw, prev.next);
      SequentialRun(svc, ruts[..i + 1], envs, draw, pos) == SequentialReport(prev.results + [rr], rr.service, rr.next)
  {
    assert ruts[..i + 1][..i] == ruts[..i];
  }

  lemma CountOkAppend(rs: seq<RutResult>, r: RutResult)
    ensures CountOk(rs + [r]) == CountOk(rs) + (if r.ok then 1 else 0)
  {
    assert (rs + [r])[..|rs|] == rs;
  }

  /** `process_ruts_sequential`: the loop and its counter. */
  method ProcessRutsSequential(svc: Service, ruts: seq<string>, envs: nat -> RutEnv, draw: RandomSource, pos: nat)
    returns (successCount: nat, report: SequentialReport)
    ensures report == SequentialRun(svc, ruts, envs, draw, pos)
    ensures successCount == CountOk(report.results) && successCount <= |ruts|
  {
    successCount := 0;
    report := SequentialReport([], svc, pos);
    for i := 0 to |ruts|
      invariant report == SequentialRun(svc, ruts[..i], envs, draw, pos)
      invariant successCount == CountOk(report.results)
    {
      SequentialRunStep(svc, ruts, envs, draw, pos, i);
      var r := ProcessRut(report.service, ruts[i], envs(i), draw, report.next);
      CountOkAppend(report.results, r);
      if r.ok {
        successCount := successCount + 1;
      }
      report := SequentialReport(report.results + [r], r.service, r.next);
    }
    assert ruts[..|ruts|] == ruts;
  }

  /** What `future.result()` gave for one RUT: the value `process_rut`
      returned, or an exception. */
  datatype WorkerResult = Returned(success: bool) | Raised

  /** The number of workers that returned true. */
  function CountSuccesses(ws: seq<WorkerResult>): (n: nat)
    ensures n <= |ws|
    decreases |ws|
  {
    if ws == [] then 0
    else CountSuccesses(ws[..|ws| - 1]) + (if ws[|ws| - 1] == Returned(true) then 1 else 0)
  }

  /** The count is the multiplicity of "returned true" among the results. */
  lemma {:induction false} SuccessesAreMultiplicity(ws: seq<WorkerResult>)
    ensures CountSuccesses(ws) == multiset(ws)[Returned(true)]
    decreases |ws|
  {
    if ws != [] {
      var k := |ws| - 1;
      SuccessesAreMultiplicity(ws[..k]);
      assert ws == ws[..k] + [ws[k]];
      assert multiset(ws) == multiset(ws[..k]) + multiset{ws[k]};
    }
  }

  /** `as_completed` may hand the futures back in any order: the count only
      depends on which results there are. */
  lemma CompletionOrderIrrelevant(a: seq<WorkerResult>, b: seq<WorkerResult>)
    requires multiset(a) == multiset(b)
    ensures CountSuccesses(a) == CountSuccesses(b)
  {
    SuccessesAreMultiplicity(a);
    SuccessesAreMultiplicity(b);
  }

  /** A worker that raised is not a success, and the results of all the other
      workers are still counted. */
  lemma RaisedWorkerCountsAsFailure(ws: seq<WorkerResult>, i: nat)
    requires i < |ws| && ws[i] == Raised
    ensures CountSuccesses(ws) == CountSuccesses(ws[..i] + ws[i + 1..])
    ensures CountSuccesses(ws) <= |ws| - 1
  {
    var rest := ws[..i] + ws[i + 1..];
    assert ws[..i] + ws[i..] == ws;
    assert ws[i..] == [ws[i]] + ws[i + 1..];
    assert multiset(ws) == multiset(rest) + multiset{Raised};
    SuccessesAreMultiplicity(ws);
    SuccessesAreMultiplicity(rest);
  }

  /** The futures submitted, one per RUT in list order; `outcome(i)` is what
      the worker for RUT `i` produced. */
  function Submitted(outcome: nat -> WorkerResult, count: nat): (ws: seq<WorkerResult>)
    ensures |ws| == count
    ensures forall i :: 0 <= i < count ==> ws[i] == outcome(i)
  {
    seq(count, i requires 0 <= i => outcome(i))
  }

  /** `process_ruts_parallel`'s counting loop over the results in completion
      order: every result is looked at, an exception is skipped. */
  method ProcessRutsParallel(completed: seq<WorkerResult>) returns (successCount: nat)
    ensures successCount == CountSuccesses(completed)
    ensures successCount <= |completed|
  {
    successCount := 0;
    for i := 0 to |completed|
      invariant successCount == CountSuccesses(completed[..i])
    {
      assert completed[..i + 1][..i] == completed[..i];
      match completed[i]
      case Returned(success) =>
        if success {
          successCount := successCount + 1;
        }
      case Raised =>
    }
    assert completed[..|completed|] == completed;
  }

  /** The worker results of a list of `process_rut` results. */
  function AsReturned(rs: seq<RutResult>): (ws: seq<WorkerResult>)
    ensures |ws| == |rs|
    ensures forall i :: 0 <= i < |rs| ==> ws[i] == Returned(rs[i].ok)
  {
    seq(|rs|, i requires 0 <= i < |rs| => Returned(rs[i].ok))
  }

  /** When every worker returns, in whatever order, the values a list of
      `process_rut` calls returned, both counting loops agree. */
  lemma {:induction false} ParallelCountsLikeSequential(rs: seq<RutResult>, completed: seq<WorkerResult>)
    requires multiset(completed) == multiset(AsReturned(rs))
    ensures CountSuccesses(completed) == CountOk(rs)
    decreases |rs|
  {
    CompletionOrderIrrelevant(completed, AsReturned(rs));
    ReturnedCount(rs);
  }

  lemma {:induction false} ReturnedCount(rs: seq<RutResult>)
    ensures CountSuccesses(AsReturned(rs)) == CountOk(rs)
    decreases |rs|
  {
    if rs != [] {
      var k := |rs| - 1;
      ReturnedCount(rs[..k]);
      assert AsReturned(rs)[..k] == AsReturned(rs[..k]);
    }
  }

  /** `print_final_statistics`: the counts, the coincidence count of the delay
      manager, the metrics summary when metrics are enabled, and the breaker
      state and failure count. */
  datatype Statistics = Statistics(
    total: nat,
    successes: nat,
    errors: int,
    successRatePercent: real,
    coincidences: nat,
    metrics: Option<Metrics.Summary>,
    breakerState: BreakerState,
    failureCount: nat)

  /** The rate divides by the number of RUTs, which the run guarantees is
      positive. */
  function FinalStatistics(svc: Service, metricsEnabled: bool, successCount: nat, total: nat): (s: Statistics)
    requires total > 0
    ensures s.total == total && s.successes == successCount
    ensures s.errors == total - successCount
    ensures s.successRatePercent * total as real == successCount as real * 100.0
    ensures successCount <= total ==> 0 <= s.errors <= total && 0.0 <= s.successRatePercent <= 100.0
    ensures s.coincidences == GetStatistics(svc.delays).coincidences
    ensures s.metrics.Some? <==> metricsEnabled
    ensures metricsEnabled ==> s.metrics.value == Metrics.GetSummary(svc.metrics)
    ensures s.breakerState == svc.breaker.state && s.failureCount == svc.breaker.failureCount
  {
    var rate := successCount as real / total as real * 100.0;
    Statistics(total, successCount, total - successCount, rate, svc.delays.coincidences,
               if metricsEnabled then Some(Metrics.GetSummary(svc.metrics)) else None,
               svc.breaker.state, svc.breaker.failureCount)
  }

  /** Everything one run reads from outside: the environment variables, the
      holiday calendar's answer and today's date, the random source, the
      outside world met by each RUT on the one-by-one path, and on the
      thread-pool path what each worker produced and the state the workers
      left the shared service in. */
  datatype World = World(
    env: Environment,
    exec: ExecutionEnv,
    calendar: ApiResponse,
    today: string,
    draw: RandomSource,
    rutEnvs: nat -> RutEnv,
    workers: nat -> WorkerResult,
    afterWorkers: Service)

  datatype RunOutcome =
    | Aborted(error: ConfigError)
    | Deactivated
    | HolidaySkipped(check: HolidayCheck)
    | Processed(parallel: bool, successCount: nat, stats: Statistics)

  /** `main`: configuration errors are fatal; a deactivated script stops
      before the holiday check; a holiday stops before any RUT; otherwise
      several RUTs go to the thread pool and a single RUT is processed
      directly. */
  function Main(w: World): (r: RunOutcome)
    ensures r.Aborted? <==> LoadAdvancedConfig(w.env, w.exec).Err?
    ensures r.Deactivated? <==>
      LoadAdvancedConfig(w.env, w.exec).Ok? && !LoadAdvancedConfig(w.env, w.exec).value.base.clockInActive
    ensures r.HolidaySkipped? ==> r.check == IsHoliday(w.calendar, w.today) && r.check.isHoliday
    ensures r.Processed? <==>
      && LoadAdvancedConfig(w.env, w.exec).Ok?
      && LoadAdvancedConfig(w.env, w.exec).value.base.clockInActive
      && !IsHoliday(w.calendar, w.today).isHoliday
    ensures r.Processed? ==>
      && r.stats.total == |LoadAdvancedConfig(w.env, w.exec).value.base.activeRuts|
      && (r.parallel <==> ShouldUseParallelProcessing(r.stats.total))
      && r.successCount <= r.stats.total
      && r.stats.errors == r.stats.total - r.successCount
    ensures r.Processed? && r.parallel ==>
      r.successCount == CountSuccesses(Submitted(w.workers, r.stats.total))
    ensures r.Processed? && !r.parallel ==>
      var c := LoadAdvancedConfig(w.env, w.exec).value;
      var run := SequentialRun(NewService(Fresh, c.base.debugMode, Some(c.execution)), c.base.activeRuts, w.rutEnvs, w.draw, 0);
      && r.successCount == CountOk(run.results)
      && r.stats == FinalStatistics(run.service, c.execution.enableMetrics, CountOk(run.results), |c.base.activeRuts|)
  {
    match LoadAdvancedConfig(w.env, w.exec)
    case Err(e) => Aborted(e)
    case Ok(config) =>
      if !config.base.clockInActive then Deactivated
      else
        var holiday := IsHoliday(w.calendar, w.today);
        if holiday.isHoliday then HolidaySkipped(holiday)
        else
          var ruts := config.base.activeRuts;
          var metricsEnabled := config.execution.enableMetrics;
          if |ruts| > 1 then
            var count := CountSuccesses(Submitted(w.workers, |ruts|));
            Processed(true, count, FinalStatistics(w.afterWorkers, metricsEnabled, count, |ruts|))
          else
            var svc := NewService(Fresh, config.base.debugMode, Some(config.execution));
            var run := SequentialRun(svc, ruts, w.rutEnvs, w.draw, 0);
            var count := CountOk(run.results);
            Processed(false, count, FinalStatistics(run.service, metricsEnabled, count, |ruts|))
  }

  /** A deactivated script ends the same way whatever the calendar says and
      whatever the RUTs would have done. */
  lemma DeactivatedIgnoresCalendarAndRuts(w: World, calendar: ApiResponse, rutEnvs: nat -> RutEnv,
                                          workers: nat -> WorkerResult)
    requires Main(w).Deactivated?
    ensures Main(w.(calendar := calendar, rutEnvs := rutEnvs, workers := workers)) == Deactivated
  {
  }

  /** On a holiday no RUT is processed: the outcome is the holiday check
      whatever the RUTs would have done. */
  lemma HolidayProcessesNoRut(w: World, rutEnvs: nat -> RutEnv, workers: nat -> WorkerResult, after: Service)
    requires Main(w).HolidaySkipped?
    ensures Main(w.(rutEnvs := rutEnvs, workers := workers, afterWorkers := after)) == Main(w)
  {
  }

  /** The PARALLEL_EXECUTION variable is read but never chooses the path:
      with the flag changed the run gets as far, and takes the same path. */
  lemma ParallelFlagIgnored(w: World, flag: Option<string>)
    ensures var w' := w.(exec := w.exec.(parallelExecution := flag));
      && Main(w').Processed? == Main(w).Processed?
      && (Main(w).Processed? ==> Main(w').parallel == Main(w).parallel)
  {
    var e' := w.exec.(parallelExecution := flag);
    assert LoadExecutionConfig(e') == LoadExecutionConfig(w.exec).(parallelExecution := EnvFlag(flag, "false"));
    assert LoadAdvancedConfig(w.env, e').Ok? == LoadAdvancedConfig(w.env, w.exec).Ok?;
  }

  /** Every attempt of each of the first `count` RUTs fails. */
  predicate AllPunchesFail(envs: nat -> RutEnv, count: nat, budget: int) {
    forall i, j :: 0 <= i < count && 0 <= j < budget ==> envs(i).act(j).Failed?
  }

  /** Every call was let through by the breaker and returned false. */
  predicate AllAdmittedAndFailed(rs: seq<RutResult>) {
    forall i :: 0 <= i < |rs| ==> rs[i].admitted && !rs[i].ok
  }

  lemma AppendAdmittedFailure(rs: seq<RutResult>, r: RutResult)
    requires AllAdmittedAndFailed(rs) && r.admitted && !r.ok
    ensures AllAdmittedAndFailed(rs + [r])
  {
    assert forall i :: 0 <= i < |rs| ==> (rs + [r])[i] == rs[i];
  }

  /** RUTs that all fail, one after another, each get through the breaker
      while it is below its threshold and add one failure each; the last
      failure stamps the breaker, and reaching the threshold opens it. */
  lemma {:induction false} FailingRunCountsFailures(svc: Service, ruts: seq<string>, envs: nat -> RutEnv,
                                                    draw: RandomSource, pos: nat)
    requires !svc.debug && MaxAttemptsOf(svc.config) >= 1
    requires svc.breaker.state == Closed
    requires svc.breaker.failureCount + |ruts| <= svc.breaker.threshold
    requires AllPunchesFail(envs, |ruts|, MaxAttemptsOf(svc.config))
    ensures var r := SequentialRun(svc, ruts, envs, draw, pos);
      && AllAdmittedAndFailed(r.results)
      && r.service.breaker.failureCount == svc.breaker.failureCount + |ruts|
      && r.service.breaker.threshold == svc.breaker.threshold
      && r.service.breaker.resetTimeout == svc.breaker.resetTimeout
      && (ruts != [] ==> r.service.breaker.lastFailureTime == Some(envs(|ruts| - 1).failTime))
      && r.service.breaker.state
           == (if ruts != [] && svc.breaker.failureCount + |ruts| >= svc.breaker.threshold then Open else Closed)
    decreases |ruts|
  {
    if ruts != [] {
      var k := |ruts| - 1;
      var prev := SequentialRun(svc, ruts[..k], envs, draw, pos);
      FailingRunCountsFailures(svc, ruts[..k], envs, draw, pos);
      FailingRutIsRecorded(prev.service, ruts[k], envs(k), draw, prev.next);
      var rr := ProcessRut(prev.service, ruts[k], envs(k), draw, prev.next);
      var r := SequentialRun(svc, ruts, envs, draw, pos);
      assert r == SequentialReport(prev.results + [rr], rr.service, rr.next);
      assert r.service.breaker == RecordFailure(prev.service.breaker, envs(k).failTime);
      AppendAdmittedFailure(prev.results, rr);
    }
  }

  /** One RUT whose every punch fails, met by a CLOSED breaker: it is let
      through, returns false, and adds exactly one failure to the breaker. */
  lemma FailingRutIsRecorded(svc: Service, rut: string, env: RutEnv, draw: RandomSource, pos: nat)
    requires !svc.debug && MaxAttemptsOf(svc.config) >= 1 && svc.breaker.state == Closed
    requires forall j :: 0 <= j < MaxAttemptsOf(svc.config) ==> env.act(j).Failed?
    ensures var r := ProcessRut(svc, rut, env, draw, pos);
      r.admitted && !r.ok && r.service.breaker == RecordFailure(svc.breaker, env.failTime)
  {
    assert !SomeAttemptSucceeds(env, 0, MaxAttemptsOf(svc.config));
    AttemptsFollowRetryLoop(svc, rut, env, draw, pos);
    SuccessIffSomeAttemptSucceeds(svc, rut, env, draw, pos);
    AdmittedRutAccounting(svc, rut, env, draw, pos);
  }

  /** After `threshold` RUTs in a row have failed from a fresh breaker, the
      next RUT within the reset timeout of the last failure is refused: no
      attempt, no notice, and the breaker stays OPEN. */
  lemma TrippedBreakerRefusesNextRut(svc: Service, ruts: seq<string>, extra: string, envs: nat -> RutEnv,
                                     draw: RandomSource, pos: nat)
    requires !svc.debug && MaxAttemptsOf(svc.config) >= 1
    requires svc.breaker.state == Closed && svc.breaker.failureCount == 0
    requires ruts != [] && |ruts| == svc.breaker.threshold
    requires AllPunchesFail(envs, |ruts|, MaxAttemptsOf(svc.config))
    requires envs(|ruts|).gateTime - envs(|ruts| - 1).failTime <= svc.breaker.resetTimeout
    ensures var r := SequentialRun(svc, ruts + [extra], envs, draw, pos);
      && !r.results[|ruts|].admitted
      && r.results[|ruts|].attempts == [] && r.results[|ruts|].notices == []
      && r.service.breaker.state == Open
  {
    FailingRunCountsFailures(svc, ruts, envs, draw, pos);
    assert (ruts + [extra])[..|ruts|] == ruts;
  }
}
