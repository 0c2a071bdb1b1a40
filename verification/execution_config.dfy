/** The execution-tuning configuration layered on the base configuration:
    defaults, flag parsing, range validation and the sequential/parallel
    choice. Integer parsing of the variables is represented by its outcome. */
module ExecutionConfigs {
  import opened Wrappers
  import opened Text
  import opened Settings

  datatype ExecutionConfig = ExecutionConfig(
    parallelExecution: bool,
    maxWorkers: int,
    retryAttempts: int,
    retryDelaySeconds: int,
    circuitBreakerThreshold: int,
    enableMetrics: bool)

  const Defaults: ExecutionConfig := ExecutionConfig(false, 2, 3, 30, 3, true)

  const MaxRuts: nat := 10

  /** The execution variables: flags as raw text, integers already parsed
      (None when unset). */
  datatype ExecutionEnv = ExecutionEnv(
    parallelExecution: Option<string>,
    maxWorkers: Option<int>,
    retryAttempts: Option<int>,
    retryDelaySeconds: Option<int>,
    circuitBreakerThreshold: Option<int>,
    enableMetrics: Option<string>)

  /** `os.getenv(name, default).lower() == 'true'`. */
  function EnvFlag(raw: Option<string>, default: string): bool {
    Lower(raw.GetOr(default)) == "true"
  }

  /** With default "false" the execution flags parse like the base flags. */
  lemma EnvFlagAgreesWithFlagValue(raw: Option<string>)
    ensures EnvFlag(raw, "false") == FlagValue(raw)
  {
    var f := "false";
    assert Lower(f) == f;
    assert Lower("") == "";
  }

  /** `_load_execution_config`: each unset variable takes its default; an
      empty flag reads as false even where the default is true. */
  function LoadExecutionConfig(e: ExecutionEnv): (c: ExecutionConfig)
    ensures e == ExecutionEnv(None, None, None, None, None, None) ==> c == Defaults
    ensures e.maxWorkers.Some? ==> c.maxWorkers == e.maxWorkers.value
    ensures e.retryAttempts.Some? ==> c.retryAttempts == e.retryAttempts.value
    ensures e.retryDelaySeconds.Some? ==> c.retryDelaySeconds == e.retryDelaySeconds.value
    ensures e.circuitBreakerThreshold.Some? ==> c.circuitBreakerThreshold == e.circuitBreakerThreshold.value
    ensures e.maxWorkers.None? ==> c.maxWorkers == Defaults.maxWorkers
    ensures e.retryAttempts.None? ==> c.retryAttempts == Defaults.retryAttempts
    ensures e.retryDelaySeconds.None? ==> c.retryDelaySeconds == Defaults.retryDelaySeconds
    ensures e.circuitBreakerThreshold.None? ==> c.circuitBreakerThreshold == Defaults.circuitBreakerThreshold
    ensures c.parallelExecution == EnvFlag(e.parallelExecution, "false")
    ensures c.enableMetrics == EnvFlag(e.enableMetrics, "true")
    ensures e.parallelExecution.None? ==> !c.parallelExecution
    ensures e.enableMetrics.None? ==> c.enableMetrics
    ensures e.enableMetrics == Some("") ==> !c.enableMetrics
  {
    assert Lower("true") == "true";
    assert Lower("false") == "false";
    ExecutionConfig(
      EnvFlag(e.parallelExecution, "false"),
      e.maxWorkers.GetOr(Defaults.maxWorkers),
      e.retryAttempts.GetOr(Defaults.retryAttempts),
      e.retryDelaySeconds.GetOr(Defaults.retryDelaySeconds),
      e.circuitBreakerThreshold.GetOr(Defaults.circuitBreakerThreshold),
      EnvFlag(e.enableMetrics, "true"))
  }

  /** The accepted ranges, stated independently of the order of the checks. */
  predicate WithinLimits(c: ExecutionConfig, rutCount: nat) {
    && 1 <= c.maxWorkers <= 10
    && 0 <= c.retryAttempts <= 10
    && 1 <= c.retryDelaySeconds <= 300
    && rutCount <= MaxRuts
  }

  /** `_validate_advanced_config`: the first range check that fails, if any.
      The breaker threshold is not checked. */
  function ValidationError(c: ExecutionConfig, rutCount: nat): (r: Option<ConfigError>)
    ensures r.None? <==> WithinLimits(c, rutCount)
    ensures r == Some(MaxWorkersOutOfRange) <==> !(1 <= c.maxWorkers <= 10)
    ensures r == Some(RetryAttemptsOutOfRange) <==>
      1 <= c.maxWorkers <= 10 && !(0 <= c.retryAttempts <= 10)
    ensures r == Some(RetryDelayOutOfRange) <==>
      1 <= c.maxWorkers <= 10 && 0 <= c.retryAttempts <= 10 && !(1 <= c.retryDelaySeconds <= 300)
    ensures r == Some(TooManyRuts) <==>
      1 <= c.maxWorkers <= 10 && 0 <= c.retryAttempts <= 10 && 1 <= c.retryDelaySeconds <= 300
      && rutCount > MaxRuts
  {
    if c.maxWorkers < 1 || c.maxWorkers > 10 then Some(MaxWorkersOutOfRange)
    else if c.retryAttempts < 0 || c.retryAttempts > 10 then Some(RetryAttemptsOutOfRange)
    else if c.retryDelaySeconds < 1 || c.retryDelaySeconds > 300 then Some(RetryDelayOutOfRange)
    else if rutCount > MaxRuts then Some(TooManyRuts)
    else None
  }

  /** The breaker threshold never affects validation. */
  lemma ThresholdNotValidated(c: ExecutionConfig, rutCount: nat, threshold: int)
    ensures ValidationError(c.(circuitBreakerThreshold := threshold), rutCount) == ValidationError(c, rutCount)
  {
  }

  /** The defaults pass validation for any permitted number of RUTs. */
  lemma DefaultsAreValid(rutCount: nat)
    requires rutCount <= MaxRuts
    ensures ValidationError(Defaults, rutCount).None?
  {
  }

  /** `should_use_parallel_processing`: parallel iff more than one RUT. */
  function ShouldUseParallelProcessing(rutCount: nat): (b: bool)
    ensures b <==> rutCount >= 2
  {
    rutCount > 1
  }

  datatype AdvancedConfig = AdvancedConfig(base: Config, execution: ExecutionConfig)

  /** `AdvancedConfig()`: the base configuration, then the execution variables,
      then the range checks; the first failure is fatal. */
  function LoadAdvancedConfig(env: Environment, e: ExecutionEnv): (r: Result<AdvancedConfig, ConfigError>)
    ensures r.Ok? <==>
      (LoadConfig(env).Ok? && WithinLimits(LoadExecutionConfig(e), |LoadConfig(env).value.activeRuts|))
    ensures r.Ok? ==> r.value.base == LoadConfig(env).value && r.value.execution == LoadExecutionConfig(e)
    ensures r.Ok? ==> 1 <= |r.value.base.activeRuts| <= MaxRuts
    ensures LoadConfig(env).Err? ==> r == Err(LoadConfig(env).error)
    ensures LoadConfig(env).Ok? && r.Err? ==>
      Some(r.error) == ValidationError(LoadExecutionConfig(e), |LoadConfig(env).value.activeRuts|)
  {
    match LoadConfig(env)
    case Err(err) => Err(err)
    case Ok(base) =>
      var execution := LoadExecutionConfig(e);
      match ValidationError(execution, |base.activeRuts|)
      case Some(err) => Err(err)
      case None => Ok(AdvancedConfig(base, execution))
  }
}
