# good-friend clock-in core, modelled in Dafny

The system punches ENTRADA or SALIDA on a web time clock for a list of
RUTs (Chilean identifiers). It waits a random, non-repeating delay before
each punch, retries failed punches, and stops punching after repeated
failures using a circuit breaker. It skips holidays and e-mails a notice
for every RUT. This project models that core as pure functions over
immutable datatypes. The outside world is passed in as input:

- the random source is a stream of draws read from a cursor;
- the clock is the Chilean hour read before each attempt, plus the times
  the breaker reads;
- the browser is the outcome of each attempt's punch;
- SMTP is one boolean per delivery;
- the holiday calendar is the decoded HTTP response;
- the environment variables are supplied with the outcome of their
  base64/JSON/int decoding.

Modules, one per source file:

| module | file | source |
|---|---|---|
| `Text` | `text.dfy` | the ASCII forms of `lower()`, `isdigit()`, `rstrip('k')` |
| `RutValidator` | `rut_validator.dfy` | `utils/rut_validator.py` |
| `Delays` | `delay_manager.dfy` | `utils/delay_manager.py` |
| `CircuitBreakers`, `ExecutionConfigs` | `circuit_breaker.dfy`, `execution_config.dfy` | `utils/advanced_config.py` |
| `Metrics` | `metrics.dfy` | `MetricsCollector` in `utils/logger.py` |
| `Settings` | `config.dfy` | `config.py` |
| `Email` | `email_service.dfy` | `services/email_service.py` |
| `Holidays` | `holiday_service.dfy` | `services/holiday_service.py` |
| `Actions` | `actions.dfy` | what both marcaje services share: the punch kind, outcomes, notices |
| `LegacyMarcaje` | `marcaje_service.dfy` | `services/marcaje_service.py` |
| `EnhancedMarcaje` | `enhanced_marcaje_service.dfy` | `services/enhanced_marcaje_service.py` |
| `Run` | `run.dfy` | `main.py` |

Where the code differs from the behaviour a reader might expect, the model
follows the code:

- A HALF_OPEN breaker lets every call through, not a single probe.
- The enhanced service never consults the exception list.
- It draws a fresh delay and re-reads the hour (ENTRADA/SALIDA) on every
  attempt.
- A refused RUT records no failure and sends no e-mail.
- `main` chooses the thread pool whenever there is more than one RUT. The
  PARALLEL_EXECUTION variable is read but never used.
- The service always owns a metrics collector. `main` only prints its
  summary when ENABLE_METRICS is on.
- `_process_rut_attempt` either returns True or raises. The loop's final
  `return False` (enhanced_marcaje_service.py:92) is only reached with a
  negative retry count, which then makes no attempt at all; the range
  check in `AdvancedConfig` rules this out for `main`.
- `main`'s "no RUTs" exit (main.py:114-117) cannot be reached: loading the
  configuration already guarantees between 1 and 10 RUTs. The success rate
  therefore never divides by zero.

## Model

| member | source | states |
|---|---|---|
| Text.StripTrailingK | config.py:143 | `rstrip('k')`: the result is a prefix of the input, does not end in 'k', and only 'k's were removed |
| RutValidator.IsValidRut | utils/rut_validator.py:11-30 | a RUT is valid iff it has 8 or 9 characters, ends in a digit or 'k'/'K', and has only digits before that, stated on the input before lower-casing |
| RutValidator.WrongLengthRejected | utils/rut_validator.py:17-18 | any length outside 8..9 is rejected |
| RutValidator.ValidIgnoresCase | utils/rut_validator.py:14 | validation gives the same answer for a RUT and its lower-cased form |
| RutValidator.LowerAll | utils/rut_validator.py:35 | the lower-cased skip-list has the same length, each entry lower-cased |
| RutValidator.IsRutException | utils/rut_validator.py:33-35 | a RUT is an exception iff some entry equals it ignoring case; an empty list has no exceptions |
| RutValidator.ExceptionIgnoresCase | utils/rut_validator.py:33-35 | the answer does not change when the RUT or the list is lower-cased first |
| RutValidator.ListedIsException | utils/rut_validator.py:33-35 | a RUT listed verbatim is an exception |
| RutValidator.MaskRut | utils/rut_validator.py:38-42 | masking keeps the length; a RUT of at most four characters is starred out completely; otherwise the first four are kept and every later character is '*' |
| RutValidator.MaskIdempotent | utils/rut_validator.py:40-42 | masking an already masked RUT changes nothing |
| RutValidator.MaskHidesSuffix | utils/rut_validator.py:40-42 | two RUTs of equal length that agree on their first four characters mask to the same string |
| Delays.DrawLoop | utils/delay_manager.py:21-33 | the redraw loop stops at the first draw the registry does not hold (the asking RUT's own earlier delay included), or after ten colliding draws; every draw before the stop collided |
| Delays.GetRandomDelay | utils/delay_manager.py:16-53 | consumes between 1 and 10 draws and returns the last one consumed; every draw before it was already in the registry, and when fewer than ten were consumed the returned one was not, so the delay is the first free draw and no draw after it is consumed; a delay is in [1,20] when the draws are; afterwards the registry maps the RUT to the delay and every other key is unchanged; the coincidence count rises by at most one |
| Delays.CoincidenceIffAllCollide | utils/delay_manager.py:25-37 | a coincidence is counted iff all ten draws hit delays already in the registry (the asking RUT's own earlier delay included), and then all ten draws are used; otherwise the delay was not in the registry and the count is unchanged; with an empty registry the first draw is taken |
| Delays.RepeatRequestCollidesWithOwnDelay | utils/delay_manager.py:25-37 | asking again for a RUT that is already registered tests the draws against its own earlier delay too: a lone RUT whose source repeats that delay counts a coincidence against itself |
| Delays.GetStatistics | utils/delay_manager.py:55-61 | the statistics report the number of registered RUTs, the coincidence count and the registry |
| Delays.StatisticsAfterAssignment | utils/delay_manager.py:48-61 | one assignment adds a registry key exactly when the RUT is new, and the coincidence count never falls |
| Delays.FirstAssignmentNeverCollides | utils/delay_manager.py:25-26 | the first RUT of a run takes the first draw and records no coincidence |
| Delays.StuckSourceCountsOneCoincidence | utils/delay_manager.py:21-37 | a source stuck on a delay that is already taken uses all ten draws, counts one coincidence and still returns that delay |
| CircuitBreakers.NewBreaker | utils/advanced_config.py:89-94 | a new breaker is CLOSED, with no failures and no failure time, and satisfies the invariant |
| CircuitBreakers.CanExecute | utils/advanced_config.py:96-109 | a call is refused iff the breaker is OPEN and the reset timeout has not strictly elapsed; an allowed OPEN breaker moves to HALF_OPEN; the counter and the stamp are untouched; the invariant is kept |
| CircuitBreakers.RecordSuccess | utils/advanced_config.py:111-114 | a success leaves the breaker CLOSED with a zero count, keeping the last failure time |
| CircuitBreakers.RecordFailure | utils/advanced_config.py:116-122 | a failure adds one to the count and stamps the time; reaching the threshold opens the breaker, otherwise the state is kept; the invariant is kept |
| CircuitBreakers.HalfOpenFailureReopens | utils/advanced_config.py:104-122 | a failure in HALF_OPEN re-opens the breaker |
| CircuitBreakers.FailuresAccumulate | utils/advanced_config.py:116-122 | consecutive failures add up, the last one is the stamp, and enough of them open the breaker |
| CircuitBreakers.TrippedBreakerWaitsForTimeout | utils/advanced_config.py:100-122 | after threshold failures the breaker is OPEN; it lets a call through, in HALF_OPEN, iff strictly more than the reset timeout has passed since the last failure |
| CircuitBreakers.OnlyOpenRefuses | utils/advanced_config.py:96-109 | only an OPEN breaker refuses a call |
| Metrics.ReplayCounts | utils/logger.py:80-110 | replaying `record_*` calls (Metrics.RecordRutStart, Metrics.RecordSuccess, Metrics.RecordError, Metrics.RecordDelayApplied) from any collector: each counter rises by exactly the number of calls to its own method and no other, and the total duration by the sum of the recorded durations |
| Metrics.ReplayMonotone | utils/logger.py:91-110 | the counters never decrease |
| Metrics.GetSummary | utils/logger.py:112-128 | the average duration is 0 without successes and total/successes otherwise; the success rate is 0 without RUTs and successes/RUTs otherwise, in [0,1] when successes do not exceed RUTs; the counters are copied |
| Settings.FlagValue | config.py:42-43 | DEBUG_MODE and CLOCK_IN_ACTIVE are true iff the value lower-cases to "true"; unset or empty means false |
| Settings.ProcessRuts | config.py:45-73 | the base64 RUT variable wins when set; an undecodable chosen source is fatal, and so is having no source at all |
| Settings.ValidateConfiguration | config.py:109-112 | the configuration is accepted iff the RUT list is non-empty |
| Settings.LoadConfig | config.py:14-17 | the configuration loads iff the RUT list loads and is non-empty; the loaded list is the decoded one, unchanged and in order; a failure reports the RUT-loading error, or the empty-list error when the list loaded but was empty; both flags are parsed |
| Settings.GetDecoded | config.py:76-107 | the special RUT and the special and default addresses are the decoded value when the variable is set and decodes, and absent otherwise |
| Settings.GetEmailAddress | config.py:162-170 | the main address is the decoded base64 value, else the plain variable, else "debug@test.com" |
| Settings.GetEmailDestinations | config.py:128-160 | the main address comes first; the special address is added iff the RUTs match after lower-casing and stripping trailing 'k's and the special address is non-empty |
| Settings.DestinationsIgnoreCase | config.py:143-153 | the destinations of two RUTs that agree ignoring case are the same |
| Settings.DestinationsIgnoreTrailingK | config.py:143-153 | adding a trailing 'k' or 'K' to a RUT does not change its destinations |
| Settings.GetHolidayEmails | config.py:182-195 | the holiday recipients are the main address, plus the special address iff it is non-empty |
| Settings.DestinationsWithinHolidayEmails | config.py:128-195 | every per-RUT destination list is a prefix of the holiday recipients |
| ExecutionConfigs.EnvFlagAgreesWithFlagValue | utils/advanced_config.py:35-40 | an execution flag parsed by ExecutionConfigs.EnvFlag (`getenv(name, default).lower() == 'true'`) with default "false" gives the same answer as the base flags' parse |
| ExecutionConfigs.LoadExecutionConfig | utils/advanced_config.py:13-41 | each integer variable takes its default (2, 3, 30, 3) when unset, and its value when set; PARALLEL_EXECUTION and ENABLE_METRICS are parsed by ExecutionConfigs.EnvFlag with defaults "false" and "true", so unset gives false and true respectively, and an empty ENABLE_METRICS means false |
| ExecutionConfigs.ValidationError | utils/advanced_config.py:43-57 | the configuration passes iff max_workers is in [1,10], retry_attempts in [0,10], retry_delay_seconds in [1,300] and there are at most 10 RUTs; the error reported is the first failing check |
| ExecutionConfigs.ThresholdNotValidated | utils/advanced_config.py:43-57 | the breaker threshold never affects validation |
| ExecutionConfigs.DefaultsAreValid | utils/advanced_config.py:13-57 | the defaults pass validation for up to 10 RUTs |
| ExecutionConfigs.ShouldUseParallelProcessing | utils/advanced_config.py:59-61 | parallel processing is chosen iff there are at least two RUTs |
| ExecutionConfigs.LoadAdvancedConfig | utils/advanced_config.py:27-30 | the full configuration loads iff the base one loads and the execution values are within their limits; a loaded configuration has 1 to 10 RUTs; a base error is reported unchanged, and otherwise the error is the first failing range check |
| Email.Destinations | services/email_service.py:28-40 | the destinations are chosen in the order debug mode, then the RUT's destinations, then the explicit address, then the main address; there are one or two |
| Email.SuccessCount | services/email_service.py:43-62 | the success count is at most the number of deliveries, and positive iff some delivery went through |
| Email.Deliver | services/email_service.py:43-62 | every destination is attempted exactly once, in order, whatever happened to the others |
| Email.SendEmail | services/email_service.py:24-67 | each chosen destination gets one delivery, in order; the send succeeds iff at least one delivery went through |
| Email.ExplicitAddressHasOneDestination | services/email_service.py:28-40 | an explicit address without a RUT gets exactly one destination, that address outside debug mode |
| Email.HolidayDestinations | services/email_service.py:78-84 | holiday notices go to the main address in debug mode, else to the configured holiday recipients, else to the sender |
| Email.SendEach | services/email_service.py:86-91 | one send per address, in order; succeeds iff any send succeeded |
| Email.SendHolidayEmail | services/email_service.py:69-94 | one delivery per holiday recipient, in order; succeeds iff any delivery went through |
| Email.SendNotice | services/email_service.py:96-133 | each exception, success or error notice is one send keyed by the unmasked RUT: one or two deliveries, to the RUT's destinations outside debug mode, succeeding iff one went through |
| Holidays.FirstOnDate | services/holiday_service.py:83-85 | the lookup finds nothing iff no entry is dated today; otherwise it returns the earliest entry dated today |
| Holidays.FirstMatchIsFound | services/holiday_service.py:83-85 | conversely, the earliest entry dated today is the one returned |
| Holidays.CheckOnlineApi | services/holiday_service.py:42-76 | the online check yields a holiday iff the response is a 200 whose body decodes with status "success" and lists today; any failure or negative answer yields nothing |
| Holidays.CheckLocalHolidays | services/holiday_service.py:78-87 | the local check yields a holiday iff the built-in 2025 list has an entry dated today, and that entry |
| Holidays.IsHoliday | services/holiday_service.py:21-40 | today is a holiday iff the online check or the local list says so; the online result wins and is tagged API, otherwise LOCAL; exactly one holiday notice iff it is a holiday |
| Holidays.NegativeAnswerFallsBack | services/holiday_service.py:33-68 | an explicit "no holiday today" answer falls back to the local list, as an unreachable calendar does |
| Holidays.NewYearFoundLocally | config.py:207-220 | with the calendar unreachable, 2025-01-01 is found as Año Nuevo in the local list |
| Actions.ActionKindAt | services/marcaje_service.py:79-82 | the punch is ENTRADA iff 5 <= hour < 12, and SALIDA otherwise; never MARCAJE |
| LegacyMarcaje.ProcessRut | services/marcaje_service.py:28-65 | each RUT gets exactly one notice; a RUT is skipped, with only an exception notice and no delay, iff it is on the skip-list; otherwise the punch kind follows the hour; the notice is a success iff in debug mode or the punch succeeded, and else an error labelled MARCAJE; debug mode draws no delay; otherwise the RUT is registered with its drawn delay |
| LegacyMarcaje.ListedRutIsSkipped | services/marcaje_service.py:33-38 | a RUT on the skip-list in any letter case is skipped with one exception notice |
| LegacyMarcaje.DebugNeverFails | services/marcaje_service.py:69-94 | in debug mode every RUT not on the skip-list gets a success notice whatever the browser would do |
| EnhancedMarcaje.NewService | services/enhanced_marcaje_service.py:28-38 | the breaker threshold comes from the execution configuration, else 3; the service starts with a fresh metrics collector |
| EnhancedMarcaje.MaxAttemptsOf | services/enhanced_marcaje_service.py:57 | the attempt budget is retry_attempts + 1, or 1 without an execution configuration |
| EnhancedMarcaje.AttemptCount | services/enhanced_marcaje_service.py:59-90 | the loop stops at the first successful attempt or at the end of the budget; every earlier attempt failed; it succeeds iff some attempt within the budget would; debug mode stops after one attempt |
| EnhancedMarcaje.DrawDelays | services/enhanced_marcaje_service.py:137-148 | n attempts draw n delays; the RUT ends up registered with the last one; the coincidence count rises by at most n |
| EnhancedMarcaje.DrawnDelaysInRange | utils/delay_manager.py:22 | every delay drawn for the attempts is in [1,20] when the source is |
| EnhancedMarcaje.AttemptsOf | services/enhanced_marcaje_service.py:94-135 | attempt i carries the kind of the hour read before it, its outcome, and its delay outside debug mode |
| EnhancedMarcaje.ProcessRut | services/enhanced_marcaje_service.py:40-92 | a RUT is refused iff the breaker is OPEN within its timeout, and then nothing changes; a success implies the RUT was admitted and made an attempt; at most the budgeted attempts are made; exactly one notice follows any attempt |
| EnhancedMarcaje.AdmittedRutAccounting | services/enhanced_marcaje_service.py:54-90 | an admitted RUT counts as started; a success closes the breaker through `RecordSuccess` on the admitted breaker, keeping its failure stamp, and records success and duration; only the final failure is recorded, once on the breaker and once as an error, with one error notice labelled MARCAJE |
| EnhancedMarcaje.AttemptsFollowRetryLoop | services/enhanced_marcaje_service.py:59-90 | every attempt but the last failed; a failed last attempt used the whole budget; each attempt re-reads the hour for its kind; an admitted RUT with a positive budget makes at least one attempt |
| EnhancedMarcaje.BackoffsBetweenAttempts | services/enhanced_marcaje_service.py:80-84 | there is one back-off fewer than attempts, each of retry_delay_seconds |
| EnhancedMarcaje.SuccessIffSomeAttemptSucceeds | services/enhanced_marcaje_service.py:59-73 | outside debug mode an admitted RUT succeeds iff some punch within the budget succeeds |
| EnhancedMarcaje.AttemptsCarryDrawnDelays | services/enhanced_marcaje_service.py:137-145 | outside debug mode the attempts' delays are, in order, the values of one delay request per attempt |
| EnhancedMarcaje.DelaysPerAttempt | services/enhanced_marcaje_service.py:137-148 | outside debug mode every attempt draws a delay and the RUT ends registered with the last; in debug mode, or with no attempt, nothing is drawn |
| EnhancedMarcaje.DelaysCounted | services/enhanced_marcaje_service.py:144 | the delays-applied counter rises by the number of attempts outside debug mode, and not at all in debug mode |
| EnhancedMarcaje.DelaysInRange | services/enhanced_marcaje_service.py:140 | every attempt's delay is between 1 and 20 minutes when the source is |
| EnhancedMarcaje.DebugSucceedsAtOnce | services/enhanced_marcaje_service.py:139-165 | in debug mode an admitted RUT succeeds at its first attempt without drawing a delay |
| EnhancedMarcaje.ProcessRutKeepsBreakerInvariant | services/enhanced_marcaje_service.py:47-87 | processing a RUT keeps the breaker invariant: a breaker that is not CLOSED has reached its threshold and has a failure stamp |
| EnhancedMarcaje.ProcessRutKeepsMetricsConsistent | services/enhanced_marcaje_service.py:54-88 | successes plus errors never exceed the RUTs started |
| EnhancedMarcaje.NoRetryWithoutConfig | services/enhanced_marcaje_service.py:57-80 | without an execution configuration an admitted RUT makes exactly one attempt and no back-off |
| EnhancedMarcaje.PersistentFailureExhaustsRetries | services/enhanced_marcaje_service.py:59-90 | a RUT whose every punch fails uses the whole budget with the configured back-offs, sends one error notice and adds one breaker failure |
| Run.CountOk | main.py:144-150 | the success count lies in [0, n]; it is n iff every call returned true and 0 iff none did |
| Run.SequentialRun | main.py:147-148 | one result per RUT; the service keeps its mode and configuration |
| Run.SequentialRunPrefix | main.py:147-148 | RUTs are processed strictly in list order: the first i results do not depend on later RUTs |
| Run.SequentialRunStep | main.py:147-148 | one more RUT adds exactly one `process_rut` call, made on the service the previous calls left |
| Run.CountOkAppend | main.py:148-149 | one more call adds one to the count iff it returned true |
| Run.ProcessRutsSequential | main.py:144-150 | the loop calls `process_rut` once per RUT in list order and returns the number of true results, at most the number of RUTs |
| Run.CountSuccesses | main.py:162-169 | the parallel count is at most the number of workers |
| Run.SuccessesAreMultiplicity | main.py:162-169 | the parallel count is the number of workers that returned true |
| Run.CompletionOrderIrrelevant | main.py:162 | the order in which workers complete does not change the count |
| Run.RaisedWorkerCountsAsFailure | main.py:164-169 | a worker that raised is not a success, and every other worker is still counted |
| Run.Submitted | main.py:159 | one future per RUT, in list order |
| Run.ProcessRutsParallel | main.py:153-172 | the loop over the completed futures counts exactly the workers that returned true |
| Run.ParallelCountsLikeSequential | main.py:144-172 | when the workers return the values of a list of calls, in any order, the parallel and sequential counts agree |
| Run.ReturnedCount | main.py:144-172 | counting returned values counts the true results |
| Run.FinalStatistics | main.py:175-200 | errors are total minus successes; the rate is successes*100/total, within [0,100] when successes do not exceed the total; coincidences come from the delay manager; the metrics summary is shown iff metrics are enabled; the breaker state and count are reported |
| Run.Main | main.py:58-141 | a run aborts iff the configuration fails; it is deactivated iff the configuration loads and CLOCK_IN_ACTIVE is off; it processes RUTs iff active and not a holiday; the thread pool is used iff there are at least two RUTs; on the thread pool the reported successes are the count of workers that returned true; with one RUT the successes are the true results of processing it on a fresh service, and the statistics are those of the service that processing leaves; successes never exceed the RUT count and errors are the remainder |
| Run.DeactivatedIgnoresCalendarAndRuts | main.py:75-78 | a deactivated run ends the same whatever the calendar says and whatever the RUTs would do |
| Run.HolidayProcessesNoRut | main.py:92-95 | on a holiday no RUT is processed: the outcome does not depend on the RUTs |
| Run.ParallelFlagIgnored | main.py:133-138 | changing PARALLEL_EXECUTION changes neither whether RUTs are processed nor which path is taken |
| Run.FailingRutIsRecorded | services/enhanced_marcaje_service.py:47-90 | a RUT whose punches all fail, on a CLOSED breaker, is admitted, returns false and adds exactly one failure |
| Run.FailingRunCountsFailures | services/enhanced_marcaje_service.py:36-87 | failing RUTs processed one after another are each admitted while the breaker is below its threshold, and each adds one failure; the last stamps the breaker, and reaching the threshold opens it |
| Run.TrippedBreakerRefusesNextRut | services/enhanced_marcaje_service.py:36-87 | after threshold failing RUTs from a fresh breaker, the next RUT within the reset timeout is refused: no attempt, no notice, and the breaker stays OPEN |

## Left out

- Browser automation is left out because it is a foreign library. This covers `_execute_real_marcaje`, `_navigate_with_retry`, `_get_chrome_options`, `_click_action_button`, `_enter_rut` and `_submit_form`. Each attempt's punch is an input outcome (done, or failed by timeout, driver error or anything else).
- SMTP sessions are left out. Each delivery is an input boolean; the password (`get_email_pass`) and the message subjects and bodies are not modelled.
- Holiday calendar: the HTTP request and its JSON decoding are left out. The calendar is the decoded response, or unreachable. Every decoded holiday entry is taken to carry a title and a type; an entry lacking either, which the source would fail on with a KeyError (services/holiday_service.py:28-29), is not modelled.
- The base64, JSON and `int()` decoding of environment variables are left out; the decoded value, or its failure, is an input. A non-numeric integer variable, which makes `int()` raise, is not modelled.
- Clock, timezone, `sleep` and `random.randint` are inputs. The model reads the clock in whole seconds, while the breaker compares fractional seconds (`total_seconds()`), so sub-second differences are not modelled. Sleeps are recorded as back-off values, not performed. The random draws are a stream, and "in range" is a stated assumption on it.
- Threads are left out. The thread pool is represented by what each worker returned, in completion order, and by the service state the workers left. The workers interleave inside one shared `process_rut` without locks, so that state is an input rather than derived. The metrics lock is not modelled, and neither are `max_workers` or the executor.
- `lower()` and `isdigit()` are left out for non-ASCII text: they are modelled on ASCII only. Python's versions also handle other Unicode letters and digits.
- Printed and logged text, `StructuredLogger`, `print_startup_info`, `print_advanced_debug_info`, `print_debug_info` and `_log_completion` are left out because they are output only.
- `get_state` is not a separate member: the breaker value is its own snapshot. The ISO formatting of the time is not modelled.
- The metrics `start_time` and `total_execution_time_seconds` are left out because they are clock readings.
- `get_thread_pool_executor` and `get_metrics_summary` are left out; they are accessors only.
- The fallback in `get_email_destinations` (config.py:158-160) is left out. It catches an exception that cannot arise once decoding is an input.
- `monitor.py`, `utils/enterprise_utils.py`, `__init__.py` and the manual test scripts are not part of this model.
- Run.ParallelFlagIgnored: only states that the flag does not change whether RUTs are processed or which path is taken. The statistics are not compared.
- Run.FinalStatistics: requires at least one RUT. The source divides by the RUT count, and `main` only reaches the statistics with one to ten RUTs.
- Run.Main: on the thread-pool path the service state after the workers is an input (`afterWorkers`), not derived from the workers' results.
