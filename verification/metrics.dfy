/** The metrics collector: per-event counters and a summary that guards its
    divisions. Durations are real numbers of seconds. */
module Metrics {

  datatype Metrics = Metrics(
    rutsProcessed: nat,
    successes: nat,
    errors: nat,
    totalDuration: real,
    delaysApplied: nat)

  /** A new collector: every counter at zero. */
  const Fresh: Metrics := Metrics(0, 0, 0, 0.0, 0)

  function RecordRutStart(m: Metrics): Metrics {
    m.(rutsProcessed := m.rutsProcessed + 1)
  }

  function RecordSuccess(m: Metrics, durationSeconds: real): Metrics {
    m.(successes := m.successes + 1, totalDuration := m.totalDuration + durationSeconds)
  }

  function RecordError(m: Metrics): Metrics {
    m.(errors := m.errors + 1)
  }

  function RecordDelayApplied(m: Metrics): Metrics {
    m.(delaysApplied := m.delaysApplied + 1)
  }

  /** One call of a `record_*` method. */
  datatype MetricEvent = RutStarted | Succeeded(durationSeconds: real) | Errored | DelayApplied

  function Apply(m: Metrics, e: MetricEvent): Metrics {
    match e
    case RutStarted => RecordRutStart(m)
    case Succeeded(d) => RecordSuccess(m, d)
    case Errored => RecordError(m)
    case DelayApplied => RecordDelayApplied(m)
  }

  /** The collector after the calls `events`, in order. */
  function Replay(m: Metrics, events: seq<MetricEvent>): Metrics
    decreases |events|
  {
    if events == [] then m else Replay(Apply(m, events[0]), events[1..])
  }

  /** Which counter an event moves. */
  datatype Counter = RutsProcessed | Successes | Errors | DelaysApplied

  function CounterOf(e: MetricEvent): Counter {
    match e
    case RutStarted => RutsProcessed
    case Succeeded(_) => Successes
    case Errored => Errors
    case DelayApplied => DelaysApplied
  }

  /** How many of `events` move counter `c`. */
  function Count(events: seq<MetricEvent>, c: Counter): (n: nat)
    ensures n <= |events|
  {
    if events == [] then 0 else (if CounterOf(events[0]) == c then 1 else 0) + Count(events[1..], c)
  }

  function DurationSum(events: seq<MetricEvent>): real {
    if events == [] then 0.0
    else (if events[0].Succeeded? then events[0].durationSeconds else 0.0) + DurationSum(events[1..])
  }

  /** Each counter moves by exactly the number of calls of its own `record_*`
      method, and the total duration by the sum of the recorded durations. */
  lemma {:induction false} ReplayCounts(m: Metrics, events: seq<MetricEvent>)
    ensures Replay(m, events) == Metrics(
      m.rutsProcessed + Count(events, RutsProcessed),
      m.successes + Count(events, Successes),
      m.errors + Count(events, Errors),
      m.totalDuration + DurationSum(events),
      m.delaysApplied + Count(events, DelaysApplied))
    decreases |events|
  {
    if events != [] {
      ReplayCounts(Apply(m, events[0]), events[1..]);
    }
  }

  /** The counters never decrease. */
  lemma {:induction false} ReplayMonotone(m: Metrics, events: seq<MetricEvent>)
    ensures var m' := Replay(m, events);
      && m.rutsProcessed <= m'.rutsProcessed
      && m.successes <= m'.successes
      && m.errors <= m'.errors
      && m.delaysApplied <= m'.delaysApplied
  {
    ReplayCounts(m, events);
  }

  datatype Summary = Summary(
    rutsProcessed: nat,
    successes: nat,
    errors: nat,
    successRate: real,
    averageDurationSeconds: real,
    delaysApplied: nat)

  /** `get_summary`: the average duration and the success rate are 0 when
      their divisor is 0, and the quotient otherwise. */
  function GetSummary(m: Metrics): (s: Summary)
    ensures s.successes == 0 ==> s.averageDurationSeconds == 0.0
    ensures s.successes > 0 ==> s.averageDurationSeconds * s.successes as real == m.totalDuration
    ensures s.rutsProcessed == 0 ==> s.successRate == 0.0
    ensures s.rutsProcessed > 0 ==> s.successRate * s.rutsProcessed as real == m.successes as real
    ensures m.successes <= m.rutsProcessed ==> 0.0 <= s.successRate <= 1.0
    ensures s.rutsProcessed == m.rutsProcessed && s.successes == m.successes && s.errors == m.errors
    ensures s.delaysApplied == m.delaysApplied
  {
    var average := if m.successes > 0 then m.totalDuration / m.successes as real else 0.0;
    var rate := if m.rutsProcessed > 0 then m.successes as real / m.rutsProcessed as real else 0.0;
    Summary(m.rutsProcessed, m.successes, m.errors, rate, average, m.delaysApplied)
  }
}
