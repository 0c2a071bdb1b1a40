/** What both clock-in services share: the kind of punch, the outcome of one
    browser session, the notifications a RUT produces, and the per-RUT
    readings of the outside world (clock and browser). */
module Actions {
  import opened Wrappers

  /** "ENTRADA", "SALIDA", and "MARCAJE" (the label error notices carry when
      the kind is not known). */
  datatype ActionType = Entrada | Salida | Marcaje

  /** `_determine_action_type`: ENTRADA from 05:00 up to (not including)
      12:00 Chilean time, SALIDA at every other hour. */
  function ActionKindAt(hour: int): (a: ActionType)
    ensures a == Entrada <==> 5 <= hour < 12
    ensures a != Marcaje
  {
    if 5 <= hour < 12 then Entrada else Salida
  }

  /** Where one ENTRADA/SALIDA punch can fail: the page timed out, the driver
      failed, or anything else (a missing button or digit key). */
  datatype Failure = Timeout | DriverError | Unexpected

  datatype Outcome = Done | Failed(failure: Failure)

  /** One notification e-mail, addressed by the unmasked RUT. */
  datatype Notice =
    | ExceptionNotice(rut: string)
    | SuccessNotice(rut: string, action: ActionType)
    | ErrorNotice(rut: string, action: ActionType)

  /** What the outside world does while one RUT is processed: the Chilean
      hour read before attempt `k`, the outcome of the browser session of
      attempt `k`, the clock readings taken by the breaker before the first
      attempt and after the last failure, and the elapsed seconds reported on
      success. */
  datatype RutEnv = RutEnv(
    hour: nat -> int,
    act: nat -> Outcome,
    gateTime: int,
    failTime: int,
    elapsed: real)

  /** One attempt: the delay drawn before it (None in debug mode, where no
      delay is requested), the punch kind and the outcome (always Done in
      debug mode, where the browser is never opened). */
  datatype Attempt = Attempt(delay: Option<int>, action: ActionType, outcome: Outcome)
}
