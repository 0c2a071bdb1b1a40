/** The original single-attempt clock-in service: the exception list, one
    random delay, one punch and exactly one notification per RUT. The random
    source and the readings of the outside world are inputs. */
module LegacyMarcaje {
  import opened Wrappers
  import opened Text
  import opened RutValidator
  import opened Delays
  import opened Actions

  datatype LegacyService = LegacyService(delays: DelayManager, debug: bool)

  /** What processing one RUT did: the notices sent, the attempt made (None
      when the RUT was skipped as an exception), the delay manager afterwards
      and the random-source cursor afterwards. */
  datatype LegacyReport = LegacyReport(
    notices: seq<Notice>,
    attempt: Option<Attempt>,
    delays: DelayManager,
    next: nat)

  /** The punch of an attempt that was not skipped: debug mode simulates it
      and never opens the browser. */
  function PunchOutcome(debug: bool, env: RutEnv): Outcome {
    if debug then Done else env.act(0)
  }

  /** `process_rut`: an exception RUT gets one exception notice and nothing
      else; any other RUT draws a delay (outside debug mode), punches the kind
      of the current hour and gets a success notice, or an error notice
      labelled MARCAJE when the punch failed. */
  function ProcessRut(svc: LegacyService, rut: string, exceptions: seq<string>, env: RutEnv,
                      draw: RandomSource, pos: nat): (r: LegacyReport)
    ensures |r.notices| == 1 && r.notices[0].rut == rut
    ensures r.attempt.None? <==> IsRutException(rut, exceptions)
    ensures r.attempt.None? ==> r.notices == [ExceptionNotice(rut)] && r.delays == svc.delays && r.next == pos
    ensures r.attempt.Some? ==> r.attempt.value.action == ActionKindAt(env.hour(0))
    ensures r.attempt.Some? ==>
      (r.notices == [SuccessNotice(rut, r.attempt.value.action)] <==> svc.debug || env.act(0).Done?)
    ensures r.attempt.Some? && !svc.debug && env.act(0).Failed? ==> r.notices == [ErrorNotice(rut, Marcaje)]
    ensures svc.debug ==> r.delays == svc.delays && r.next == pos
    ensures svc.debug && r.attempt.Some? ==> r.attempt.value.delay.None?
    ensures !svc.debug && r.attempt.Some? ==>
      && r.attempt.value.delay.Some?
      && r.delays.registry == svc.delays.registry[rut := r.attempt.value.delay.value]
      && pos < r.next <= pos + MaxAttempts
      && (DrawsInRange(draw, pos) ==> MinDelay <= r.attempt.value.delay.value <= MaxDelay)
  {
    if IsRutException(rut, exceptions) then
      LegacyReport([ExceptionNotice(rut)], None, svc.delays, pos)
    else
      var (delay, delays, next) :=
        if svc.debug then (None, svc.delays, pos)
        else
          var a := GetRandomDelay(svc.delays, rut, draw, pos);
          (Some(a.delay), a.manager, a.next);
      var action := ActionKindAt(env.hour(0));
      var outcome := PunchOutcome(svc.debug, env);
      var notice := if outcome.Done? then SuccessNotice(rut, action) else ErrorNotice(rut, Marcaje);
      LegacyReport([notice], Some(Attempt(delay, action, outcome)), delays, next)
  }

  /** A RUT listed in any letter case is skipped without drawing a delay. */
  lemma ListedRutIsSkipped(svc: LegacyService, rut: string, exceptions: seq<string>, env: RutEnv,
                           draw: RandomSource, pos: nat)
    requires Lower(rut) in LowerAll(exceptions)
    ensures ProcessRut(svc, rut, exceptions, env, draw, pos)
      == LegacyReport([ExceptionNotice(rut)], None, svc.delays, pos)
  {
  }

  /** In debug mode every RUT that is not an exception is reported as a
      success, whatever the browser would have done. */
  lemma DebugNeverFails(svc: LegacyService, rut: string, exceptions: seq<string>, env: RutEnv,
                        draw: RandomSource, pos: nat)
    requires svc.debug && !IsRutException(rut, exceptions)
    ensures ProcessRut(svc, rut, exceptions, env, draw, pos).notices
      == [SuccessNotice(rut, ActionKindAt(env.hour(0)))]
  {
  }
}
