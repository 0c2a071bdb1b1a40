/** The holiday check: the online calendar first, the built-in 2025 list as the
    fallback, and one holiday notice when today is a holiday. The HTTP call
    and its JSON decoding are represented by their outcome. */
module Holidays {
  import opened Wrappers

  datatype Holiday = Holiday(date: string, title: string, kind: string)

  /** The decoded JSON body of a 200 response (its `status` and `data`). */
  datatype ApiPayload = ApiPayload(status: string, data: seq<Holiday>)

  /** What the HTTP request produced: an exception (timeout, connection
      error), or a status code with the body, None when the body could not be
      decoded or lacked a field. */
  datatype ApiResponse = Unreachable | Response(statusCode: int, payload: Option<ApiPayload>)

  const ChileHolidays2025: seq<Holiday> := [
    Holiday("2025-01-01", "Año Nuevo", "Civil"),
    Holiday("2025-04-18", "Viernes Santo", "Religioso"),
    Holiday("2025-04-19", "Sábado Santo", "Religioso"),
    Holiday("2025-05-01", "Día Nacional del Trabajo", "Civil"),
    Holiday("2025-05-21", "Día de las Glorias Navales", "Civil"),
    Holiday("2025-06-29", "San Pedro y San Pablo", "Religioso"),
    Holiday("2025-07-16", "Día de la Virgen del Carmen", "Religioso"),
    Holiday("2025-08-15", "Asunción de la Virgen", "Religioso"),
    Holiday("2025-09-18", "Independencia Nacional", "Civil"),
    Holiday("2025-09-19", "Día de las Glorias del Ejército", "Civil"),
    Holiday("2025-12-08", "Inmaculada Concepción", "Religioso"),
    Holiday("2025-12-25", "Navidad", "Religioso")
  ]

  predicate ListsDate(hs: seq<Holiday>, today: string) {
    exists i :: 0 <= i < |hs| && hs[i].date == today
  }

  /** `next((h for h in hs if h['date'] == today), None)`: the first entry
      dated today. */
  function FirstOnDate(hs: seq<Holiday>, today: string): (r: Option<Holiday>)
    ensures r.None? <==> !ListsDate(hs, today)
    ensures r.Some? ==> r.value.date == today
    ensures r.Some? ==>
      (exists i :: 0 <= i < |hs| && hs[i] == r.value && forall j :: 0 <= j < i ==> hs[j].date != today)
  {
    if hs == [] then None
    else if hs[0].date == today then Some(hs[0])
    else
      var r := FirstOnDate(hs[1..], today);
      assert ListsDate(hs[1..], today) <==> ListsDate(hs, today) by {
        if ListsDate(hs, today) {
          var i :| 0 <= i < |hs| && hs[i].date == today;
          assert hs[1..][i - 1].date == today;
        }
      }
      if r.Some? then
        var i :| 0 <= i < |hs[1..]| && hs[1..][i] == r.value && forall j :: 0 <= j < i ==> hs[1..][j].date != today;
        assert hs[i + 1] == r.value;
        assert forall j :: 0 <= j < i + 1 ==> hs[j].date != today by {
          forall j | 0 <= j < i + 1 ensures hs[j].date != today {
            if j > 0 { assert hs[j] == hs[1..][j - 1]; }
          }
        }
        r
      else r
  }

  /** Conversely, the entry at `k` is the one found when it is dated today
      and none before it is. */
  lemma {:induction false} FirstMatchIsFound(hs: seq<Holiday>, k: nat, today: string)
    requires k < |hs| && hs[k].date == today
    requires forall j :: 0 <= j < k ==> hs[j].date != today
    ensures FirstOnDate(hs, today) == Some(hs[k])
    decreases k
  {
    if k > 0 {
      FirstMatchIsFound(hs[1..], k - 1, today);
    }
  }

  /** `_check_online_api`: the holiday listed for today by a successful
      response; None for any failure and for an explicit "not a holiday". */
  function CheckOnlineApi(resp: ApiResponse, today: string): (r: Option<Holiday>)
    ensures r.Some? <==>
      resp.Response? && resp.statusCode == 200 && resp.payload.Some?
      && resp.payload.value.status == "success" && ListsDate(resp.payload.value.data, today)
    ensures r.Some? ==> r == FirstOnDate(resp.payload.value.data, today) && r.value.date == today
  {
    match resp
    case Unreachable => None
    case Response(code, payload) =>
      if code != 200 then None
      else if payload.None? then None
      else if payload.value.status != "success" then None
      else FirstOnDate(payload.value.data, today)
  }

  /** `_check_local_holidays`: the first entry of the built-in list dated today. */
  function CheckLocalHolidays(today: string): (r: Option<Holiday>)
    ensures r.None? <==> !ListsDate(ChileHolidays2025, today)
    ensures r.Some? ==> r.value.date == today && r.value in ChileHolidays2025
  {
    FirstOnDate(ChileHolidays2025, today)
  }

  datatype HolidaySource = Api | Local

  /** The holiday notices sent (`send_holiday_email` calls), with the source
      that found the holiday. */
  datatype HolidayCheck = HolidayCheck(isHoliday: bool, notices: seq<(Holiday, HolidaySource)>)

  /** `is_holiday`: the online result takes precedence; the local list is
      consulted only when it found nothing; exactly one notice iff holiday. */
  function IsHoliday(resp: ApiResponse, today: string): (r: HolidayCheck)
    ensures r.isHoliday <==> CheckOnlineApi(resp, today).Some? || ListsDate(ChileHolidays2025, today)
    ensures |r.notices| == (if r.isHoliday then 1 else 0)
    ensures CheckOnlineApi(resp, today).Some? ==> r.notices == [(CheckOnlineApi(resp, today).value, Api)]
    ensures CheckOnlineApi(resp, today).None? && r.isHoliday ==>
      r.notices == [(CheckLocalHolidays(today).value, Local)]
    ensures r.isHoliday ==> r.notices[0].0.date == today
  {
    match CheckOnlineApi(resp, today)
    case Some(h) => HolidayCheck(true, [(h, Api)])
    case None =>
      match CheckLocalHolidays(today)
      case Some(h) => HolidayCheck(true, [(h, Local)])
      case None => HolidayCheck(false, [])
  }

  /** A response that lists no holiday for today does not end the search: the
      local list still decides, exactly as if the calendar were unreachable. */
  lemma NegativeAnswerFallsBack(data: seq<Holiday>, today: string)
    requires !ListsDate(data, today)
    ensures IsHoliday(Response(200, Some(ApiPayload("success", data))), today) == IsHoliday(Unreachable, today)
  {
  }

  /** With the calendar unreachable, New Year's Day 2025 is found locally. */
  lemma NewYearFoundLocally()
    ensures IsHoliday(Unreachable, "2025-01-01")
      == HolidayCheck(true, [(Holiday("2025-01-01", "Año Nuevo", "Civil"), Local)])
  {
    FirstMatchIsFound(ChileHolidays2025, 0, "2025-01-01");
  }
}
