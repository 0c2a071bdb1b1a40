/** The notification service: which addresses a message goes to, and whether
    a send counts as successful. The SMTP session for each destination is an
    input: `smtp[i]` says whether the i-th delivery attempt went through. */
module Email {
  import opened Wrappers
  import opened Settings

  datatype EmailService = EmailService(emailFrom: string, config: Option<Config>, debugMode: bool)

  /** The address that receives everything: the configured main address, or
      the sender when the service has no configuration. */
  function MainAddress(svc: EmailService): string {
    if svc.config.Some? then GetEmailAddress(svc.config.value.env) else svc.emailFrom
  }

  /** `send_email`'s choice of destinations: debug mode first, then the RUT's
      destinations, then the explicit address, then the main address. */
  function Destinations(svc: EmailService, emailTo: Option<string>, rut: Option<string>): (r: seq<string>)
    ensures svc.debugMode ==> r == [MainAddress(svc)]
    ensures !svc.debugMode && Truthy(rut) && svc.config.Some? ==>
      r == GetEmailDestinations(svc.config.value, rut.value)
    ensures !svc.debugMode && !(Truthy(rut) && svc.config.Some?) && Truthy(emailTo) ==> r == [emailTo.value]
    ensures !svc.debugMode && !(Truthy(rut) && svc.config.Some?) && !Truthy(emailTo) ==> r == [MainAddress(svc)]
    ensures 1 <= |r| <= 2
  {
    if svc.debugMode then [MainAddress(svc)]
    else if Truthy(rut) && svc.config.Some? then GetEmailDestinations(svc.config.value, rut.value)
    else if Truthy(emailTo) then [emailTo.value]
    else [MainAddress(svc)]
  }

  /** One delivery attempt: the address and whether the SMTP session for it
      completed. */
  datatype Delivery = Delivery(to: string, delivered: bool)

  predicate AnyDelivered(ds: seq<Delivery>) {
    exists i :: 0 <= i < |ds| && ds[i].delivered
  }

  /** `success_count`: how many deliveries went through. */
  function SuccessCount(ds: seq<Delivery>): (n: nat)
    ensures n <= |ds|
    ensures n > 0 <==> AnyDelivered(ds)
  {
    if ds == [] then 0
    else
      var rest := SuccessCount(ds[1..]);
      assert AnyDelivered(ds[1..]) ==> AnyDelivered(ds) by {
        if AnyDelivered(ds[1..]) {
          var i :| 0 <= i < |ds[1..]| && ds[1..][i].delivered;
          assert ds[i + 1].delivered;
        }
      }
      (if ds[0].delivered then 1 else 0) + rest
  }

  /** Attempts every destination, in order, whatever happened to the
      previous ones. */
  function Deliver(dests: seq<string>, smtp: seq<bool>): (r: seq<Delivery>)
    requires |smtp| >= |dests|
    ensures |r| == |dests|
    ensures forall i :: 0 <= i < |r| ==> r[i] == Delivery(dests[i], smtp[i])
  {
    seq(|dests|, i requires 0 <= i < |dests| => Delivery(dests[i], smtp[i]))
  }

  datatype SendReport = SendReport(ok: bool, deliveries: seq<Delivery>)

  /** `send_email`: every chosen destination is attempted once, in order,
      and the send succeeds iff at least one delivery went through. */
  function SendEmail(svc: EmailService, emailTo: Option<string>, rut: Option<string>, smtp: seq<bool>): (r: SendReport)
    requires |smtp| >= |Destinations(svc, emailTo, rut)|
    ensures |r.deliveries| == |Destinations(svc, emailTo, rut)|
    ensures forall i :: 0 <= i < |r.deliveries| ==>
      r.deliveries[i].to == Destinations(svc, emailTo, rut)[i] && r.deliveries[i].delivered == smtp[i]
    ensures r.ok <==> exists i :: 0 <= i < |Destinations(svc, emailTo, rut)| && smtp[i]
  {
    var ds := Deliver(Destinations(svc, emailTo, rut), smtp);
    SendReport(SuccessCount(ds) > 0, ds)
  }

  /** The single destination `send_email` picks for an explicit address. */
  lemma ExplicitAddressHasOneDestination(svc: EmailService, to: string)
    ensures |Destinations(svc, Some(to), None)| == 1
    ensures !svc.debugMode && to != "" ==> Destinations(svc, Some(to), None) == [to]
  {
  }

  /** The addresses `send_holiday_email` walks through. */
  function HolidayDestinations(svc: EmailService): (r: seq<string>)
    ensures svc.debugMode ==> r == [MainAddress(svc)]
    ensures !svc.debugMode && svc.config.Some? ==> r == GetHolidayEmails(svc.config.value)
    ensures !svc.debugMode && svc.config.None? ==> r == [svc.emailFrom]
    ensures 1 <= |r| <= 2
  {
    if svc.debugMode then [MainAddress(svc)]
    else if svc.config.Some? then GetHolidayEmails(svc.config.value)
    else [svc.emailFrom]
  }

  /** Some outcome among the first `n` succeeded iff the first did or one
      among the next `n - 1` did. */
  lemma AnySplit(smtp: seq<bool>, n: nat)
    requires 1 <= n <= |smtp|
    ensures (exists i :: 0 <= i < n && smtp[i]) <==> smtp[0] || exists i :: 0 <= i < n - 1 && smtp[1..][i]
  {
    if exists i :: 0 <= i < n && smtp[i] {
      var i :| 0 <= i < n && smtp[i];
      if i > 0 {
        assert smtp[1..][i - 1];
      }
    }
    if exists i :: 0 <= i < n - 1 && smtp[1..][i] {
      var i :| 0 <= i < n - 1 && smtp[1..][i];
      assert smtp[i + 1];
    }
  }

  /** One `send_email(email_to=…)` call per address in `dests`, each
      consuming one SMTP outcome. */
  function SendEach(svc: EmailService, dests: seq<string>, smtp: seq<bool>): (r: SendReport)
    requires |smtp| >= |dests|
    ensures |r.deliveries| == |dests|
    ensures forall i :: 0 <= i < |dests| ==>
      r.deliveries[i] == Delivery(Destinations(svc, Some(dests[i]), None)[0], smtp[i])
    ensures r.ok <==> exists i :: 0 <= i < |dests| && smtp[i]
    decreases |dests|
  {
    if dests == [] then SendReport(false, [])
    else
      var first := SendEmail(svc, Some(dests[0]), None, smtp[..1]);
      var rest := SendEach(svc, dests[1..], smtp[1..]);
      AnySplit(smtp, |dests|);
      SendReport(first.ok || rest.ok, first.deliveries + rest.deliveries)
  }

  /** `send_holiday_email`: one `send_email` per holiday address; succeeds
      iff any of them succeeded. */
  function SendHolidayEmail(svc: EmailService, smtp: seq<bool>): (r: SendReport)
    requires |smtp| >= |HolidayDestinations(svc)|
    ensures |r.deliveries| == |HolidayDestinations(svc)|
    ensures r.ok <==> exists i :: 0 <= i < |HolidayDestinations(svc)| && smtp[i]
    ensures svc.debugMode ==> forall i :: 0 <= i < |r.deliveries| ==> r.deliveries[i].to == MainAddress(svc)
    ensures !svc.debugMode && svc.config.Some? ==>
      forall i :: 0 <= i < |r.deliveries| ==> r.deliveries[i].to == GetHolidayEmails(svc.config.value)[i]
  {
    var dests := HolidayDestinations(svc);
    var r := SendEach(svc, dests, smtp);
    assert !svc.debugMode && svc.config.Some? ==>
      forall i :: 0 <= i < |dests| ==> Destinations(svc, Some(dests[i]), None)[0] == dests[i] by {
      if !svc.debugMode && svc.config.Some? {
        forall i | 0 <= i < |dests| ensures Destinations(svc, Some(dests[i]), None)[0] == dests[i] {
          if dests[i] == "" {
            assert i == 0;
          }
        }
      }
    }
    r
  }

  /** The kinds of per-RUT notification; each wrapper differs only in the
      subject and body, which are not modelled. */
  datatype NoticeKind = ExceptionKind | SuccessKind | ErrorKind

  /** `send_exception_email` / `send_success_email` / `send_error_email`:
      exactly one `send_email` call, with the unmasked RUT. */
  function SendNotice(svc: EmailService, kind: NoticeKind, rut: string, smtp: seq<bool>): (r: SendReport)
    requires |smtp| >= 2
    ensures 1 <= |r.deliveries| <= 2
    ensures svc.debugMode ==> |r.deliveries| == 1 && r.deliveries[0].to == MainAddress(svc)
    ensures !svc.debugMode && rut != "" && svc.config.Some? ==>
      |r.deliveries| == |GetEmailDestinations(svc.config.value, rut)|
      && forall i :: 0 <= i < |r.deliveries| ==> r.deliveries[i].to == GetEmailDestinations(svc.config.value, rut)[i]
    ensures r.ok <==> exists i :: 0 <= i < |r.deliveries| && smtp[i]
  {
    SendEmail(svc, None, Some(rut), smtp)
  }
}
