/** The base configuration: boolean flags, the active RUT list and the
    notification addresses. Environment variables are inputs; base64 and JSON
    decoding are represented by their outcomes, supplied beside the raw text. */
module Settings {
  import opened Wrappers
  import opened Text

  const DebugAddress: string := "debug@test.com"

  /** Python truthiness of an optional string: set and non-empty. */
  predicate Truthy(v: Option<string>) {
    v.Some? && v.value != ""
  }

  /** A base64-encoded variable: its raw value (None when unset) and what
      decoding that value yields (None when decoding raises). */
  datatype Encoded = Encoded(raw: Option<string>, decoded: Option<string>)

  /** A RUT-list variable: its raw value and what decoding and JSON-parsing it
      yields, every element already converted with `str` (None when either
      step raises). */
  datatype RutList = RutList(raw: Option<string>, parsed: Option<seq<string>>)

  datatype Environment = Environment(
    clockInActive: Option<string>,
    debugMode: Option<string>,
    emailAddressB64: Encoded,
    emailAddress: Option<string>,
    activeRutsB64: RutList,
    activeRuts: RutList,
    specialEmail: Encoded,
    defaultEmail: Encoded,
    specialRut: Encoded)

  /** Fatal configuration errors (each one ends the process). */
  datatype ConfigError =
    | RutsNotConfigured
    | RutsUnreadable
    | NoActiveRuts
    | MaxWorkersOutOfRange
    | RetryAttemptsOutOfRange
    | RetryDelayOutOfRange
    | TooManyRuts

  /** `DEBUG_MODE` / `CLOCK_IN_ACTIVE`: true iff the raw value lower-cases to
      "true"; unset or empty gives false. */
  function FlagValue(raw: Option<string>): (b: bool)
    ensures b <==> raw.Some? && Lower(raw.value) == "true"
    ensures !Truthy(raw) ==> !b
  {
    if Truthy(raw) then Lower(raw.value) == "true" else false
  }

  /** `_process_ruts`: the base64 variable wins when set; a failed decode or
      parse of the chosen source, or no source at all, is fatal. */
  function ProcessRuts(b64: RutList, plain: RutList): (r: Result<seq<string>, ConfigError>)
    ensures Truthy(b64.raw) ==>
      r == (if b64.parsed.Some? then Ok(b64.parsed.value) else Err(RutsUnreadable))
    ensures !Truthy(b64.raw) && Truthy(plain.raw) ==>
      r == (if plain.parsed.Some? then Ok(plain.parsed.value) else Err(RutsUnreadable))
    ensures r == Err(RutsNotConfigured) <==> !Truthy(b64.raw) && !Truthy(plain.raw)
  {
    var source := if Truthy(b64.raw) then b64.raw else plain.raw;
    if !Truthy(source) then Err(RutsNotConfigured)
    else
      var chosen := if Truthy(b64.raw) then b64 else plain;
      match chosen.parsed
      case None => Err(RutsUnreadable)
      case Some(ruts) => Ok(ruts)
  }

  /** `_validate_configuration`: an empty RUT list is fatal. */
  function ValidateConfiguration(ruts: seq<string>): (r: Result<seq<string>, ConfigError>)
    ensures r.Ok? <==> ruts != []
    ensures r.Ok? ==> r.value == ruts
    ensures r.Err? ==> r.error == NoActiveRuts
  {
    if ruts == [] then Err(NoActiveRuts) else Ok(ruts)
  }

  datatype Config = Config(env: Environment, debugMode: bool, clockInActive: bool, activeRuts: seq<string>)

  /** `Config()`: parse the flags, load and validate the RUT list. */
  function LoadConfig(env: Environment): (r: Result<Config, ConfigError>)
    ensures r.Ok? ==> r.value.activeRuts != [] && r.value.env == env
    ensures r.Ok? ==> r.value.debugMode == FlagValue(env.debugMode)
    ensures r.Ok? ==> r.value.clockInActive == FlagValue(env.clockInActive)
    ensures r.Ok? <==>
      (ProcessRuts(env.activeRutsB64, env.activeRuts).Ok? && ProcessRuts(env.activeRutsB64, env.activeRuts).value != [])
    ensures r.Ok? ==> r.value.activeRuts == ProcessRuts(env.activeRutsB64, env.activeRuts).value
    ensures r.Err? ==> (r.error ==
      if ProcessRuts(env.activeRutsB64, env.activeRuts).Err? then ProcessRuts(env.activeRutsB64, env.activeRuts).error
      else NoActiveRuts)
  {
    var debug := FlagValue(env.debugMode);
    var active := FlagValue(env.clockInActive);
    match ProcessRuts(env.activeRutsB64, env.activeRuts)
    case Err(e) => Err(e)
    case Ok(ruts) =>
      match ValidateConfiguration(ruts)
      case Err(e) => Err(e)
      case Ok(valid) => Ok(Config(env, debug, active, valid))
  }

  /** `get_special_rut` / `get_special_email` / `get_default_email`: the decoded
      value when the variable is set, None when it is unset or undecodable. */
  function GetDecoded(v: Encoded): (r: Option<string>)
    ensures r.Some? <==> Truthy(v.raw) && v.decoded.Some?
    ensures r.Some? ==> r == v.decoded
  {
    if Truthy(v.raw) then v.decoded else None
  }

  /** `get_email_address`: the decoded base64 address, else the legacy plain
      variable, else the debug address. */
  function GetEmailAddress(env: Environment): (r: string)
    ensures GetDecoded(env.emailAddressB64).Some? ==> r == GetDecoded(env.emailAddressB64).value
    ensures GetDecoded(env.emailAddressB64).None? && Truthy(env.emailAddress) ==> r == env.emailAddress.value
    ensures GetDecoded(env.emailAddressB64).None? && !Truthy(env.emailAddress) ==> r == DebugAddress
    ensures r == "" ==> GetDecoded(env.emailAddressB64) == Some("")
  {
    match GetDecoded(env.emailAddressB64)
    case Some(address) => address
    case None => if Truthy(env.emailAddress) then env.emailAddress.value else DebugAddress
  }

  /** The comparison key for RUTs: lower-cased, trailing 'k's stripped. */
  function RutKey(rut: string): string {
    StripTrailingK(Lower(rut))
  }

  /** Whether notifications about `rut` also go to the special address. */
  predicate IsSpecialRut(env: Environment, rut: string) {
    var special := GetDecoded(env.specialRut);
    Truthy(special) && RutKey(rut) == RutKey(special.value) && Truthy(GetDecoded(env.specialEmail))
  }

  /** `get_email_destinations`: the main address first, then the special
      address when `rut` is the special RUT and a special address is set. */
  function GetEmailDestinations(c: Config, rut: string): (r: seq<string>)
    ensures 1 <= |r| <= 2
    ensures r[0] == GetEmailAddress(c.env)
    ensures |r| == 2 <==> IsSpecialRut(c.env, rut)
    ensures |r| == 2 ==> r[1] == GetDecoded(c.env.specialEmail).value && r[1] != ""
  {
    var main := GetEmailAddress(c.env);
    var special := GetDecoded(c.env.specialRut);
    var specialEmail := GetDecoded(c.env.specialEmail);
    if Truthy(special) && RutKey(rut) == RutKey(special.value) && Truthy(specialEmail)
    then [main, specialEmail.value]
    else [main]
  }

  /** The destinations ignore letter case ... */
  lemma DestinationsIgnoreCase(c: Config, a: string, b: string)
    requires Lower(a) == Lower(b)
    ensures GetEmailDestinations(c, a) == GetEmailDestinations(c, b)
  {
  }

  /** ... and trailing check letters 'k' or 'K'. */
  lemma DestinationsIgnoreTrailingK(c: Config, rut: string)
    ensures GetEmailDestinations(c, rut + "k") == GetEmailDestinations(c, rut)
    ensures GetEmailDestinations(c, rut + "K") == GetEmailDestinations(c, rut)
  {
    LowerAppend(rut, "k");
    LowerAppend(rut, "K");
    assert Lower("K") == "k";
    assert Lower("k") == "k";
    var l := Lower(rut);
    assert (l + "k")[..|l + "k"| - 1] == l;
  }

  /** `get_holiday_emails`: the main address, then the special address when set. */
  function GetHolidayEmails(c: Config): (r: seq<string>)
    ensures 1 <= |r| <= 2 && r[0] == GetEmailAddress(c.env)
    ensures |r| == 2 <==> Truthy(GetDecoded(c.env.specialEmail))
    ensures |r| == 2 ==> r[1] == GetDecoded(c.env.specialEmail).value
  {
    var main := GetEmailAddress(c.env);
    var special := GetDecoded(c.env.specialEmail);
    if Truthy(special) then [main, special.value] else [main]
  }

  /** Every per-RUT destination list is a prefix of the holiday list: nobody
      receives a RUT notification who would not receive a holiday notice. */
  lemma DestinationsWithinHolidayEmails(c: Config, rut: string)
    ensures var d := GetEmailDestinations(c, rut);
      |d| <= |GetHolidayEmails(c)| && d == GetHolidayEmails(c)[..|d|]
  {
  }
}
