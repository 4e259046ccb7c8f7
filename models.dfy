/**
 * The `EventRecord` model of event_sync/models.py: the field validators, each mapping a raw value to
 * a normalised one or a validation error, and record construction, which runs every validator and
 * fails with the list of failing fields.
 */
module Models {
  import opened Wrappers
  import opened Text
  import opened Utils

  /** VALID_REGISTRATION_TYPES. */
  const ValidRegistrationTypes: set<string> := {"RSVP", "TICKETING", "EXTERNAL", "NO_REGISTRATION"}

  // ----- validate_dates -----

  /**
   * `validate_dates`: a missing, non-string or blank value is an error; otherwise the stripped
   * value converted to ISO form. `None` stands for both Python `None` and a value that is not a string.
   */
  function ValidateDate(value: Option<string>): (r: Result<string, string>)
    ensures r.Ok? <==> value.Some? && ConvertDateToIso(Strip(value.value)).Ok?
    ensures r.Ok? ==> IsIsoShape(r.value) && r == ConvertDateToIso(Strip(value.value))
  {
    if value.None? || IsBlank(value.value) then
      ConvertDateFails("");
      SplitNone("", '/');
      SplitNone("", '-');
      Err("Date value is required")
    else ConvertDateToIso(Strip(value.value))
  }

  /** An ISO-shaped string has nothing to strip. */
  lemma IsoShapeUnstripped(s: string)
    requires IsIsoShape(s)
    ensures Strip(s) == s && !IsBlank(s)
  {
    assert IsDigit(s[0]) && IsDigit(s[9]);
    StripUnchanged(s);
  }

  /** A stored date validates to itself. */
  lemma ValidateDateFixedPoint(value: Option<string>)
    requires ValidateDate(value).Ok?
    ensures ValidateDate(Some(ValidateDate(value).value)) == ValidateDate(value)
  {
    var iso := ValidateDate(value).value;
    IsoShapeUnstripped(iso);
    ConvertDateIdempotent(Strip(value.value));
  }

  // ----- validate_times -----

  /** The `%H` directive: `2[0-3]`, `[0-1][0-9]` or `[0-9]`. */
  function HourToken(t: string): (r: Option<int>)
    ensures r.Some? ==> 0 <= r.value <= 23
  {
    if |t| == 1 && IsDigit(t[0]) then Some(DigitValue(t[0]))
    else if |t| == 2 && ((t[0] == '2' && '0' <= t[1] <= '3') || ('0' <= t[0] <= '1' && IsDigit(t[1]))) then
      Some(TwoDigitValue(t[0], t[1]))
    else None
  }

  /** The `%M` directive: `[0-5][0-9]` or `[0-9]`. */
  function MinuteToken(t: string): (r: Option<int>)
    ensures r.Some? ==> 0 <= r.value <= 59
  {
    if |t| == 1 && IsDigit(t[0]) then Some(DigitValue(t[0]))
    else if |t| == 2 && '0' <= t[0] <= '5' && IsDigit(t[1]) then Some(TwoDigitValue(t[0], t[1]))
    else None
  }

  /** `datetime.strptime(t, "%H:%M")` succeeds. */
  predicate IsClockTime(t: string) {
    var p := Split(t, ':');
    |p| == 2 && HourToken(p[0]).Some? && MinuteToken(p[1]).Some?
  }

  /** A zero-padded `HH:MM` is accepted exactly when it is a time of day on the 24-hour clock. */
  lemma PaddedClockTime(h: int, m: int)
    requires 0 <= h < 100 && 0 <= m < 100
    ensures IsClockTime(Pad2(h) + ":" + Pad2(m)) <==> h < 24 && m < 60
  {
    assert ':' !in Pad2(h) && ':' !in Pad2(m);
    SplitAt(Pad2(h), ':', Pad2(m));
    SplitNone(Pad2(m), ':');
  }

  /**
   * `validate_times`: a missing, non-string or blank value is an error, and so is a stripped value
   * that is not a 24-hour `H:M`; an accepted value is stored stripped but otherwise as written.
   */
  function ValidateTime(value: Option<string>): (r: Result<string, string>)
    ensures r.Ok? <==> value.Some? && IsClockTime(Strip(value.value))
    ensures r.Ok? ==> r.value == Strip(value.value)
  {
    if value.None? || IsBlank(value.value) then Err("Time value is required")
    else
      var candidate := Strip(value.value);
      if IsClockTime(candidate) then Ok(candidate) else Err("Time must be HH:MM (24-hour)")
  }

  /** A stored time validates to itself. */
  lemma ValidateTimeFixedPoint(value: Option<string>)
    requires ValidateTime(value).Ok?
    ensures ValidateTime(Some(ValidateTime(value).value)) == ValidateTime(value)
  {
    StripIdempotent(value.value);
  }

  // ----- normalize_registration -----

  /** The alias TICKETS is read as TICKETING. */
  function CanonicalRegistration(upper: string): string {
    if upper == "TICKETS" then "TICKETING" else upper
  }

  /**
   * `normalize_registration`: a missing, non-string or blank value becomes RSVP; otherwise the
   * stripped, upper-cased value with TICKETS read as TICKETING, which must be a valid type.
   */
  function NormalizeRegistration(value: Option<string>): (r: Result<string, string>)
    ensures (value.None? || IsBlank(value.value)) ==> r == Ok("RSVP")
    ensures r.Ok? ==> r.value in ValidRegistrationTypes
    ensures value.Some? && !IsBlank(value.value) ==>
      (r.Ok? <==> CanonicalRegistration(Upper(Strip(value.value))) in ValidRegistrationTypes)
  {
    if value.None? || IsBlank(value.value) then Ok("RSVP")
    else
      var normalized := CanonicalRegistration(Upper(Strip(value.value)));
      if normalized in ValidRegistrationTypes then Ok(normalized)
      else Err("registration_type must be one of EXTERNAL, NO_REGISTRATION, RSVP, TICKETING")
  }

  /** TICKETS in any letter case and with any surrounding whitespace becomes TICKETING. */
  lemma TicketsAlias(value: string)
    requires Upper(Strip(value)) == "TICKETS"
    ensures NormalizeRegistration(Some(value)) == Ok("TICKETING")
  {
    assert Strip(value) != [];
  }

  /** A stored registration type validates to itself. */
  lemma NormalizeRegistrationFixedPoint(value: Option<string>)
    requires NormalizeRegistration(value).Ok?
    ensures NormalizeRegistration(Some(NormalizeRegistration(value).value)) == NormalizeRegistration(value)
  {
    ValidTypeNormal(NormalizeRegistration(value).value);
  }

  predicate IsUpperWord(t: string) {
    t != [] && forall i :: 0 <= i < |t| ==> 'A' <= t[i] <= 'Z' || t[i] == '_'
  }

  /** A word of capitals and underscores has nothing to strip and is its own upper case. */
  lemma UpperWordNormal(t: string)
    requires IsUpperWord(t)
    ensures !IsBlank(t) && Strip(t) == t && Upper(t) == t
  {
    UpperWordUnstripped(t);
    UpperWordUpper(t);
  }

  lemma UpperWordUnstripped(t: string)
    requires IsUpperWord(t)
    ensures Strip(t) == t && !IsBlank(t)
  {
    assert !IsSpace(t[0]) && !IsSpace(t[|t| - 1]);
    StripUnchanged(t);
  }

  lemma UpperWordUpper(t: string)
    requires IsUpperWord(t)
    ensures Upper(t) == t
  {
    var u := Upper(t);
    forall i | 0 <= i < |t|
      ensures u[i] == t[i]
    {
    }
  }

  /** The valid registration types are upper-case words with nothing to strip. */
  lemma ValidTypeNormal(t: string)
    requires t in ValidRegistrationTypes
    ensures !IsBlank(t) && Strip(t) == t && Upper(t) == t && CanonicalRegistration(t) == t
  {
    assert t != "TICKETS";
    assert IsUpperWord(t) by {
      if t == "RSVP" {
      } else if t == "TICKETING" {
      } else if t == "EXTERNAL" {
      } else {
      }
    }
    UpperWordNormal(t);
  }

  /** A valid registration type normalises to itself. */
  lemma ValidTypeKept(t: string)
    requires t in ValidRegistrationTypes
    ensures NormalizeRegistration(Some(t)) == Ok(t)
  {
    ValidTypeNormal(t);
  }

  // ----- ensure_non_negative_price, ensure_capacity_positive -----

  /** `ensure_non_negative_price`: `max(0.0, value)`. */
  function EnsureNonNegativePrice(value: real): (r: real)
    ensures r >= 0.0 && r >= value
    ensures r == value || r == 0.0
  {
    if value < 0.0 then 0.0 else value
  }

  /** `ensure_capacity_positive`: a capacity of zero or less is an error; any other is kept. */
  function EnsureCapacityPositive(value: int): (r: Result<int, string>)
    ensures r.Ok? <==> value > 0
    ensures r.Ok? ==> r.value == value && r.value >= 1
  {
    if value <= 0 then Err("capacity must be greater than zero") else Ok(value)
  }

  // ----- empty_str_to_none -----

  /** `empty_str_to_none`: None stays None, a blank string becomes None, anything else is stripped. */
  function EmptyToNone(value: Option<string>): (r: Option<string>)
    ensures r.None? <==> value.None? || IsBlank(value.value)
    ensures r.Some? ==> r.value == Strip(value.value) && r.value != []
  {
    if value.None? then None
    else
      var stripped := Strip(value.value);
      if stripped == [] then None else Some(stripped)
  }

  /** An optional text field in stored form: absent, or non-empty with nothing to strip. */
  predicate IsCleanText(t: Option<string>) {
    t.None? || (t.value != [] && !IsSpace(t.value[0]) && !IsSpace(t.value[|t.value| - 1]))
  }

  /** The stored form of a text field is clean. */
  lemma EmptyToNoneClean(value: Option<string>)
    ensures IsCleanText(EmptyToNone(value))
  {
    if value.Some? {
      var s := Strip(value.value);
      if s != [] {
        assert EmptyToNone(value) == Some(s);
      }
    }
  }

  /** A clean text field is left as it is. */
  lemma CleanTextFixedPoint(t: Option<string>)
    requires IsCleanText(t)
    ensures EmptyToNone(t) == t
  {
    if t.Some? {
      StripUnchanged(t.value);
    }
  }

  // ----- EventRecord -----

  /** A validated event. */
  datatype EventRecord = EventRecord(
    name: string,
    eventType: Option<string>,
    startDate: string,
    startTime: string,
    endDate: string,
    endTime: string,
    location: string,
    ticketPrice: real,
    capacity: int,
    registrationType: string,
    imageUrl: Option<string>,
    teaser: Option<string>,
    description: Option<string>)

  /** The keyword arguments given to `EventRecord(...)`, before validation. */
  datatype EventInput = EventInput(
    name: string,
    eventType: Option<string>,
    startDate: string,
    startTime: string,
    endDate: string,
    endTime: string,
    location: string,
    ticketPrice: real,
    capacity: int,
    registrationType: string,
    imageUrl: Option<string>,
    teaser: Option<string>,
    description: Option<string>)

  /**
   * What every constructed record satisfies: each validated field is in its stored form, which its
   * validator maps to itself.
   */
  predicate ValidRecord(e: EventRecord) {
    && e.name != [] && e.location != []
    && IsIsoShape(e.startDate) && ValidateDate(Some(e.startDate)) == Ok(e.startDate)
    && IsIsoShape(e.endDate) && ValidateDate(Some(e.endDate)) == Ok(e.endDate)
    && IsClockTime(e.startTime) && ValidateTime(Some(e.startTime)) == Ok(e.startTime)
    && IsClockTime(e.endTime) && ValidateTime(Some(e.endTime)) == Ok(e.endTime)
    && e.ticketPrice >= 0.0 && e.capacity >= 1
    && e.registrationType in ValidRegistrationTypes
    && NormalizeRegistration(Some(e.registrationType)) == Ok(e.registrationType)
    && IsCleanText(e.eventType) && IsCleanText(e.imageUrl) && IsCleanText(e.teaser) && IsCleanText(e.description)
  }

  /** The names of the fields whose validation fails, in declaration order, as pydantic reports them. */
  function FailingFields(input: EventInput): seq<string> {
    (if input.name == [] then ["name"] else [])
    + (if ValidateDate(Some(input.startDate)).Err? then ["start_date"] else [])
    + (if ValidateTime(Some(input.startTime)).Err? then ["start_time"] else [])
    + (if ValidateDate(Some(input.endDate)).Err? then ["end_date"] else [])
    + (if ValidateTime(Some(input.endTime)).Err? then ["end_time"] else [])
    + (if input.location == [] then ["location"] else [])
    + (if EnsureCapacityPositive(input.capacity).Err? then ["capacity"] else [])
    + (if NormalizeRegistration(Some(input.registrationType)).Err? then ["registration_type"] else [])
  }

  /**
   * `EventRecord(**kwargs)`: every validator runs; the record is built from the validated values
   * when none fails, and otherwise a ValidationError lists every failing field.
   */
  function NewEventRecord(input: EventInput): (r: Result<EventRecord, seq<string>>)
    ensures r.Ok? <==> FailingFields(input) == []
    ensures r.Err? ==> r.error == FailingFields(input) && r.error != []
  {
    var failing := FailingFields(input);
    if failing != [] then Err(failing)
    else
      Ok(EventRecord(
        input.name,
        EmptyToNone(input.eventType),
        ValidateDate(Some(input.startDate)).value,
        ValidateTime(Some(input.startTime)).value,
        ValidateDate(Some(input.endDate)).value,
        ValidateTime(Some(input.endTime)).value,
        input.location,
        EnsureNonNegativePrice(input.ticketPrice),
        EnsureCapacityPositive(input.capacity).value,
        NormalizeRegistration(Some(input.registrationType)).value,
        EmptyToNone(input.imageUrl),
        EmptyToNone(input.teaser),
        EmptyToNone(input.description)))
  }

  /** Every record construction that succeeds yields a valid record. */
  lemma NewEventRecordValid(input: EventInput)
    requires NewEventRecord(input).Ok?
    ensures ValidRecord(NewEventRecord(input).value)
  {
    ValidateDateFixedPoint(Some(input.startDate));
    ValidateDateFixedPoint(Some(input.endDate));
    ValidateTimeFixedPoint(Some(input.startTime));
    ValidateTimeFixedPoint(Some(input.endTime));
    NormalizeRegistrationFixedPoint(Some(input.registrationType));
    EmptyToNoneClean(input.eventType);
    EmptyToNoneClean(input.imageUrl);
    EmptyToNoneClean(input.teaser);
    EmptyToNoneClean(input.description);
  }

  /** A constructed record holds the normalized registration type of its input. */
  lemma NewEventRecordRegistration(input: EventInput)
    requires NewEventRecord(input).Ok?
    ensures NewEventRecord(input).value.registrationType == NormalizeRegistration(Some(input.registrationType)).value
  {
  }

  /** The keyword arguments that rebuild a record from its own fields (`to_payload`). */
  function InputOf(e: EventRecord): EventInput {
    EventInput(e.name, e.eventType, e.startDate, e.startTime, e.endDate, e.endTime, e.location,
               e.ticketPrice, e.capacity, e.registrationType, e.imageUrl, e.teaser, e.description)
  }

  /** No field of a valid record fails validation. */
  lemma StoredFieldsPass(e: EventRecord)
    requires ValidRecord(e)
    ensures FailingFields(InputOf(e)) == []
  {
  }

  /** Validation is a fixed point on records: a record rebuilt from its own fields is the same record. */
  lemma RevalidateRecord(e: EventRecord)
    requires ValidRecord(e)
    ensures NewEventRecord(InputOf(e)) == Ok(e)
  {
    var input := InputOf(e);
    StoredFieldsPass(e);
    CleanTextFixedPoint(e.eventType);
    CleanTextFixedPoint(e.imageUrl);
    CleanTextFixedPoint(e.teaser);
    CleanTextFixedPoint(e.description);
    assert EnsureNonNegativePrice(input.ticketPrice) == e.ticketPrice;
    assert EnsureCapacityPositive(input.capacity).value == e.capacity;
    assert NewEventRecord(input) == Ok(EventRecord(
      e.name, e.eventType, e.startDate, e.startTime, e.endDate, e.endTime, e.location, e.ticketPrice,
      e.capacity, e.registrationType, e.imageUrl, e.teaser, e.description));
  }
}
