/**
 * The sync decisions of event_sync/orchestrator.py: the identity keys of events already in Wix,
 * the event payload `create_wix_event` posts and its ticket decision, and the create-or-skip loop
 * of `sync_events` with its success / failed / skipped partition. Calls to Google and Wix are given
 * as their outcomes; the timezone conversion of `_wix_timestamp` is a given function.
 */
module Orchestrator {
  import opened Wrappers
  import opened Text
  import opened Utils
  import Constants
  import opened Models
  import Sheets
  import opened WixApi
  import opened Runtime
  import Images
  import opened Description
  import opened Partition

  // ----- existing event keys -----

  /** Python `s[:5]`. */
  function Head5(s: string): (r: string)
    ensures |r| == if |s| < 5 then |s| else 5
    ensures r == s[..|r|]
  {
    if |s| <= 5 then s else s[..5]
  }

  /** A string holding the separator splits into at least two pieces. */
  lemma SplitSecond(s: string, sep: char)
    requires sep in s
    ensures |Split(s, sep)| >= 2
  {
    var k := IndexOf(s, sep);
    assert k < |s| by {
      var i :| 0 <= i < |s| && s[i] == sep;
    }
  }

  /**
   * The key `get_existing_event_keys` files a listed event under: its title, the part of its start
   * before "T", and the first five characters after it ("00:00" without a "T"). An event without a
   * start has no key.
   */
  function ExistingKey(e: WixEvent): Option<string> {
    var start := StartOf(e);
    if start == "" then None
    else
      var date := Split(start, 'T')[0];
      var time := if 'T' in start then SplitSecond(start, 'T'); Head5(Split(start, 'T')[1]) else "00:00";
      Some(TitleOf(e) + "|" + date + "|" + time)
  }

  /** A start with a date before its first "T" is keyed by that date and the next five characters. */
  lemma KeyWithTime(e: WixEvent, date: string, rest: string)
    requires StartOf(e) == date + "T" + rest && 'T' !in date
    ensures ExistingKey(e) == Some(TitleOf(e) + "|" + date + "|" + Head5(Split(rest, 'T')[0]))
  {
    SplitAt(date, 'T', rest);
    assert StartOf(e)[|date|] == 'T';
  }

  /** A start without "T" is keyed whole, at "00:00". */
  lemma KeyWithoutTime(e: WixEvent)
    requires StartOf(e) != "" && 'T' !in StartOf(e)
    ensures ExistingKey(e) == Some(TitleOf(e) + "|" + StartOf(e) + "|" + "00:00")
  {
    SplitNone(StartOf(e), 'T');
  }

  /** The keys some function gives the listed events, in listing order. */
  function KeysBy(events: seq<WixEvent>, key: WixEvent -> Option<string>): set<string> {
    if events == [] then {}
    else
      var last := key(events[|events| - 1]);
      KeysBy(events[..|events| - 1], key) + (if last.Some? then {last.value} else {})
  }

  /** The keys of the listed events. */
  function ExistingKeys(events: seq<WixEvent>): set<string> {
    KeysBy(events, ExistingKey)
  }

  /** A key is in the set exactly when some listed event has it. */
  lemma {:induction false} KeysByMembers(events: seq<WixEvent>, key: WixEvent -> Option<string>, k: string)
    ensures k in KeysBy(events, key) <==> exists i :: 0 <= i < |events| && key(events[i]) == Some(k)
  {
    if events != [] {
      var init := events[..|events| - 1];
      KeysByMembers(init, key, k);
      if exists i :: 0 <= i < |init| && key(init[i]) == Some(k) {
        var i :| 0 <= i < |init| && key(init[i]) == Some(k);
        assert events[i] == init[i];
      }
      if exists i :: 0 <= i < |events| && key(events[i]) == Some(k) {
        var i :| 0 <= i < |events| && key(events[i]) == Some(k);
        if i < |init| {
          assert init[i] == events[i];
        }
      }
    }
  }

  /** A key is known exactly when some listed event has it. */
  lemma ExistingKeysMembers(events: seq<WixEvent>, k: string)
    ensures k in ExistingKeys(events) <==> exists i :: 0 <= i < |events| && ExistingKey(events[i]) == Some(k)
  {
    KeysByMembers(events, ExistingKey, k);
  }

  /** The loop over the listing, adding each event's key to the set. */
  method CollectKeys(events: seq<WixEvent>) returns (keys: set<string>)
    ensures keys == ExistingKeys(events)
  {
    keys := {};
    for i := 0 to |events|
      invariant keys == ExistingKeys(events[..i])
    {
      assert events[..i + 1][..i] == events[..i];
      assert ExistingKeys(events[..i + 1]) == KeysBy(events[..i + 1], ExistingKey);
      var key := ExistingKey(events[i]);
      if key.Some? {
        keys := keys + {key.value};
      }
    }
    assert events[..|events|] == events;
  }

  /**
   * `get_existing_event_keys` with the listing outcome given: the keys of every listed event, or
   * the empty set when the client cannot be built or the listing fails.
   */
  method GetExistingEventKeys(rt: SyncRuntime, listing: Result<seq<WixEvent>, string>) returns (keys: set<string>)
    modifies rt`wixClient
    ensures rt.wixClient.Some? && listing.Ok? ==> keys == ExistingKeys(listing.value)
    ensures rt.wixClient.None? || listing.Err? ==> keys == {}
    ensures old(rt.wixClient).Some? ==> rt.wixClient == old(rt.wixClient)
    ensures keys == if old(rt.ClientAvailable()) && listing.Ok? then ExistingKeys(listing.value) else {}
    ensures rt.ClientAvailable() == old(rt.ClientAvailable())
  {
    var client := rt.GetWixClient();
    if client.Err? || listing.Err? {
      return {};
    }
    keys := CollectKeys(listing.value);
  }

  /** `_wix_timestamp`'s fallback when no timezone database is available: the local time marked as UTC. */
  function NaiveTimestamp(dateIso: string, time24h: string): string {
    dateIso + "T" + time24h + ":00Z"
  }

  /** The key `sync_events` looks up for a record: its name, ISO start date and start time as written. */
  function DesiredKey(name: string, dateIso: string, startTime: string): string {
    name + "|" + dateIso + "|" + startTime
  }

  /** ISO dates have no "T". */
  lemma IsoHasNoT(s: string)
    requires IsIsoShape(s)
    ensures 'T' !in s
  {
    forall i | 0 <= i < |s| ensures s[i] != 'T' {
      if i != 4 && i != 7 {
        assert IsDigit(s[i]);
      }
    }
  }

  /** An accepted time is an hour of one or two digits, ":", and a minute of one or two digits. */
  lemma ClockTimeShape(t: string)
    requires IsClockTime(t)
    ensures 'T' !in t && 3 <= |t| <= 5
  {
    var p := Split(t, ':');
    JoinSplit(t, ':');
    assert p == [p[0], p[1]];
    assert Join(p, ":") == p[0] + ":" + p[1];
    assert forall i :: 0 <= i < |p[0]| ==> IsDigit(p[0][i]);
    assert forall i :: 0 <= i < |p[1]| ==> IsDigit(p[1][i]);
    assert t == p[0] + ":" + p[1];
    forall i | 0 <= i < |t| ensures t[i] != 'T' {
      if i < |p[0]| {
        assert t[i] == p[0][i];
      } else if i > |p[0]| {
        assert t[i] == p[1][i - |p[0]| - 1];
      }
    }
  }

  /** Two keys with the same name and date agree exactly when their times do. */
  lemma KeyTimesAgree(name: string, date: string, t1: string, t2: string)
    ensures DesiredKey(name, date, t1) == DesiredKey(name, date, t2) <==> t1 == t2
  {
    var prefix := name + "|" + date + "|";
    assert DesiredKey(name, date, t1) == prefix + t1;
    assert DesiredKey(name, date, t2) == prefix + t2;
    if prefix + t1 == prefix + t2 {
      assert t1 == (prefix + t1)[|prefix|..];
      assert t2 == (prefix + t2)[|prefix|..];
    }
  }

  /** The key of an event listed with a naive timestamp holds the first five characters of `time:00Z`. */
  lemma NaiveKey(listed: WixEvent, date: string, time: string)
    requires StartOf(listed) == NaiveTimestamp(date, time) && 'T' !in date && 'T' !in time
    ensures ExistingKey(listed) == Some(DesiredKey(TitleOf(listed), date, Head5(time + ":00Z")))
  {
    var rest := time + ":00Z";
    assert StartOf(listed) == date + "T" + rest;
    assert 'T' !in rest;
    SplitNone(rest, 'T');
    KeyWithTime(listed, date, rest);
  }

  /**
   * Under the naive timestamp, an event created with a stored date and time is recognised on the
   * next run, that is its listed key is the record's key, exactly when the time has a two-digit
   * hour: an accepted "9:00" is stored as "T9:00:00Z" and read back as "9:00:".
   */
  lemma RecognisedIffPaddedHour(name: string, date: string, time: string, listed: WixEvent)
    requires IsIsoShape(date) && IsClockTime(time)
    requires TitleOf(listed) == name && StartOf(listed) == NaiveTimestamp(date, time)
    ensures ExistingKey(listed) == Some(DesiredKey(name, date, time)) <==> |time| == 5
  {
    IsoHasNoT(date);
    ClockTimeShape(time);
    NaiveKey(listed, date, time);
    var read := Head5(time + ":00Z");
    KeyTimesAgree(name, date, read, time);
    if |time| == 5 {
      assert read == (time + ":00Z")[..5] == time;
    } else {
      assert |read| != |time|;
    }
  }

  /** The stored dates of a record convert to themselves, so the desired key uses the start as stored. */
  predicate DatesConvert(e: EventRecord) {
    ConvertDateToIso(e.startDate) == Ok(e.startDate) && ConvertDateToIso(e.endDate) == Ok(e.endDate)
  }

  /** Every validated record's dates convert to themselves. */
  lemma StoredDatesConvert(e: EventRecord)
    requires ValidRecord(e)
    ensures DatesConvert(e)
  {
    IsoShapeUnstripped(e.startDate);
    IsoShapeUnstripped(e.endDate);
  }

  /** Every record of a run has dates that convert to themselves. */
  predicate AllDatesConvert(events: seq<EventRecord>) {
    forall i :: 0 <= i < |events| ==> DatesConvert(events[i])
  }

  /** So do the dates of every record a fetch returns. */
  lemma FetchedDatesConvert(service: Result<(), string>, sheetId: string, fetched: Result<seq<seq<string>>, string>)
    requires Sheets.FetchEventsSpec(service, sheetId, fetched).Ok?
    ensures AllDatesConvert(Sheets.FetchEventsSpec(service, sheetId, fetched).value)
  {
    var events := Sheets.FetchEventsSpec(service, sheetId, fetched).value;
    if fetched.value != [] {
      Sheets.ProcessRowsValid(fetched.value[1..], |fetched.value[0]|, ColumnMapOf(fetched.value[0], Constants.ColumnMapping));
    }
    ValidRecordsConvert(events);
  }

  /** A run of validated records has dates that convert to themselves. */
  lemma ValidRecordsConvert(events: seq<EventRecord>)
    requires forall e :: e in events ==> ValidRecord(e)
    ensures AllDatesConvert(events)
  {
    forall i | 0 <= i < |events| ensures DatesConvert(events[i]) {
      assert events[i] in events;
      StoredDatesConvert(events[i]);
    }
  }

  // ----- create_wix_event -----

  /** `mainImage` of the payload. */
  datatype MainImage = MainImage(id: string, width: int, height: int)

  /** The `event_data` body `create_wix_event` posts; absent optional members are None. */
  datatype EventPayload = EventPayload(
    title: string,
    dateAndTimeTbd: bool,
    startDate: string,
    endDate: string,
    timeZoneId: string,
    locationType: string,
    formattedAddress: string,
    initialType: string,
    shortDescription: Option<string>,
    detailedDescription: Option<string>,
    mainImage: Option<MainImage>)

  /** Python truthiness of an optional number. */
  predicate Truthy(n: Option<int>) {
    n.Some? && n.value != 0
  }

  /** Python truthiness of an optional string. */
  predicate Given(s: Option<string>) {
    s.Some? && s.value != ""
  }

  /** The main image of an upload descriptor: only with an id and a non-zero width and height. */
  function MainImageOf(descriptor: Option<MediaDescriptor>): Option<MainImage> {
    if descriptor.Some? && DescriptorGiven(descriptor.value) && descriptor.value.id.Some?
       && descriptor.value.image.Some?
       && Truthy(descriptor.value.image.value.width) && Truthy(descriptor.value.image.value.height)
    then
      var d := descriptor.value;
      Some(MainImage(d.id.value, d.image.value.width.value, d.image.value.height.value))
    else None
  }

  /** The short description: the stripped teaser when that is not empty. */
  function TeaserOf(teaser: Option<string>): Option<string> {
    if Given(teaser) && Strip(teaser.value) != "" then Some(Strip(teaser.value)) else None
  }

  /** The detailed description: the HTML of the description when that is not empty. */
  function DetailOf(description: Option<string>): Option<string> {
    if Given(description) && DescriptionHtml(description.value) != "" then Some(DescriptionHtml(description.value))
    else None
  }

  /**
   * The payload for a record, given its converted dates, the site timezone, the timestamp
   * conversion and the upload descriptor, if any.
   */
  function PayloadOf(e: EventRecord, startIso: string, endIso: string, timezone: string,
                     stamp: (string, string, string) -> string, descriptor: Option<MediaDescriptor>): EventPayload {
    EventPayload(
      e.name, false, stamp(startIso, e.startTime, timezone), stamp(endIso, e.endTime, timezone), timezone,
      "VENUE", e.location, e.registrationType,
      TeaserOf(e.teaser), DetailOf(e.description), MainImageOf(descriptor))
  }

  /** A short description is sent exactly for a teaser that is not blank, and for a stored teaser it is the teaser. */
  lemma TeaserMember(teaser: Option<string>)
    ensures TeaserOf(teaser).Some? <==> teaser.Some? && !IsBlank(teaser.value)
    ensures TeaserOf(teaser).Some? && IsCleanText(teaser) ==> TeaserOf(teaser) == teaser
  {
    if teaser.Some? && IsCleanText(teaser) {
      CleanTextFixedPoint(teaser);
    }
  }

  /** A detailed description is sent exactly for a description that is not blank, as a `<p>` or `<ul>` block. */
  lemma DetailMember(description: Option<string>)
    ensures DetailOf(description).Some? <==> description.Some? && !IsBlank(description.value)
    ensures DetailOf(description).Some? ==>
      StartsWith(DetailOf(description).value, "<p>") || StartsWith(DetailOf(description).value, "<ul>")
  {
    if description.Some? {
      var raw := description.value;
      DescriptionEmptyIffBlank(raw);
      if raw == "" {
        assert IsBlank(raw) && DetailOf(description) == None;
      } else {
        var html := DescriptionHtml(raw);
        assert DetailOf(description) == if html != "" then Some(html) else None;
      }
    }
  }

  /**
   * A main image is sent exactly for a descriptor with an id and a non-zero width and height, and
   * carries those.
   */
  lemma MainImageMember(descriptor: Option<MediaDescriptor>)
    ensures MainImageOf(descriptor).Some? <==>
      && descriptor.Some? && descriptor.value.id.Some? && descriptor.value.image.Some?
      && Truthy(descriptor.value.image.value.width) && Truthy(descriptor.value.image.value.height)
    ensures MainImageOf(descriptor).Some? ==>
      && MainImageOf(descriptor).value.id == descriptor.value.id.value
      && MainImageOf(descriptor).value.width != 0 && MainImageOf(descriptor).value.height != 0
      && Some(MainImageOf(descriptor).value.width) == descriptor.value.image.value.width
      && Some(MainImageOf(descriptor).value.height) == descriptor.value.image.value.height
  {
  }

  /** The fixed members: the record's name, location and registration type, a venue, a set date. */
  lemma PayloadFixedMembers(e: EventRecord, timezone: string, stamp: (string, string, string) -> string,
                            descriptor: Option<MediaDescriptor>)
    requires ValidRecord(e)
    ensures var p := PayloadOf(e, e.startDate, e.endDate, timezone, stamp, descriptor);
      && p.title == e.name && p.formattedAddress == e.location && p.initialType == e.registrationType
      && p.initialType in ValidRegistrationTypes
      && p.locationType == "VENUE" && !p.dateAndTimeTbd && p.timeZoneId == timezone
      && p.startDate == stamp(e.startDate, e.startTime, timezone)
      && p.endDate == stamp(e.endDate, e.endTime, timezone)
  {
  }

  /**
   * The assembly of `event_data`: the fixed members first, then the short description, the
   * detailed description and the main image, each only when its condition holds.
   */
  method BuildPayload(e: EventRecord, startIso: string, endIso: string, timezone: string,
                      stamp: (string, string, string) -> string, descriptor: Option<MediaDescriptor>)
    returns (payload: EventPayload)
    ensures payload == PayloadOf(e, startIso, endIso, timezone, stamp, descriptor)
  {
    payload := EventPayload(
      e.name, false, stamp(startIso, e.startTime, timezone), stamp(endIso, e.endTime, timezone), timezone,
      "VENUE", e.location, e.registrationType, None, None, None);
    var teaser := if Given(e.teaser) then Some(Strip(e.teaser.value)) else None;
    if Given(teaser) {
      payload := payload.(shortDescription := teaser);
    }
    if Given(e.description) {
      var formatted := FormatDescriptionAsHtml(e.description.value);
      if formatted != "" {
        payload := payload.(detailedDescription := Some(formatted));
      }
    }
    if descriptor.Some? && DescriptorGiven(descriptor.value) && descriptor.value.id.Some? {
      var width: Option<int> := None;
      var height: Option<int> := None;
      if descriptor.value.image.Some? {
        width := descriptor.value.image.value.width;
        height := descriptor.value.image.value.height;
      }
      if Truthy(width) && Truthy(height) {
        payload := payload.(mainImage := Some(MainImage(descriptor.value.id.value, width.value, height.value)));
      }
    }
  }

  /** A ticket is provisioned only when enabled, for a ticketed event with a positive price. */
  predicate ShouldCreateTicket(e: EventRecord, autoCreateTickets: bool) {
    autoCreateTickets && e.registrationType == "TICKETING" && e.ticketPrice > 0.0
  }

  /**
   * The outcomes one `create_wix_event` may see: the image upload and the create call. The ticket
   * call's outcome is not among them, as it does not change the result.
   */
  datatype CreateWorld = CreateWorld(
    image: Images.UploadWorld,
    created: Result<Option<string>, string>)   // the created event's `id`, if it has one

  /** The "General Admission" ticket for a record: its price, and its capacity as a limited quantity. */
  function AdmissionTicket(eventId: Option<string>, e: EventRecord): TicketDefinition {
    TicketDefinition(eventId, "General Admission", 10, e.ticketPrice, DefaultCurrency, "FEE_ADDED_AT_CHECKOUT",
                     if e.capacity != 0 then Some(true) else None, if e.capacity != 0 then Some(e.capacity) else None)
  }

  /**
   * The guarded part of `create_wix_event`: get the client, post the payload and, when due, the
   * ticket. It succeeds exactly when the client is available and the create call succeeds; the
   * ticket call's outcome does not change the result.
   */
  method PostEvent(e: EventRecord, rt: SyncRuntime, autoCreateTickets: bool, payload: EventPayload,
                   created: Result<Option<string>, string>)
    returns (ok: bool, sent: Option<EventPayload>, ticket: Option<TicketDefinition>)
    modifies rt`wixClient
    ensures sent.Some? <==> rt.wixClient.Some?
    ensures sent.Some? ==> sent.value == payload
    ensures ok <==> rt.wixClient.Some? && created.Ok?
    ensures ticket.Some? <==> ok && ShouldCreateTicket(e, autoCreateTickets)
    ensures ticket.Some? ==> ticket.value == AdmissionTicket(created.value, e)
    ensures old(rt.wixClient).Some? ==> rt.wixClient == old(rt.wixClient)
    ensures ok <==> old(rt.ClientAvailable()) && created.Ok?
    ensures rt.ClientAvailable() == old(rt.ClientAvailable())
  {
    var client := rt.GetWixClient();
    if client.Err? {
      return false, None, None;
    }
    sent := Some(payload);
    if created.Err? {
      return false, sent, None;
    }
    ticket := None;
    if ShouldCreateTicket(e, autoCreateTickets) {
      var definition := TicketPayload(created.value, "General Admission", e.ticketPrice, Some(e.capacity),
                                      DefaultCurrency);
      ticket := Some(definition);
    }
    ok := true;
  }

  /**
   * `create_wix_event`: uploads the image when the record has one, builds the payload from the
   * converted dates and posts it. The record's dates must convert: the conversion runs outside the
   * function's error handling.
   */
  method CreateWixEvent(e: EventRecord, rt: SyncRuntime, autoCreateTickets: bool, world: CreateWorld,
                        stamp: (string, string, string) -> string)
    returns (ok: bool, image: Option<MediaDescriptor>, sent: Option<EventPayload>, ticket: Option<TicketDefinition>)
    requires DatesConvert(e)
    modifies rt`driveCache, rt`wixCache, rt`stats, rt`wixClient
    ensures !Given(e.imageUrl) ==> image.None? && rt.stats == old(rt.stats)
    ensures Given(e.imageUrl) ==>
      image == Images.UploadOutcome(e.imageUrl.value, old(rt.wixCache), old(rt.driveCache), world.image,
                                    old(rt.ClientAvailable()))
    ensures sent.Some? <==> rt.wixClient.Some?
    ensures sent.Some? ==> sent.value == PayloadOf(e, e.startDate, e.endDate, rt.config.timezone, stamp, image)
    ensures ok <==> rt.wixClient.Some? && world.created.Ok?
    ensures ticket.Some? <==> ok && ShouldCreateTicket(e, autoCreateTickets)
    ensures ticket.Some? ==> ticket.value == AdmissionTicket(world.created.value, e)
    ensures ok <==> old(rt.ClientAvailable()) && world.created.Ok?
    ensures rt.ClientAvailable() == old(rt.ClientAvailable())
  {
    image := None;
    if Given(e.imageUrl) {
      image := Images.UploadImageToWix(e.imageUrl.value, rt, world.image);
    }
    var startIso := ConvertDateToIso(e.startDate).value;
    var endIso := ConvertDateToIso(e.endDate).value;
    var payload := BuildPayload(e, startIso, endIso, rt.config.timezone, stamp, image);
    ok, sent, ticket := PostEvent(e, rt, autoCreateTickets, payload, world.created);
  }

  // ----- sync_events -----

  /** The name a record is listed under in `results`. */
  function RecordName(e: EventRecord): string {
    e.name
  }

  /** The key of a record, with its start date converted as the loop converts it. */
  function RecordKey(e: EventRecord): string {
    DesiredKey(e.name, e.startDate, e.startTime)
  }

  /** The key the loop looks up for the i-th record: its name, converted start date and start time. */
  method LookupKey(events: seq<EventRecord>, i: nat) returns (key: string)
    requires AllDatesConvert(events) && i < |events|
    ensures key == RecordKey(events[i])
  {
    var e := events[i];
    var startIso := ConvertDateToIso(e.startDate).value;
    key := DesiredKey(e.name, startIso, e.startTime);
  }

  /** One attempted create of the i-th record, as the loop sees it: whether it succeeded. */
  method AttemptCreate(events: seq<EventRecord>, i: nat, rt: SyncRuntime, autoCreateTickets: bool, world: CreateWorld,
                       stamp: (string, string, string) -> string) returns (created: bool)
    requires AllDatesConvert(events) && i < |events|
    modifies rt`driveCache, rt`wixCache, rt`stats, rt`wixClient
    ensures created <==> old(rt.ClientAvailable()) && world.created.Ok?
    ensures rt.ClientAvailable() == old(rt.ClientAvailable())
  {
    var image, sent, ticket;
    created, image, sent, ticket := CreateWixEvent(events[i], rt, autoCreateTickets, world, stamp);
  }

  /**
   * Every attempted record's verdict is its create's outcome: Success exactly when a Wix client is
   * available and the i-th create call succeeds.
   */
  predicate AttemptsMatch(verdicts: seq<Verdict>, clientAvailable: bool, creates: nat -> CreateWorld) {
    forall j :: 0 <= j < |verdicts| && verdicts[j] != Skip ==>
      (verdicts[j] == Success <==> clientAvailable && creates(j).created.Ok?)
  }

  /** One more verdict that matches its create call keeps the verdicts matching. */
  lemma AttemptsMatchSnoc(verdicts: seq<Verdict>, v: Verdict, clientAvailable: bool, creates: nat -> CreateWorld)
    requires AttemptsMatch(verdicts, clientAvailable, creates)
    requires v != Skip ==> (v == Success <==> clientAvailable && creates(|verdicts|).created.Ok?)
    ensures AttemptsMatch(verdicts + [v], clientAvailable, creates)
  {
    assert forall j :: 0 <= j < |verdicts| ==> (verdicts + [v])[j] == verdicts[j];
  }

  /**
   * No record failed exactly when every record whose key is not known was created: a client is
   * available and each such record's create call succeeded.
   */
  lemma {:induction false} NoFailureIff(events: seq<EventRecord>, keys: set<string>, verdicts: seq<Verdict>,
                                        clientAvailable: bool, creates: nat -> CreateWorld)
    requires |verdicts| == |events|
    requires forall i :: 0 <= i < |events| ==> (verdicts[i] == Skip <==> RecordKey(events[i]) in keys)
    requires AttemptsMatch(verdicts, clientAvailable, creates)
    ensures Failure !in verdicts <==>
      forall i :: 0 <= i < |events| && RecordKey(events[i]) !in keys ==> clientAvailable && creates(i).created.Ok?
  {
    if Failure in verdicts {
      var i :| 0 <= i < |verdicts| && verdicts[i] == Failure;
      assert RecordKey(events[i]) !in keys;
    }
  }

  /**
   * The loop of `sync_events` over the fetched records: a record whose key is known is skipped;
   * any other is attempted once, lands in `success` or `failed`, and is followed by one pause.
   * The known keys are not extended.
   */
  method CreateOrSkip(rt: SyncRuntime, autoCreateTickets: bool, events: seq<EventRecord>, keys: set<string>,
                      creates: nat -> CreateWorld, stamp: (string, string, string) -> string)
    returns (verdicts: seq<Verdict>, results: SyncResults, pauses: nat)
    requires AllDatesConvert(events)
    modifies rt`driveCache, rt`wixCache, rt`stats, rt`wixClient
    ensures |verdicts| == |events|
    ensures forall i :: 0 <= i < |events| ==> (verdicts[i] == Skip <==> RecordKey(events[i]) in keys)
    ensures results == ResultsOf(events, RecordName, verdicts)
    ensures pauses + |results.skipped| == |events|
    ensures AttemptsMatch(verdicts, old(rt.ClientAvailable()), creates)
    ensures rt.ClientAvailable() == old(rt.ClientAvailable())
  {
    verdicts, pauses := [], 0;
    results := SyncResults([], [], []);
    for i := 0 to |events|
      invariant |verdicts| == i
      invariant SkipsMatch(events[..i], RecordKey, verdicts, keys)
      invariant results == ResultsOf(events[..i], RecordName, verdicts)
      invariant pauses + |results.skipped| == i
      invariant AttemptsMatch(verdicts, old(rt.ClientAvailable()), creates)
      invariant rt.ClientAvailable() == old(rt.ClientAvailable())
    {
      var eventKey := LookupKey(events, i);
      if eventKey in keys {
        AttemptsMatchSnoc(verdicts, Skip, old(rt.ClientAvailable()), creates);
        verdicts, results := Record(events, RecordName, RecordKey, i, keys, verdicts, results, Skip);
        continue;
      }
      var created := AttemptCreate(events, i, rt, autoCreateTickets, creates(i), stamp);
      var verdict := if created then Success else Failure;
      AttemptsMatchSnoc(verdicts, verdict, old(rt.ClientAvailable()), creates);
      verdicts, results := Record(events, RecordName, RecordKey, i, keys, verdicts, results, verdict);
      pauses := pauses + 1;
    }
    assert events[..|events|] == events;
    SkipsMatchAll(events, RecordKey, verdicts, keys);
  }

  /** The outcomes one `sync_events` run may see. */
  datatype SyncWorld = SyncWorld(
    service: Result<(), string>,
    fetched: Result<seq<seq<string>>, string>,
    listing: Result<seq<WixEvent>, string>,
    creates: nat -> CreateWorld,   // the outcomes for the i-th record
    stamp: (string, string, string) -> string)

  /** The sheet id `fetch_events` reads from the configuration, "" when unset. */
  function SheetIdOf(rt: SyncRuntime): string {
    rt.config.googleSheetId.GetOr("")
  }

  /**
   * `sync_events`: fetches the records and the existing keys, then runs the create-or-skip loop.
   * A failed fetch ends the run with false; otherwise the result is true exactly when no create
   * failed.
   */
  method SyncEvents(rt: SyncRuntime, autoCreateTickets: bool, world: SyncWorld)
    returns (ok: bool, events: seq<EventRecord>, keys: set<string>, verdicts: seq<Verdict>,
             results: SyncResults, pauses: nat)
    modifies rt`driveCache, rt`wixCache, rt`stats, rt`wixClient
    ensures var fetch := Sheets.FetchEventsSpec(world.service, SheetIdOf(rt), world.fetched);
      && (fetch.Err? ==> !ok && events == [])
      && (fetch.Ok? ==> events == fetch.value)
    ensures keys == {} || (world.listing.Ok? && keys == ExistingKeys(world.listing.value))
    ensures world.listing.Err? ==> keys == {}
    ensures Sheets.FetchEventsSpec(world.service, SheetIdOf(rt), world.fetched).Ok? ==>
      keys == if old(rt.ClientAvailable()) && world.listing.Ok? then ExistingKeys(world.listing.value) else {}
    ensures |verdicts| == |events|
    ensures forall i :: 0 <= i < |events| ==> (verdicts[i] == Skip <==> RecordKey(events[i]) in keys)
    ensures results == ResultsOf(events, RecordName, verdicts)
    ensures pauses + |results.skipped| == |events|
    ensures ok <==> Sheets.FetchEventsSpec(world.service, SheetIdOf(rt), world.fetched).Ok? && Failure !in verdicts
    ensures AttemptsMatch(verdicts, old(rt.ClientAvailable()), world.creates)
    ensures ok <==>
      && Sheets.FetchEventsSpec(world.service, SheetIdOf(rt), world.fetched).Ok?
      && (forall i :: 0 <= i < |events| && RecordKey(events[i]) !in keys ==>
            old(rt.ClientAvailable()) && world.creates(i).created.Ok?)
  {
    var fetched := Sheets.FetchEvents(world.service, SheetIdOf(rt), world.fetched);
    if fetched.Err? {
      return false, [], {}, [], ResultsOf([], RecordName, []), 0;
    }
    events := fetched.value;
    FetchedDatesConvert(world.service, SheetIdOf(rt), world.fetched);
    keys := GetExistingEventKeys(rt, world.listing);
    verdicts, results, pauses := CreateOrSkip(rt, autoCreateTickets, events, keys, world.creates, world.stamp);
    SelectEmptyIff(events, RecordName, verdicts, Failure);
    NoFailureIff(events, keys, verdicts, old(rt.ClientAvailable()), world.creates);
    ok := results.failed == [];
  }
}
