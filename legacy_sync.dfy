/**
 * The stand-alone sync script sync_events.py, which predates the event_sync package: it reads
 * sheet rows at fixed column positions, identifies events by name and date only, creates the
 * missing ones and checks its five settings. Calls to Google and Wix are given as their outcomes.
 */
module LegacySync {
  import opened Wrappers
  import opened Text
  import opened Config
  import opened WixApi
  import opened Partition
  import Sheets
  import Orchestrator
  import Runtime

  // ----- fetch_events_from_sheet -----

  /** The event dictionary built from one sheet row (columns A to L). */
  datatype SheetEvent = SheetEvent(
    name: string,
    eventType: string,
    startDate: string,
    startTime: string,
    endDate: string,
    endTime: string,
    location: string,
    description: string,
    ticketPrice: real,
    capacity: int,
    registrationType: string,
    imageUrl: string)

  /** Why the fetch raises. */
  datatype FetchError =
    | ServiceUnavailable(reason: string)   // building the Sheets service failed
    | RequestFailed(reason: string)        // the values request failed
    | BadPrice(cell: string)               // `float()` rejected a price cell
    | BadCapacity(cell: string)            // `int()` rejected a capacity cell

  /** Every row is padded to the twelve columns A to L before it is read. */
  const RowWidth: nat := 12

  /** `float(cell) if cell else 0.0`, None where `float()` raises. */
  function PriceOf(cell: string): Option<real> {
    if cell == "" then Some(0.0) else ParseFloat(cell)
  }

  /** `int(cell) if cell else 100`, None where `int()` raises. */
  function CapacityOf(cell: string): Option<int> {
    if cell == "" then Some(100) else ParseInt(cell)
  }

  /** `row[10] or 'RSVP'`, then the exact spelling TICKETS renamed to TICKETING. */
  function RegistrationOf(cell: string): string {
    var regType := if cell == "" then "RSVP" else cell;
    if regType == "TICKETS" then "TICKETING" else regType
  }

  /** The event of one padded row, or the error its price or (after it) its capacity cell raises. */
  function ConvertRow(row: seq<string>): Result<SheetEvent, FetchError>
    requires |row| >= RowWidth
  {
    match PriceOf(row[8])
    case None => Err(BadPrice(row[8]))
    case Some(price) =>
      match CapacityOf(row[9])
      case None => Err(BadCapacity(row[9]))
      case Some(capacity) =>
        Ok(SheetEvent(row[0], row[1], row[2], row[3], row[4], row[5], row[6], row[7], price, capacity,
                      RegistrationOf(row[10]), row[11]))
  }

  /** The event of a row once padded. */
  function ConvertPadded(row: seq<string>): Result<SheetEvent, FetchError> {
    ConvertRow(Sheets.PadRow(row, RowWidth))
  }

  /** The results of converting each item in order, or the error of the first that fails. */
  function ConvertAll<R, T, E>(items: seq<R>, convert: R -> Result<T, E>): Result<seq<T>, E> {
    if items == [] then Ok([])
    else
      var n := |items| - 1;
      match ConvertAll(items[..n], convert)
      case Err(error) => Err(error)
      case Ok(done) =>
        match convert(items[n])
        case Err(error) => Err(error)
        case Ok(x) => Ok(done + [x])
  }

  /** The events of a run of rows in row order, or the error of the first row that raises. */
  function ConvertRows(rows: seq<seq<string>>): Result<seq<SheetEvent>, FetchError> {
    ConvertAll(rows, ConvertPadded)
  }

  /** What `fetch_events_from_sheet` returns or raises, given the service and the values request outcome. */
  function FetchSpec(service: Result<(), string>, fetched: Result<seq<seq<string>>, string>)
    : Result<seq<SheetEvent>, FetchError>
  {
    if service.Err? then Err(ServiceUnavailable(service.error))
    else if fetched.Err? then Err(RequestFailed(fetched.error))
    else ConvertRows(fetched.value)
  }

  /** A row all of whose numeric cells are empty or numbers. */
  predicate NumbersParse(row: seq<string>) {
    var padded := Sheets.PadRow(row, RowWidth);
    PriceOf(padded[8]).Some? && CapacityOf(padded[9]).Some?
  }

  /** The row padding loop: append empty cells until the row has twelve. */
  method PadRow(row: seq<string>) returns (padded: seq<string>)
    ensures padded == Sheets.PadRow(row, RowWidth)
  {
    padded := row;
    while |padded| < RowWidth
      invariant Sheets.PadRow(padded, RowWidth) == Sheets.PadRow(row, RowWidth)
      decreases RowWidth - |padded|
    {
      Sheets.PadStep(padded, RowWidth);
      padded := padded + [""];
    }
  }

  /** Once a prefix of the items fails, the whole run fails with the same error. */
  lemma {:induction false} ConvertAllErrPrefix<R, T, E>(items: seq<R>, convert: R -> Result<T, E>, i: nat)
    requires i <= |items| && ConvertAll(items[..i], convert).Err?
    ensures ConvertAll(items, convert) == ConvertAll(items[..i], convert)
    decreases |items| - i
  {
    if i < |items| {
      assert items[..i + 1][..i] == items[..i];
      ConvertAllErrPrefix(items, convert, i + 1);
    } else {
      assert items[..i] == items;
    }
  }

  /** One more row: its event is appended, or its error ends the run. */
  lemma ConvertRowsStep(rows: seq<seq<string>>, i: nat, events: seq<SheetEvent>)
    requires i < |rows| && ConvertRows(rows[..i]) == Ok(events)
    ensures ConvertRows(rows[..i + 1]) ==
      if ConvertPadded(rows[i]).Ok? then Ok(events + [ConvertPadded(rows[i]).value])
      else Err(ConvertPadded(rows[i]).error)
  {
    assert rows[..i + 1][..i] == rows[..i];
  }

  /**
   * `fetch_events_from_sheet` with the service and the values request outcome given: every row,
   * padded in place, becomes one event; the first price or capacity that does not parse aborts the
   * whole fetch.
   */
  method FetchEventsFromSheet(service: Result<(), string>, fetched: Result<seq<seq<string>>, string>)
    returns (r: Result<seq<SheetEvent>, FetchError>)
    ensures r == FetchSpec(service, fetched)
  {
    if service.Err? {
      return Err(ServiceUnavailable(service.error));
    }
    if fetched.Err? {
      return Err(RequestFailed(fetched.error));
    }
    var rows := fetched.value;
    var events := [];
    for i := 0 to |rows|
      invariant ConvertRows(rows[..i]) == Ok(events)
    {
      ConvertRowsStep(rows, i, events);
      var row := PadRow(rows[i]);
      var converted := ConvertRow(row);
      if converted.Err? {
        ConvertAllErrPrefix(rows, ConvertPadded, i + 1);
        return Err(converted.error);
      }
      events := events + [converted.value];
    }
    assert rows[..|rows|] == rows;
    r := Ok(events);
  }

  /** A run converts exactly when each item does, and then into their results in order. */
  lemma {:induction false} ConvertAllOkIff<R, T, E>(items: seq<R>, convert: R -> Result<T, E>)
    ensures ConvertAll(items, convert).Ok? <==> forall i :: 0 <= i < |items| ==> convert(items[i]).Ok?
    ensures ConvertAll(items, convert).Ok? ==>
      && |ConvertAll(items, convert).value| == |items|
      && forall i :: 0 <= i < |items| ==> ConvertAll(items, convert).value[i] == convert(items[i]).value
  {
    if items != [] {
      var n := |items| - 1;
      ConvertAllOkIff(items[..n], convert);
      assert forall i :: 0 <= i < n ==> items[..n][i] == items[i];
    }
  }

  /** A padded row converts exactly when its numeric cells parse. */
  lemma ConvertPaddedOk(row: seq<string>)
    ensures ConvertPadded(row).Ok? <==> NumbersParse(row)
  {
  }

  /**
   * The fetch succeeds exactly when every row's numeric cells parse, and then yields one event per
   * row, in row order, read from the padded row.
   */
  lemma ConvertRowsOkIff(rows: seq<seq<string>>)
    ensures ConvertRows(rows).Ok? <==> forall i :: 0 <= i < |rows| ==> NumbersParse(rows[i])
    ensures ConvertRows(rows).Ok? ==>
      && |ConvertRows(rows).value| == |rows|
      && forall i :: 0 <= i < |rows| ==> ConvertRows(rows).value[i] == ConvertPadded(rows[i]).value
  {
    ConvertAllOkIff(rows, ConvertPadded);
    forall i | 0 <= i < |rows|
      ensures ConvertPadded(rows[i]).Ok? <==> NumbersParse(rows[i])
    {
      ConvertPaddedOk(rows[i]);
    }
  }

  /** A price or capacity cell that does not parse, in any row, makes the whole fetch raise. */
  lemma BadNumberAbortsFetch(fetched: seq<seq<string>>, i: nat)
    requires i < |fetched| && !NumbersParse(fetched[i])
    ensures FetchSpec(Ok(()), Ok(fetched)).Err?
  {
    ConvertRowsOkIff(fetched);
  }

  /**
   * How one row's cells are read: an empty price is 0.0 and an empty capacity 100; an empty
   * registration is RSVP, exactly TICKETS becomes TICKETING, and any other spelling is kept as is.
   */
  lemma RowCells(row: seq<string>)
    requires |row| >= RowWidth && ConvertRow(row).Ok?
    ensures var e := ConvertRow(row).value;
      && e.name == row[0] && e.startDate == row[2] && e.startTime == row[3] && e.imageUrl == row[11]
      && (row[8] == "" ==> e.ticketPrice == 0.0)
      && (row[9] == "" ==> e.capacity == 100)
      && (row[10] == "" ==> e.registrationType == "RSVP")
      && (row[10] == "TICKETS" ==> e.registrationType == "TICKETING")
      && (row[10] !in {"", "TICKETS"} ==> e.registrationType == row[10])
  {
  }

  /** The TICKETS rename is case-sensitive: "tickets" is passed on unchanged. */
  lemma LowerCaseTicketsKept()
    ensures RegistrationOf("tickets") == "tickets"
  {
    assert "tickets" != "TICKETS" by {
      assert "tickets"[0] != "TICKETS"[0];
    }
  }

  // ----- get_existing_event_keys -----

  /** The key of a listed event: its title and the date part of its start; None without a start. */
  function ExistingKey(e: WixEvent): Option<string> {
    var start := StartOf(e);
    if start == "" then None else Some(TitleOf(e) + "|" + Split(start, 'T')[0])
  }

  /** The key a sheet event is looked up under: its name and start date, with no time. */
  function SheetKey(e: SheetEvent): string {
    e.name + "|" + e.startDate
  }

  /**
   * `get_existing_event_keys` with the listing outcome given (a client that cannot be built fails
   * the listing too): the keys of the listed events, or none when listing fails.
   */
  method GetExistingEventKeys(listing: Result<seq<WixEvent>, string>) returns (keys: set<string>)
    ensures listing.Err? ==> keys == {}
    ensures listing.Ok? ==> keys == Orchestrator.KeysBy(listing.value, ExistingKey)
  {
    if listing.Err? {
      return {};
    }
    var events := listing.value;
    keys := {};
    for i := 0 to |events|
      invariant keys == Orchestrator.KeysBy(events[..i], ExistingKey)
    {
      assert events[..i + 1][..i] == events[..i];
      var start := StartOf(events[i]);
      if start != "" {
        var datePart := Split(start, 'T')[0];
        keys := keys + {TitleOf(events[i]) + "|" + datePart};
      }
    }
    assert events[..|events|] == events;
  }

  /** The first bar of "a|b" is the one after `a` when `a` holds none. */
  lemma FirstBar(a: string, b: string)
    requires '|' !in a
    ensures IndexOf(a + "|" + b, '|') == |a|
  {
    var x := a + "|" + b;
    assert x[|a|] == '|';
    assert forall i :: 0 <= i < |a| ==> x[i] == a[i];
  }

  /** Two "a|b" keys whose first parts hold no bar are equal exactly when both parts are. */
  lemma BarKeyInjective(a: string, b: string, c: string, d: string)
    requires '|' !in a && '|' !in c
    ensures a + "|" + b == c + "|" + d <==> a == c && b == d
  {
    var x, y := a + "|" + b, c + "|" + d;
    FirstBar(a, b);
    FirstBar(c, d);
    if x == y {
      assert |a| == |c|;
      assert a == x[..|a|] && c == y[..|c|];
      assert b == x[|a| + 1..] && d == y[|c| + 1..];
    }
  }

  /**
   * With no bar in the names, a listed event carries a sheet event's key exactly when it has a
   * start, the same title, and the sheet's start date before the start's first "T".
   */
  lemma KeyMatchIff(listed: WixEvent, e: SheetEvent)
    requires '|' !in TitleOf(listed) && '|' !in e.name
    ensures ExistingKey(listed) == Some(SheetKey(e)) <==>
      StartOf(listed) != "" && TitleOf(listed) == e.name && Split(StartOf(listed), 'T')[0] == e.startDate
  {
    if StartOf(listed) != "" {
      BarKeyInjective(TitleOf(listed), Split(StartOf(listed), 'T')[0], e.name, e.startDate);
    }
  }

  // ----- create_wix_event -----

  /** The timezone the script sends with every event. */
  const Timezone := "America/Toronto"

  /** The `event_data` body `create_wix_event` posts. */
  datatype EventData = EventData(
    title: string,
    dateAndTimeTbd: bool,
    startDate: string,
    endDate: string,
    timeZoneId: string,
    locationType: string,
    formattedAddress: string,
    initialType: string,
    mainImageId: Option<Runtime.MediaDescriptor>)   // sent as `mainImage.id`

  /**
   * The outcomes one `create_wix_event` may see. The ticket call's outcome is not among them, as it
   * does not change the result.
   */
  datatype CreateWorld = CreateWorld(
    upload: Option<Runtime.MediaDescriptor>,   // what `upload_image_to_wix` returns: the file descriptor
    created: Result<Option<string>, string>)   // the client and create call: the new event's `id`

  /**
   * The `media_id` of an event: uploaded only when it has an image URL, and an empty descriptor
   * counts as none. Although annotated as a string, it is the whole file descriptor dictionary
   * `upload_image` returns, and that dictionary is what the body sends as the main image's `id`.
   */
  function MediaIdOf(e: SheetEvent, upload: Option<Runtime.MediaDescriptor>): Option<Runtime.MediaDescriptor> {
    if e.imageUrl != "" && upload.Some? && Runtime.DescriptorGiven(upload.value) then upload else None
  }

  /** The body posted for an event with its media id: local dates and times marked as UTC. */
  function EventDataOf(e: SheetEvent, mediaId: Option<Runtime.MediaDescriptor>): EventData {
    EventData(e.name, false, Orchestrator.NaiveTimestamp(e.startDate, e.startTime),
              Orchestrator.NaiveTimestamp(e.endDate, e.endTime), Timezone, "VENUE", e.location,
              e.registrationType, mediaId)
  }

  /** A ticket is provisioned only when enabled, for a ticketed event with a positive price. */
  predicate ShouldCreateTicket(e: SheetEvent, autoCreateTickets: bool) {
    autoCreateTickets && e.registrationType == "TICKETING" && e.ticketPrice > 0.0
  }

  /** The "General Admission" ticket for an event: its price and, when non-zero, its capacity. */
  function AdmissionTicket(eventId: Option<string>, e: SheetEvent): TicketDefinition {
    TicketDefinition(eventId, "General Admission", 10, e.ticketPrice, DefaultCurrency, "FEE_ADDED_AT_CHECKOUT",
                     if e.capacity != 0 then Some(true) else None, if e.capacity != 0 then Some(e.capacity) else None)
  }

  /**
   * `create_wix_event`: uploads the image when the event has a URL, builds the body, posts it and,
   * when due, its ticket. The result is whether the create call succeeded; a failed ticket call
   * does not change it.
   */
  method CreateWixEvent(e: SheetEvent, autoCreateTickets: bool, world: CreateWorld)
    returns (ok: bool, data: EventData, ticket: Option<TicketDefinition>)
    ensures data == EventDataOf(e, MediaIdOf(e, world.upload))
    ensures ok <==> world.created.Ok?
    ensures ticket.Some? <==> ok && ShouldCreateTicket(e, autoCreateTickets)
    ensures ticket.Some? ==> ticket.value == AdmissionTicket(world.created.value, e)
  {
    var mediaId: Option<Runtime.MediaDescriptor> := None;
    if e.imageUrl != "" {
      mediaId := world.upload;
    }
    data := EventData(e.name, false, Orchestrator.NaiveTimestamp(e.startDate, e.startTime),
                      Orchestrator.NaiveTimestamp(e.endDate, e.endTime), Timezone, "VENUE", e.location,
                      e.registrationType, None);
    if mediaId.Some? && Runtime.DescriptorGiven(mediaId.value) {
      data := data.(mainImageId := mediaId);
    }
    if world.created.Err? {
      return false, data, None;
    }
    ticket := None;
    if ShouldCreateTicket(e, autoCreateTickets) {
      var definition := TicketPayload(world.created.value, "General Admission", e.ticketPrice, Some(e.capacity),
                                      DefaultCurrency);
      ticket := Some(definition);
    }
    ok := true;
  }

  /**
   * An event created from the sheet, once Wix lists it with the start it was sent, carries the sheet
   * event's key: the next run skips it, whatever its start time.
   */
  lemma CreatedEventRecognised(e: SheetEvent, mediaId: Option<Runtime.MediaDescriptor>, listed: WixEvent)
    requires 'T' !in e.startDate
    requires listed.title == Some(EventDataOf(e, mediaId).title)
    requires listed.startDate == Some(EventDataOf(e, mediaId).startDate)
    ensures ExistingKey(listed) == Some(SheetKey(e))
  {
    var rest := e.startTime + ":00Z";
    assert StartOf(listed) == e.startDate + ['T'] + rest;
    SplitAt(e.startDate, 'T', rest);
  }

  // ----- sync_events -----

  /** The name an event is listed under in `results`. */
  function EventName(e: SheetEvent): string {
    e.name
  }

  /** One attempted create, as the loop sees it: whether it succeeded. */
  method AttemptCreate(e: SheetEvent, autoCreateTickets: bool, world: CreateWorld) returns (created: bool)
    ensures created <==> world.created.Ok?
  {
    var data, ticket;
    created, data, ticket := CreateWixEvent(e, autoCreateTickets, world);
  }

  /** Every event that was attempted is a success exactly when its create call succeeded. */
  predicate AttemptsMatch(verdicts: seq<Verdict>, creates: nat -> CreateWorld) {
    forall j :: 0 <= j < |verdicts| && verdicts[j] != Skip ==> (verdicts[j] == Success <==> creates(j).created.Ok?)
  }

  /** One more verdict that matches its create call keeps the verdicts matching. */
  lemma AttemptsMatchSnoc(verdicts: seq<Verdict>, v: Verdict, creates: nat -> CreateWorld)
    requires AttemptsMatch(verdicts, creates)
    requires v != Skip ==> (v == Success <==> creates(|verdicts|).created.Ok?)
    ensures AttemptsMatch(verdicts + [v], creates)
  {
    assert forall j :: 0 <= j < |verdicts| ==> (verdicts + [v])[j] == verdicts[j];
  }

  /** One pass of the loop: skip a known key, otherwise attempt the create. */
  method SkipOrCreate(e: SheetEvent, autoCreateTickets: bool, keys: set<string>, world: CreateWorld)
    returns (verdict: Verdict)
    ensures verdict == Skip <==> SheetKey(e) in keys
    ensures verdict != Skip ==> (verdict == Success <==> world.created.Ok?)
  {
    var eventKey := e.name + "|" + e.startDate;
    if eventKey in keys {
      return Skip;
    }
    var created := AttemptCreate(e, autoCreateTickets, world);
    verdict := if created then Success else Failure;
  }

  /**
   * The loop of `sync_events`: an event whose key is known is skipped; any other is attempted once,
   * lands in `success` or `failed`, and is followed by one pause. The known keys are not extended.
   */
  method CreateOrSkip(autoCreateTickets: bool, events: seq<SheetEvent>, keys: set<string>,
                      creates: nat -> CreateWorld)
    returns (verdicts: seq<Verdict>, results: SyncResults, pauses: nat)
    ensures |verdicts| == |events|
    ensures forall i :: 0 <= i < |events| ==> (verdicts[i] == Skip <==> SheetKey(events[i]) in keys)
    ensures forall i :: 0 <= i < |events| && verdicts[i] != Skip ==>
      (verdicts[i] == Success <==> creates(i).created.Ok?)
    ensures results == ResultsOf(events, EventName, verdicts)
    ensures pauses + |results.skipped| == |events|
  {
    verdicts, pauses := [], 0;
    results := SyncResults([], [], []);
    for i := 0 to |events|
      invariant |verdicts| == i
      invariant SkipsMatch(events[..i], SheetKey, verdicts, keys)
      invariant AttemptsMatch(verdicts, creates)
      invariant results == ResultsOf(events[..i], EventName, verdicts)
      invariant pauses + |results.skipped| == i
    {
      var verdict := SkipOrCreate(events[i], autoCreateTickets, keys, creates(i));
      if verdict != Skip {
        pauses := pauses + 1;
      }
      AttemptsMatchSnoc(verdicts, verdict, creates);
      verdicts, results := Record(events, EventName, SheetKey, i, keys, verdicts, results, verdict);
    }
    assert events[..|events|] == events;
    SkipsMatchAll(events, SheetKey, verdicts, keys);
  }

  /**
   * No event failed exactly when every event whose key is not known was created: its create call
   * succeeded.
   */
  lemma {:induction false} NoFailureIff(events: seq<SheetEvent>, keys: set<string>, verdicts: seq<Verdict>,
                                        creates: nat -> CreateWorld)
    requires |verdicts| == |events|
    requires forall i :: 0 <= i < |events| ==> (verdicts[i] == Skip <==> SheetKey(events[i]) in keys)
    requires AttemptsMatch(verdicts, creates)
    ensures Failure !in verdicts <==>
      forall i :: 0 <= i < |events| && SheetKey(events[i]) !in keys ==> creates(i).created.Ok?
  {
    if Failure in verdicts {
      var i :| 0 <= i < |verdicts| && verdicts[i] == Failure;
      assert SheetKey(events[i]) !in keys;
    }
  }

  /** The outcomes one run of the script's `sync_events` may see. */
  datatype SyncWorld = SyncWorld(
    service: Result<(), string>,
    fetched: Result<seq<seq<string>>, string>,
    listing: Result<seq<WixEvent>, string>,
    creates: nat -> CreateWorld)   // the outcomes for the i-th sheet event

  /**
   * `sync_events`: fetches the sheet events and the existing keys, then runs the create-or-skip
   * loop. A fetch that raises ends the run with false; otherwise the result is true exactly when
   * no create failed.
   */
  method SyncEvents(autoCreateTickets: bool, world: SyncWorld)
    returns (ok: bool, events: seq<SheetEvent>, keys: set<string>, verdicts: seq<Verdict>,
             results: SyncResults, pauses: nat)
    ensures FetchSpec(world.service, world.fetched).Err? ==> !ok && events == [] && keys == {}
    ensures FetchSpec(world.service, world.fetched).Ok? ==>
      && events == FetchSpec(world.service, world.fetched).value
      && keys == (if world.listing.Ok? then Orchestrator.KeysBy(world.listing.value, ExistingKey) else {})
    ensures |verdicts| == |events|
    ensures forall i :: 0 <= i < |events| ==> (verdicts[i] == Skip <==> SheetKey(events[i]) in keys)
    ensures results == ResultsOf(events, EventName, verdicts)
    ensures pauses + |results.skipped| == |events|
    ensures ok <==> FetchSpec(world.service, world.fetched).Ok? && results.failed == []
    ensures ok <==> FetchSpec(world.service, world.fetched).Ok? && Failure !in verdicts
    ensures AttemptsMatch(verdicts, world.creates)
    ensures ok <==>
      && FetchSpec(world.service, world.fetched).Ok?
      && (forall i :: 0 <= i < |events| && SheetKey(events[i]) !in keys ==> world.creates(i).created.Ok?)
  {
    var fetched := FetchEventsFromSheet(world.service, world.fetched);
    if fetched.Err? {
      return false, [], {}, [], ResultsOf([], EventName, []), 0;
    }
    events := fetched.value;
    keys := GetExistingEventKeys(world.listing);
    verdicts, results, pauses := CreateOrSkip(autoCreateTickets, events, keys, world.creates);
    SelectEmptyIff(events, EventName, verdicts, Failure);
    NoFailureIff(events, keys, verdicts, world.creates);
    ok := results.failed == [];
  }

  // ----- validate_credentials -----

  /** The five settings the script reads from the environment. */
  datatype Settings = Settings(
    wixApiKey: Option<string>,
    wixAccountId: Option<string>,
    wixSiteId: Option<string>,
    googleSheetId: Option<string>,
    googleCredentials: Option<string>)

  /** The `checks` dictionary, in its insertion order. */
  function Checks(s: Settings): seq<(string, Option<string>)> {
    [("WIX_API_KEY", s.wixApiKey), ("WIX_ACCOUNT_ID", s.wixAccountId), ("WIX_SITE_ID", s.wixSiteId),
     ("GOOGLE_SHEET_ID", s.googleSheetId), ("GOOGLE_CREDENTIALS", s.googleCredentials)]
  }

  /** Whether one check passes: the value is set and, for the credentials, parses with a client_email. */
  predicate CheckPasses(name: string, value: Option<string>, parse: string -> JsonParse) {
    Present(value) &&
      (name == "GOOGLE_CREDENTIALS" ==> parse(value.value).Parsed? && "client_email" in parse(value.value).doc.keys)
  }

  /** The names of the failing checks, in order. */
  function Failing(checks: seq<(string, Option<string>)>, parse: string -> JsonParse): (r: seq<string>)
    ensures |r| <= |checks|
  {
    if checks == [] then []
    else
      var n := |checks| - 1;
      Failing(checks[..n], parse) + (if CheckPasses(checks[n].0, checks[n].1, parse) then [] else [checks[n].0])
  }

  /** No check fails exactly when every check passes. */
  lemma {:induction false} FailingEmptyIff(checks: seq<(string, Option<string>)>, parse: string -> JsonParse)
    ensures Failing(checks, parse) == [] <==> forall i :: 0 <= i < |checks| ==> CheckPasses(checks[i].0, checks[i].1, parse)
  {
    if checks != [] {
      var n := |checks| - 1;
      FailingEmptyIff(checks[..n], parse);
      assert forall i :: 0 <= i < n ==> checks[..n][i] == checks[i];
    }
  }

  /**
   * `validate_credentials` with `json.loads` given: reports each failing setting, in order, and
   * returns whether none failed.
   */
  method ValidateCredentials(s: Settings, parse: string -> JsonParse) returns (allValid: bool, failing: seq<string>)
    ensures failing == Failing(Checks(s), parse)
    ensures allValid <==> failing == []
  {
    var checks := Checks(s);
    allValid, failing := true, [];
    for i := 0 to |checks|
      invariant failing == Failing(checks[..i], parse)
      invariant allValid <==> failing == []
    {
      assert checks[..i + 1][..i] == checks[..i];
      var (name, value) := checks[i];
      if !Present(value) {
        allValid, failing := false, failing + [name];
      } else if name == "GOOGLE_CREDENTIALS" {
        match parse(value.value)
        case Malformed =>
          allValid, failing := false, failing + [name];
        case Parsed(creds) =>
          if "client_email" !in creds.keys {
            allValid, failing := false, failing + [name];
          }
      }
    }
    assert checks[..|checks|] == checks;
  }

  /**
   * The script accepts its settings exactly when all five are set and the credentials parse with a
   * client_email — the package's credentials check, plus the account id the package never checks.
   */
  lemma ValidIffAllPresent(s: Settings, parse: string -> JsonParse)
    ensures Failing(Checks(s), parse) == [] <==>
      && Present(s.wixApiKey) && Present(s.wixAccountId) && Present(s.wixSiteId) && Present(s.googleSheetId)
      && ParsedCredentials(s.googleCredentials, parse).Some?
  {
    var checks := Checks(s);
    FailingEmptyIff(checks, parse);
    assert "WIX_API_KEY" != "GOOGLE_CREDENTIALS" && "WIX_ACCOUNT_ID" != "GOOGLE_CREDENTIALS";
    assert "WIX_SITE_ID" != "GOOGLE_CREDENTIALS" && "GOOGLE_SHEET_ID" != "GOOGLE_CREDENTIALS";
    assert (forall i :: 0 <= i < |checks| ==> CheckPasses(checks[i].0, checks[i].1, parse)) <==>
      && CheckPasses(checks[0].0, checks[0].1, parse) && CheckPasses(checks[1].0, checks[1].1, parse)
      && CheckPasses(checks[2].0, checks[2].1, parse) && CheckPasses(checks[3].0, checks[3].1, parse)
      && CheckPasses(checks[4].0, checks[4].1, parse);
  }
}
