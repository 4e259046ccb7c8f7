/**
 * The event maintenance tool dev_events.py: the test event body `create_test_event` posts, the
 * selection and deletion loops of `bulk_delete_events` and `delete_events_after_date`, the sample
 * events of `create_sample_events` and the registration type check of `main`. The listing, the
 * create and delete calls and the clock are given.
 */
module DevEvents {
  import opened Wrappers
  import opened Text
  import opened Utils
  import opened WixApi

  // ----- create_test_event -----

  /** The registration types `main` accepts for `create`. */
  const ValidTypes: seq<string> := ["RSVP", "TICKETS", "EXTERNAL", "NO_REGISTRATION"]

  /** The `registration.initialType` sent for a requested type; None when no registration is sent. */
  function InitialTypeFor(registrationType: string): Option<string> {
    if registrationType == "TICKETS" then Some("TICKETING")
    else if registrationType == "RSVP" then Some("RSVP")
    else if registrationType == "EXTERNAL" then Some("EXTERNAL")
    else if registrationType == "NO_REGISTRATION" then Some("NO_REGISTRATION")
    else None
  }

  /** A test event body; start and end are instants in seconds, their text form is not modelled. */
  datatype TestEvent = TestEvent(
    title: string,
    dateAndTimeTbd: bool,
    start: int,
    end: int,
    timeZoneId: string,
    locationType: string,
    formattedAddress: string,
    initialType: Option<string>)

  const SecondsPerDay := 86400
  const SecondsPerHour := 3600

  /**
   * The body `create_test_event` builds: it starts the given number of days after `now`, ends
   * the given number of hours after its start, and carries a registration only for a known type.
   * The draft flag is not part of the body.
   */
  method TestEventData(title: string, now: int, daysFromNow: int, durationHours: int, location: string,
                       registrationType: string) returns (data: TestEvent)
    ensures data.title == title && data.formattedAddress == location && !data.dateAndTimeTbd
    ensures data.start == now + daysFromNow * SecondsPerDay
    ensures data.end == data.start + durationHours * SecondsPerHour
    ensures data.timeZoneId == "America/Toronto" && data.locationType == "VENUE"
    ensures data.initialType == InitialTypeFor(registrationType)
  {
    var start := now + daysFromNow * SecondsPerDay;
    var end := start + durationHours * SecondsPerHour;
    var createTickets := registrationType == "TICKETS";
    data := TestEvent(title, false, start, end, "America/Toronto", "VENUE", location, None);
    if createTickets {
      data := data.(initialType := Some("TICKETING"));
    } else if registrationType == "RSVP" {
      data := data.(initialType := Some("RSVP"));
    } else if registrationType == "EXTERNAL" {
      data := data.(initialType := Some("EXTERNAL"));
    } else if registrationType == "NO_REGISTRATION" {
      data := data.(initialType := Some("NO_REGISTRATION"));
    }
  }

  /**
   * A registration is sent exactly for the types `main` accepts; TICKETS is the only one renamed,
   * to TICKETING, and the others are sent as they are.
   */
  lemma InitialTypeIffValid(registrationType: string)
    ensures InitialTypeFor(registrationType).Some? <==> registrationType in ValidTypes
    ensures registrationType in ValidTypes && registrationType != "TICKETS" ==>
      InitialTypeFor(registrationType) == Some(registrationType)
    ensures InitialTypeFor(registrationType) != Some("TICKETS")
  {
  }

  /**
   * `main`'s `create` check: the requested type (RSVP when none is given) upper-cased, accepted
   * only when it is one of the valid types; None stands for the error exit.
   */
  function AcceptedType(argument: Option<string>): (r: Option<string>)
    ensures r.Some? ==> r.value in ValidTypes
    ensures argument.None? ==> r == Some("RSVP")
    ensures argument.Some? ==> (r.Some? <==> Upper(argument.value) in ValidTypes)
  {
    var registrationType := if argument.Some? then Upper(argument.value) else "RSVP";
    if registrationType in ValidTypes then Some(registrationType) else None
  }

  /** Every type `main` lets through reaches Wix as a registration; "tickets" reaches it as TICKETING. */
  lemma AcceptedTypesRegister(argument: Option<string>)
    requires AcceptedType(argument).Some?
    ensures InitialTypeFor(AcceptedType(argument).value).Some?
    ensures argument == Some("tickets") ==> InitialTypeFor(AcceptedType(argument).value) == Some("TICKETING")
  {
    InitialTypeIffValid(AcceptedType(argument).value);
    if argument == Some("tickets") {
      assert Upper("tickets") == "TICKETS";
    }
  }

  // ----- selection for bulk deletion -----

  /** `if pattern`: a pattern that is given and non-empty. */
  predicate PatternGiven(pattern: Option<string>) {
    pattern.Some? && pattern.value != ""
  }

  /** An event `bulk_delete_events` keeps: its title matches the pattern, and it is a draft when asked. */
  predicate Matches(e: WixEvent, pattern: Option<string>, draftsOnly: bool) {
    && (PatternGiven(pattern) ==> TitleMatches(e, pattern.value))
    && (draftsOnly ==> e.status == Some("DRAFT"))
  }

  /** The events kept, in listing order. */
  function Selected(events: seq<WixEvent>, pattern: Option<string>, draftsOnly: bool): seq<WixEvent> {
    if events == [] then []
    else
      var n := |events| - 1;
      Selected(events[..n], pattern, draftsOnly) + (if Matches(events[n], pattern, draftsOnly) then [events[n]] else [])
  }

  /** The filter loop of `bulk_delete_events`. */
  method SelectForDelete(events: seq<WixEvent>, pattern: Option<string>, draftsOnly: bool)
    returns (toDelete: seq<WixEvent>)
    ensures toDelete == Selected(events, pattern, draftsOnly)
  {
    toDelete := [];
    for i := 0 to |events|
      invariant toDelete == Selected(events[..i], pattern, draftsOnly)
    {
      assert events[..i + 1][..i] == events[..i];
      var event := events[i];
      if PatternGiven(pattern) && !Contains(Lower(TitleOf(event)), Lower(pattern.value)) {
        continue;
      }
      if draftsOnly && event.status != Some("DRAFT") {
        continue;
      }
      toDelete := toDelete + [event];
    }
    assert events[..|events|] == events;
  }

  /** An event is selected exactly when it is listed and matches. */
  lemma {:induction false} SelectedMembers(events: seq<WixEvent>, pattern: Option<string>, draftsOnly: bool, e: WixEvent)
    ensures e in Selected(events, pattern, draftsOnly) <==> e in events && Matches(e, pattern, draftsOnly)
  {
    if events != [] {
      var n := |events| - 1;
      SelectedMembers(events[..n], pattern, draftsOnly, e);
      assert events == events[..n] + [events[n]];
    }
  }

  /** Selecting by a pattern alone selects what `search_events_by_title` finds, in the same order. */
  lemma {:induction false} PatternSelectsSearch(events: seq<WixEvent>, pattern: string)
    requires pattern != ""
    ensures Selected(events, Some(pattern), false) == SearchEventsByTitle(events, pattern)
  {
    if events != [] {
      var n := |events| - 1;
      PatternSelectsSearch(events[..n], pattern);
      assert events == events[..n] + [events[n]];
      SearchAppend(events[..n], [events[n]], pattern);
    }
  }

  /** With neither a pattern nor the draft filter every listed event is selected. */
  lemma {:induction false} NoFilterSelectsAll(events: seq<WixEvent>)
    ensures Selected(events, None, false) == events
  {
    if events != [] {
      NoFilterSelectsAll(events[..|events| - 1]);
    }
  }

  // ----- the deletion loop -----

  /** The ids of events, as the loop passes them to `delete_event`. */
  function Ids(events: seq<WixEvent>): (ids: seq<Option<string>>)
    ensures |ids| == |events|
    ensures forall i :: 0 <= i < |events| ==> ids[i] == events[i].id
  {
    if events == [] then [] else Ids(events[..|events| - 1]) + [events[|events| - 1].id]
  }

  /** How many of the first `n` delete calls reported success. */
  function Deleted(outcomes: nat -> Result<bool, string>, n: nat): (k: nat)
    ensures k <= n
  {
    if n == 0 then 0 else Deleted(outcomes, n - 1) + (if outcomes(n - 1) == Ok(true) then 1 else 0)
  }

  /**
   * The deletion loop shared by `bulk_delete_events` and `delete_events_after_date`: one delete
   * call per selected event, in order; a call that returns true counts as deleted, one that
   * returns false or raises as failed; each call is followed by one pause.
   */
  method DeleteEach(toDelete: seq<WixEvent>, outcomes: nat -> Result<bool, string>)
    returns (calls: seq<Option<string>>, deleted: nat, failed: nat, pauses: nat)
    ensures calls == Ids(toDelete)
    ensures deleted == Deleted(outcomes, |toDelete|)
    ensures deleted + failed == |toDelete| && pauses == |toDelete|
  {
    calls, deleted, failed, pauses := [], 0, 0, 0;
    for i := 0 to |toDelete|
      invariant calls == Ids(toDelete[..i])
      invariant deleted == Deleted(outcomes, i)
      invariant deleted + failed == i && pauses == i
    {
      assert toDelete[..i + 1][..i] == toDelete[..i];
      var eventId := toDelete[i].id;
      calls := calls + [eventId];
      match outcomes(i) {
        case Ok(success) =>
          if success {
            deleted := deleted + 1;
          } else {
            failed := failed + 1;
          }
        case Err(_) =>
          failed := failed + 1;
      }
      pauses := pauses + 1;
    }
    assert toDelete[..|toDelete|] == toDelete;
  }

  /** What one bulk deletion did: the events it selected, the delete calls made and their tally. */
  datatype DeleteRun = DeleteRun(selected: seq<WixEvent>, calls: seq<Option<string>>, deleted: nat, failed: nat)

  /** The rest of a deletion once its events are selected: nothing without a selection or confirmation. */
  method ConfirmAndDelete(toDelete: seq<WixEvent>, confirm: bool, outcomes: nat -> Result<bool, string>)
    returns (run: DeleteRun)
    ensures run.selected == toDelete
    ensures toDelete == [] || !confirm ==> run.calls == [] && run.deleted == 0 && run.failed == 0
    ensures toDelete != [] && confirm ==>
      && run.calls == Ids(toDelete)
      && run.deleted == Deleted(outcomes, |toDelete|)
      && run.deleted + run.failed == |toDelete|
  {
    if toDelete == [] || !confirm {
      return DeleteRun(toDelete, [], 0, 0);
    }
    var calls, deleted, failed, pauses := DeleteEach(toDelete, outcomes);
    run := DeleteRun(toDelete, calls, deleted, failed);
  }

  /**
   * `bulk_delete_events` over the listed events: select by pattern and draft status, and delete the
   * selection only when confirmed.
   */
  method BulkDeleteEvents(events: seq<WixEvent>, pattern: Option<string>, draftsOnly: bool, confirm: bool,
                          outcomes: nat -> Result<bool, string>)
    returns (run: DeleteRun)
    ensures run.selected == Selected(events, pattern, draftsOnly)
    ensures !confirm ==> run.calls == []
    ensures confirm ==> run.calls == Ids(run.selected)
    ensures run.deleted + run.failed == |run.calls|
    ensures run.deleted == Deleted(outcomes, |run.calls|)
  {
    var toDelete := SelectForDelete(events, pattern, draftsOnly);
    run := ConfirmAndDelete(toDelete, confirm, outcomes);
  }

  /** `delete_all_drafts`: every draft, whatever its title. */
  method DeleteAllDrafts(events: seq<WixEvent>, confirm: bool, outcomes: nat -> Result<bool, string>)
    returns (run: DeleteRun)
    ensures forall e :: e in run.selected <==> e in events && e.status == Some("DRAFT")
    ensures !confirm ==> run.calls == []
    ensures confirm ==> run.calls == Ids(run.selected)
    ensures run.deleted + run.failed == |run.calls|
    ensures run.deleted == Deleted(outcomes, |run.calls|)
  {
    run := BulkDeleteEvents(events, None, true, confirm, outcomes);
    forall e ensures e in run.selected <==> e in events && e.status == Some("DRAFT") {
      SelectedMembers(events, None, true, e);
    }
  }

  /** `delete_test_events`: every event whose title contains "test" in any letter case. */
  method DeleteTestEvents(events: seq<WixEvent>, confirm: bool, outcomes: nat -> Result<bool, string>)
    returns (run: DeleteRun)
    ensures run.selected == SearchEventsByTitle(events, "test")
    ensures !confirm ==> run.calls == []
    ensures confirm ==> run.calls == Ids(run.selected)
    ensures run.deleted + run.failed == |run.calls|
    ensures run.deleted == Deleted(outcomes, |run.calls|)
  {
    run := BulkDeleteEvents(events, Some("test"), false, confirm, outcomes);
    PatternSelectsSearch(events, "test");
  }

  // ----- delete_events_after_date -----

  /** Calendar order of dates. */
  predicate OnOrAfter(d: Date, cutoff: Date) {
    d.year > cutoff.year
    || (d.year == cutoff.year && (d.month > cutoff.month || (d.month == cutoff.month && d.day >= cutoff.day)))
  }

  /**
   * An event starting on or after the cutoff: its start is set and parses as an instant with an
   * offset whose UTC date is on or after the cutoff. `parseStart` gives that UTC date, and None for a
   * start `fromisoformat` rejects or one without an offset, which cannot be compared with the cutoff.
   */
  predicate StartsOnOrAfter(e: WixEvent, cutoff: Date, parseStart: string -> Option<Date>) {
    StartOf(e) != "" && parseStart(StartOf(e)).Some? && OnOrAfter(parseStart(StartOf(e)).value, cutoff)
  }

  /** The events kept by date, in listing order. */
  function SelectedAfter(events: seq<WixEvent>, cutoff: Date, parseStart: string -> Option<Date>): seq<WixEvent> {
    if events == [] then []
    else
      var n := |events| - 1;
      SelectedAfter(events[..n], cutoff, parseStart) + (if StartsOnOrAfter(events[n], cutoff, parseStart) then [events[n]] else [])
  }

  /** An event is selected by date exactly when it is listed and starts on or after the cutoff. */
  lemma {:induction false} SelectedAfterMembers(events: seq<WixEvent>, cutoff: Date, parseStart: string -> Option<Date>,
                                                e: WixEvent)
    ensures e in SelectedAfter(events, cutoff, parseStart) <==> e in events && StartsOnOrAfter(e, cutoff, parseStart)
  {
    if events != [] {
      var n := |events| - 1;
      SelectedAfterMembers(events[..n], cutoff, parseStart, e);
      assert events == events[..n] + [events[n]];
    }
  }

  /** The filter loop of `delete_events_after_date`. */
  method SelectAfter(events: seq<WixEvent>, cutoff: Date, parseStart: string -> Option<Date>)
    returns (toDelete: seq<WixEvent>)
    ensures toDelete == SelectedAfter(events, cutoff, parseStart)
  {
    toDelete := [];
    for i := 0 to |events|
      invariant toDelete == SelectedAfter(events[..i], cutoff, parseStart)
    {
      assert events[..i + 1][..i] == events[..i];
      var startDatetime := StartOf(events[i]);
      if startDatetime == "" {
        continue;
      }
      var eventDate := parseStart(startDatetime);
      if eventDate.None? {
        continue;
      }
      if OnOrAfter(eventDate.value, cutoff) {
        toDelete := toDelete + [events[i]];
      }
    }
    assert events[..|events|] == events;
  }

  /**
   * `delete_events_after_date`: a cutoff that is not a YYYY-MM-DD date ends the run before the
   * listing is read (None); otherwise the events starting on or after it are selected and, when
   * confirmed, deleted.
   */
  method DeleteEventsAfterDate(cutoffDate: string, events: seq<WixEvent>, parseStart: string -> Option<Date>,
                               confirm: bool, outcomes: nat -> Result<bool, string>)
    returns (run: Option<DeleteRun>)
    ensures run.None? <==> ParseDate(YearMonthDayDash, cutoffDate).None?
    ensures run.Some? ==> run.value.selected == SelectedAfter(events, ParseDate(YearMonthDayDash, cutoffDate).value, parseStart)
    ensures run.Some? && !confirm ==> run.value.calls == []
    ensures run.Some? && confirm ==> run.value.calls == Ids(run.value.selected)
    ensures run.Some? ==> run.value.deleted + run.value.failed == |run.value.calls|
    ensures run.Some? ==> run.value.deleted == Deleted(outcomes, |run.value.calls|)
  {
    var cutoff := ParseDate(YearMonthDayDash, cutoffDate);
    if cutoff.None? {
      return None;
    }
    var toDelete := SelectAfter(events, cutoff.value, parseStart);
    var deletion := ConfirmAndDelete(toDelete, confirm, outcomes);
    run := Some(deletion);
  }

  // ----- create_sample_events -----

  /** The five sample templates: title, location and registration type. */
  const Templates: seq<(string, string, string)> := [
    ("Workshop: Introduction to Python", "Conference Room A", "RSVP"),
    ("Networking Happy Hour", "Downtown Bar & Grill", "TICKETS"),
    ("Tech Talk: Cloud Architecture", "Main Auditorium", "RSVP"),
    ("Team Building Event", "City Park", "RSVP"),
    ("Product Demo Session", "Innovation Lab", "TICKETS")
  ]

  /** The title of the i-th sample: "-test- ", its template's title, " #" and its 1-based number. */
  function SampleTitle(i: nat): string {
    "-test- " + Templates[i % |Templates|].0 + " #" + NatToString(i + 1)
  }

  /** The body of the i-th sample: its template, i + 1 days from now, two hours long. */
  function SampleEvent(i: nat, now: int): TestEvent {
    var t := Templates[i % |Templates|];
    TestEvent(SampleTitle(i), false, now + (i + 1) * SecondsPerDay, now + (i + 1) * SecondsPerDay + 2 * SecondsPerHour,
              "America/Toronto", "VENUE", t.1, InitialTypeFor(t.2))
  }

  /** The created events among the first `n` outcomes, in order. */
  function CreatedAmong(outcomes: nat -> Option<WixEvent>, n: nat): (r: seq<WixEvent>)
    ensures |r| <= n
  {
    if n == 0 then [] else CreatedAmong(outcomes, n - 1) + (if outcomes(n - 1).Some? then [outcomes(n - 1).value] else [])
  }

  /** The loop body of `create_sample_events` up to the create call: the i-th sample's request. */
  method SampleRequest(i: nat, now: int) returns (data: TestEvent)
    ensures data == SampleEvent(i, now)
  {
    var template := Templates[i % |Templates|];
    var title := "-test- " + template.0 + " #" + NatToString(i + 1);
    data := TestEventData(title, now, i + 1, 2, template.1, template.2);
  }

  /**
   * `create_sample_events` with each create outcome given (None when the create call fails) and
   * `clock(i)` the time `create_test_event` reads for the i-th sample, since it calls
   * `datetime.now()` once per sample: one request per sample, each followed by a pause,
   * returning the created events.
   */
  method CreateSampleEvents(count: int, clock: nat -> int, outcomes: nat -> Option<WixEvent>)
    returns (requests: seq<TestEvent>, created: seq<WixEvent>)
    ensures |requests| == if count < 0 then 0 else count
    ensures forall i :: 0 <= i < |requests| ==> requests[i] == SampleEvent(i, clock(i))
    ensures created == CreatedAmong(outcomes, |requests|)
    ensures |created| <= |requests|
  {
    var n: nat := if count < 0 then 0 else count;
    requests, created := [], [];
    for i := 0 to n
      invariant |requests| == i
      invariant forall j :: 0 <= j < i ==> requests[j] == SampleEvent(j, clock(j))
      invariant created == CreatedAmong(outcomes, i)
    {
      var data := SampleRequest(i, clock(i));
      requests := requests + [data];
      var result := outcomes(i);
      assert CreatedAmong(outcomes, i + 1) == CreatedAmong(outcomes, i) + (if result.Some? then [result.value] else []);
      if result.Some? {
        created := created + [result.value];
      }
    }
  }

  /** The samples cycle through the five templates: sample i + 5 has the template of sample i. */
  lemma SamplesCycle(i: nat, now: int)
    ensures SampleEvent(i + 5, now).formattedAddress == SampleEvent(i, now).formattedAddress
    ensures SampleEvent(i + 5, now).initialType == SampleEvent(i, now).initialType
  {
    assert (i + 5) % 5 == i % 5;
  }

  /** A title starting with "-test-" contains "test" in any letter case. */
  lemma TestPrefixMatches(title: string)
    requires StartsWith(title, "-test-")
    ensures Contains(Lower(title), Lower("test"))
  {
    var t := Lower(title);
    assert Lower("test") == "test";
    assert t[1..][..4] == "test";
    assert StartsWith(t[1..], "test");
    assert t != [] && t[1..] == t[1..];
  }

  /** Every sample event is selected by `delete_test_events`, which is how the tool cleans them up. */
  lemma SamplesAreTestEvents(i: nat, now: int, listed: WixEvent)
    requires listed.title == Some(SampleEvent(i, now).title)
    ensures TitleMatches(listed, "test")
  {
    var title := SampleTitle(i);
    assert title[..6] == "-test-";
    TestPrefixMatches(title);
  }
}
