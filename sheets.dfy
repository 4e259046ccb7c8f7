/**
 * `fetch_events` of event_sync/sheets.py: turning the value grid read from Google Sheets into
 * validated event records. Row 0 is the header row; every later row is padded, read through the
 * column map with defaults and fallbacks, and validated, and rows that are empty, unnamed or invalid
 * are skipped.
 */
module Sheets {
  import opened Wrappers
  import opened Text
  import opened Constants
  import opened Utils
  import opened Models

  /** Why a fetch raises instead of returning records. */
  datatype FetchError =
    | ServiceUnavailable(reason: string)   // building the Sheets service failed
    | SheetIdMissing                       // GOOGLE_SHEET_ID is not configured
    | RequestFailed(reason: string)        // the values request failed
    | MissingColumns(fields: seq<string>)  // required fields with no matching header

  /** The fields of `fields` that have no column, in order (the `missing` comprehension). */
  function MissingFields(fields: seq<string>, columnMap: map<string, nat>): (missing: seq<string>)
    ensures forall f :: f in missing <==> f in fields && f !in columnMap
  {
    if fields == [] then []
    else (if fields[0] in columnMap then [] else [fields[0]]) + MissingFields(fields[1..], columnMap)
  }

  /** A row whose every cell is the empty string (`not any(row)`). */
  predicate AllEmpty(row: seq<string>) {
    forall i :: 0 <= i < |row| ==> row[i] == ""
  }

  /** The row after the padding loop: extended with empty cells up to the header width. */
  function PadRow(row: seq<string>, width: nat): (r: seq<string>)
    ensures |r| == if |row| < width then width else |row|
    ensures r[..|row|] == row
    ensures forall i :: |row| <= i < |r| ==> r[i] == ""
  {
    if |row| < width then row + seq(width - |row|, i => "") else row
  }

  /**
   * `get_col`: the stripped cell of the field's column; the default when the field has no column,
   * the column lies beyond the row, or the cell is empty.
   */
  function GetCol(row: seq<string>, columnMap: map<string, nat>, field: string, default: string): (r: string)
    ensures field !in columnMap || columnMap[field] >= |row| || row[columnMap[field]] == "" ==> r == default
    ensures field in columnMap && columnMap[field] < |row| && row[columnMap[field]] != "" ==>
      r == Strip(row[columnMap[field]])
  {
    if field !in columnMap || columnMap[field] >= |row| then default
    else if row[columnMap[field]] != "" then Strip(row[columnMap[field]])
    else default
  }

  /** The registration cell, with TICKETS in any letter case read as TICKETING. */
  function RegistrationCell(text: string): string {
    if Upper(text) == "TICKETS" then "TICKETING" else text
  }

  /** The price cell: empty means 0.0, and so does a value `float()` rejects. */
  function PriceCell(text: string): real {
    if text == "" then 0.0 else ParseFloat(text).GetOr(0.0)
  }

  /** The capacity cell: empty means 100, and so does a value `int()` rejects. */
  function CapacityCell(text: string): int {
    if text == "" then 100 else ParseInt(text).GetOr(100)
  }

  /** A blank end column falls back on the start column. */
  function WithFallback(text: string, fallback: string): string {
    if text != "" then text else fallback
  }

  /** The keyword arguments a data row yields, or None when the row is skipped before validation. */
  function RowInput(row: seq<string>, width: nat, columnMap: map<string, nat>): Option<EventInput> {
    if row == [] || AllEmpty(row) then None else CellsInput(PadRow(row, width), columnMap)
  }

  /** The keyword arguments read from a padded row, or None when it has no event name. */
  function CellsInput(padded: seq<string>, columnMap: map<string, nat>): Option<EventInput> {
    var name := GetCol(padded, columnMap, "event_name", "");
    if name == "" then None else
    var startDate := GetCol(padded, columnMap, "start_date", "");
    var startTime := GetCol(padded, columnMap, "start_time", "");
    Some(EventInput(
      name,
      Some(GetCol(padded, columnMap, "event_type", "")),
      startDate,
      startTime,
      WithFallback(GetCol(padded, columnMap, "end_date", ""), startDate),
      WithFallback(GetCol(padded, columnMap, "end_time", ""), startTime),
      GetCol(padded, columnMap, "location", ""),
      PriceCell(GetCol(padded, columnMap, "ticket_price", "0")),
      CapacityCell(GetCol(padded, columnMap, "capacity", "100")),
      RegistrationCell(GetCol(padded, columnMap, "registration_type", "RSVP")),
      Some(GetCol(padded, columnMap, "image_url", "")),
      Some(GetCol(padded, columnMap, "teaser", "")),
      Some(GetCol(padded, columnMap, "description", ""))))
  }

  /** The record a data row yields, or None when it is skipped or fails validation. */
  function ProcessRow(row: seq<string>, width: nat, columnMap: map<string, nat>): Option<EventRecord> {
    match RowInput(row, width, columnMap)
    case None => None
    case Some(input) =>
      match NewEventRecord(input)
      case Ok(e) => Some(e)
      case Err(_) => None
  }

  function OptionToSeq<T>(o: Option<T>): seq<T> {
    match o
    case Some(x) => [x]
    case None => []
  }

  /** The records of a run of data rows, in row order. */
  function ProcessRows(rows: seq<seq<string>>, width: nat, columnMap: map<string, nat>): seq<EventRecord> {
    if rows == [] then []
    else ProcessRows(rows[..|rows| - 1], width, columnMap) + OptionToSeq(ProcessRow(rows[|rows| - 1], width, columnMap))
  }

  /** What `fetch_events` returns or raises for a service, a sheet id and the values request outcome. */
  function FetchEventsSpec(service: Result<(), string>, sheetId: string,
                           fetched: Result<seq<seq<string>>, string>): Result<seq<EventRecord>, FetchError> {
    if service.Err? then Err(ServiceUnavailable(service.error))
    else if sheetId == "" then Err(SheetIdMissing)
    else if fetched.Err? then Err(RequestFailed(fetched.error))
    else if fetched.value == [] then Ok([])
    else
      var headers := fetched.value[0];
      var columnMap := ColumnMapOf(headers, ColumnMapping);
      var missing := MissingFields(RequiredFields, columnMap);
      if missing != [] then Err(MissingColumns(missing))
      else Ok(ProcessRows(fetched.value[1..], |headers|, columnMap))
  }

  /** One padding step leaves the padded row unchanged. */
  lemma PadStep(row: seq<string>, width: nat)
    requires |row| < width
    ensures PadRow(row + [""], width) == PadRow(row, width)
  {
    assert PadRow(row + [""], width) == row + [""] + seq(width - |row| - 1, i => "");
  }

  /** Adding one row adds that row's record, if any, at the end. */
  lemma ProcessRowsSnoc(rows: seq<seq<string>>, row: seq<string>, width: nat, columnMap: map<string, nat>)
    ensures ProcessRows(rows + [row], width, columnMap) ==
      ProcessRows(rows, width, columnMap) + OptionToSeq(ProcessRow(row, width, columnMap))
  {
    assert (rows + [row])[..|rows|] == rows;
  }

  /** One more row of the prefix adds that row's record, if any, at the end. */
  lemma ProcessRowsStep(rows: seq<seq<string>>, i: nat, width: nat, columnMap: map<string, nat>)
    requires i < |rows|
    ensures ProcessRows(rows[..i + 1], width, columnMap) ==
      ProcessRows(rows[..i], width, columnMap) + OptionToSeq(ProcessRow(rows[i], width, columnMap))
  {
    ProcessRowsSnoc(rows[..i], rows[i], width, columnMap);
    assert rows[..i + 1] == rows[..i] + [rows[i]];
  }

  /** `row.append("")` until the row is as wide as the header. */
  method PadCells(row: seq<string>, width: nat) returns (cells: seq<string>)
    ensures cells == PadRow(row, width)
  {
    cells := row;
    while |cells| < width
      invariant PadRow(cells, width) == PadRow(row, width)
      decreases width - |cells|
    {
      PadStep(cells, width);
      cells := cells + [""];
    }
  }

  /**
   * The body of the row loop of `fetch_events` for one data row: skip empty rows, pad the row in
   * place to the header width, read its keyword arguments (skipping it when it has no event name),
   * and validate.
   */
  method ReadRow(row: seq<string>, width: nat, columnMap: map<string, nat>) returns (record: Option<EventRecord>)
    ensures record == ProcessRow(row, width, columnMap)
  {
    if row == [] || AllEmpty(row) {
      return None;
    }
    var cells := PadCells(row, width);
    var input := CellsInput(cells, columnMap);
    assert input == RowInput(row, width, columnMap);
    if input.None? {
      return None;
    }
    var validated := NewEventRecord(input.value);
    if validated.Err? {
      return None;
    }
    return Some(validated.value);
  }

  /** The row loop of `fetch_events`: the records of the data rows, in row order. */
  method ReadRows(rows: seq<seq<string>>, width: nat, columnMap: map<string, nat>) returns (events: seq<EventRecord>)
    ensures events == ProcessRows(rows, width, columnMap)
  {
    events := [];
    var i := 0;
    while i < |rows|
      invariant i <= |rows|
      invariant events == ProcessRows(rows[..i], width, columnMap)
    {
      var record := ReadRow(rows[i], width, columnMap);
      ProcessRowsStep(rows, i, width, columnMap);
      if record.Some? {
        events := events + [record.value];
      }
      i := i + 1;
    }
    assert rows[..i] == rows;
  }

  /**
   * `fetch_events` with the Sheets service, the configured sheet id and the outcome of the values
   * request given: the loop over data rows appends the record of every row that yields one.
   */
  method FetchEvents(service: Result<(), string>, sheetId: string, fetched: Result<seq<seq<string>>, string>)
    returns (r: Result<seq<EventRecord>, FetchError>)
    ensures r == FetchEventsSpec(service, sheetId, fetched)
  {
    if service.Err? {
      return Err(ServiceUnavailable(service.error));
    }
    if sheetId == "" {
      return Err(SheetIdMissing);
    }
    if fetched.Err? {
      return Err(RequestFailed(fetched.error));
    }
    var rows := fetched.value;
    if rows == [] {
      return Ok([]);
    }
    var headers := rows[0];
    var columnMap := BuildColumnMap(headers, ColumnMapping);
    var missing := MissingFields(RequiredFields, columnMap);
    if missing != [] {
      return Err(MissingColumns(missing));
    }
    var events := ReadRows(rows[1..], |headers|, columnMap);
    r := Ok(events);
  }

  // ----- properties of the fetch -----

  /** Processing is row by row: the records of two runs of rows are the records of each, in order. */
  lemma {:induction false} ProcessRowsAppend(a: seq<seq<string>>, b: seq<seq<string>>, width: nat, columnMap: map<string, nat>)
    ensures ProcessRows(a + b, width, columnMap) == ProcessRows(a, width, columnMap) + ProcessRows(b, width, columnMap)
    decreases |b|
  {
    if b == [] {
      EmptyRight(a);
    } else {
      var front, last := b[..|b| - 1], b[|b| - 1];
      var tail := OptionToSeq(ProcessRow(last, width, columnMap));
      var pa, pf := ProcessRows(a, width, columnMap), ProcessRows(front, width, columnMap);
      assert ProcessRows(a + b, width, columnMap) == ProcessRows(a + front, width, columnMap) + tail by {
        SnocSplit(a, b);
        ProcessRowsSnoc(a + front, last, width, columnMap);
      }
      assert ProcessRows(b, width, columnMap) == pf + tail by {
        SnocSplit([], b);
        ProcessRowsSnoc(front, last, width, columnMap);
      }
      ProcessRowsAppend(a, front, width, columnMap);
      assert (pa + pf) + tail == pa + (pf + tail);
    }
  }

  lemma SnocSplit<T>(a: seq<T>, b: seq<T>)
    requires b != []
    ensures a + b == (a + b[..|b| - 1]) + [b[|b| - 1]]
  {
  }

  lemma EmptyRight<T>(a: seq<T>)
    ensures a + [] == a
  {
  }

  /** At most one record per data row. */
  lemma {:induction false} ProcessRowsLength(rows: seq<seq<string>>, width: nat, columnMap: map<string, nat>)
    ensures |ProcessRows(rows, width, columnMap)| <= |rows|
  {
    if rows != [] {
      ProcessRowsLength(rows[..|rows| - 1], width, columnMap);
    }
  }

  /** Every record the fetch keeps passed validation. */
  lemma {:induction false} ProcessRowsValid(rows: seq<seq<string>>, width: nat, columnMap: map<string, nat>)
    ensures forall e :: e in ProcessRows(rows, width, columnMap) ==> ValidRecord(e)
  {
    if rows != [] {
      ProcessRowsValid(rows[..|rows| - 1], width, columnMap);
      ProcessRowValid(rows[|rows| - 1], width, columnMap);
    }
  }

  /** A record of one row passed validation. */
  lemma ProcessRowValid(row: seq<string>, width: nat, columnMap: map<string, nat>)
    ensures ProcessRow(row, width, columnMap).Some? ==> ValidRecord(ProcessRow(row, width, columnMap).value)
  {
    if ProcessRow(row, width, columnMap).Some? {
      ProcessRowRecord(row, width, columnMap);
      NewEventRecordValid(RowInput(row, width, columnMap).value);
    }
  }

  /** A row yields a record exactly by building it from the row's keyword arguments. */
  lemma ProcessRowRecord(row: seq<string>, width: nat, columnMap: map<string, nat>)
    requires ProcessRow(row, width, columnMap).Some?
    ensures RowInput(row, width, columnMap).Some?
    ensures NewEventRecord(RowInput(row, width, columnMap).value) == Ok(ProcessRow(row, width, columnMap).value)
  {
  }

  /** The registration argument of a row is its registration cell with the TICKETS alias applied. */
  lemma RowRegistration(row: seq<string>, width: nat, columnMap: map<string, nat>)
    requires RowInput(row, width, columnMap).Some?
    ensures RowInput(row, width, columnMap).value.registrationType ==
      RegistrationCell(GetCol(PadRow(row, width), columnMap, "registration_type", "RSVP"))
  {
  }

  /** An empty value grid yields no records. */
  lemma FetchNoValues(sheetId: string)
    requires sheetId != ""
    ensures FetchEventsSpec(Ok(()), sheetId, Ok([])) == Ok([])
  {
  }

  /** The fetch fails, before any row is read, exactly when a required field has no column. */
  lemma FetchMissingRequired(sheetId: string, rows: seq<seq<string>>)
    requires sheetId != "" && rows != []
    ensures var columnMap := ColumnMapOf(rows[0], ColumnMapping);
      FetchEventsSpec(Ok(()), sheetId, Ok(rows)).Err? <==> exists f :: f in RequiredFields && f !in columnMap
  {
    var columnMap := ColumnMapOf(rows[0], ColumnMapping);
    var missing := MissingFields(RequiredFields, columnMap);
    if missing != [] {
      assert missing[0] in RequiredFields && missing[0] !in columnMap;
    }
  }

  /** Empty rows, rows of empty cells and rows without an event name are skipped. */
  lemma SkippedRows(row: seq<string>, width: nat, columnMap: map<string, nat>)
    requires row == [] || AllEmpty(row) || GetCol(PadRow(row, width), columnMap, "event_name", "") == ""
    ensures ProcessRow(row, width, columnMap) == None
  {
  }

  /** A registration cell spelling TICKETS in any letter case yields a TICKETING record. */
  lemma TicketsCellIsTicketing(row: seq<string>, width: nat, columnMap: map<string, nat>)
    requires ProcessRow(row, width, columnMap).Some?
    requires Upper(GetCol(PadRow(row, width), columnMap, "registration_type", "RSVP")) == "TICKETS"
    ensures ProcessRow(row, width, columnMap).value.registrationType == "TICKETING"
  {
    ProcessRowRecord(row, width, columnMap);
    RowRegistration(row, width, columnMap);
    var input := RowInput(row, width, columnMap).value;
    assert input.registrationType == "TICKETING";
    ValidTypeKept("TICKETING");
    NewEventRecordRegistration(input);
  }

  /** A missing or blank registration cell yields an RSVP record. */
  lemma BlankRegistrationIsRsvp(row: seq<string>, width: nat, columnMap: map<string, nat>)
    requires ProcessRow(row, width, columnMap).Some?
    requires GetCol(PadRow(row, width), columnMap, "registration_type", "RSVP") in {"RSVP", ""}
    ensures ProcessRow(row, width, columnMap).value.registrationType == "RSVP"
  {
    ProcessRowRecord(row, width, columnMap);
    RowRegistration(row, width, columnMap);
    var input := RowInput(row, width, columnMap).value;
    var cell := GetCol(PadRow(row, width), columnMap, "registration_type", "RSVP");
    if cell == "" {
      assert Upper(cell) == "";
      assert input.registrationType == "" && IsBlank("");
    } else {
      assert cell == "RSVP";
      ValidTypeNormal("RSVP");
      assert input.registrationType == "RSVP";
      ValidTypeKept("RSVP");
    }
    NewEventRecordRegistration(input);
  }

  /** A price cell `float()` rejects reads as 0.0 and a capacity cell `int()` rejects as 100; neither raises. */
  lemma UnparsableCellsFallBack(row: seq<string>, width: nat, columnMap: map<string, nat>)
    requires RowInput(row, width, columnMap).Some?
    requires ParseFloat(GetCol(PadRow(row, width), columnMap, "ticket_price", "0")).None?
    requires ParseInt(GetCol(PadRow(row, width), columnMap, "capacity", "100")).None?
    ensures RowInput(row, width, columnMap).value.ticketPrice == 0.0
    ensures RowInput(row, width, columnMap).value.capacity == 100
  {
    RowNumbers(row, width, columnMap);
    var padded := PadRow(row, width);
    assert PriceCell(GetCol(padded, columnMap, "ticket_price", "0")) == 0.0;
    assert CapacityCell(GetCol(padded, columnMap, "capacity", "100")) == 100;
  }

  /** The price and capacity arguments of a row are read from its price and capacity cells. */
  lemma RowNumbers(row: seq<string>, width: nat, columnMap: map<string, nat>)
    requires RowInput(row, width, columnMap).Some?
    ensures RowInput(row, width, columnMap).value.ticketPrice ==
      PriceCell(GetCol(PadRow(row, width), columnMap, "ticket_price", "0"))
    ensures RowInput(row, width, columnMap).value.capacity ==
      CapacityCell(GetCol(PadRow(row, width), columnMap, "capacity", "100"))
  {
  }

  /** A record from a row with blank end columns ends on its start date and at its start time. */
  lemma BlankEndFallsBackOnStart(row: seq<string>, width: nat, columnMap: map<string, nat>)
    requires ProcessRow(row, width, columnMap).Some?
    requires GetCol(PadRow(row, width), columnMap, "end_date", "") == ""
    requires GetCol(PadRow(row, width), columnMap, "end_time", "") == ""
    ensures ProcessRow(row, width, columnMap).value.endDate == ProcessRow(row, width, columnMap).value.startDate
    ensures ProcessRow(row, width, columnMap).value.endTime == ProcessRow(row, width, columnMap).value.startTime
  {
    var input := RowInput(row, width, columnMap).value;
    assert input.endDate == input.startDate && input.endTime == input.startTime;
    assert ProcessRow(row, width, columnMap) == Some(NewEventRecord(input).value);
  }
}
