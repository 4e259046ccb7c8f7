/**
 * The helpers of event_sync/utils.py: spreadsheet header normalisation, the alias-based column
 * map, multi-format date parsing into ISO form, and Google Drive file-id extraction.
 */
module Utils {
  import opened Wrappers
  import opened Text

  // ----- normalize_header -----

  /** What `normalize_header` does to one character of the stripped header. */
  function NormalizeChar(c: char): char {
    if c == ' ' || c == '-' then '_' else LowerChar(c)
  }

  /** Lower-casing, then replacing spaces, then replacing hyphens, character by character. */
  lemma NormalizeCharSteps(c: char)
    ensures var lowered := LowerChar(c);
      var spaced := if lowered == ' ' then '_' else lowered;
      NormalizeChar(c) == if spaced == '-' then '_' else spaced
  {
  }

  /** `normalize_header`: trimmed, lower-cased, with every space and hyphen turned into `_`. */
  function NormalizeHeader(h: string): (r: string)
    ensures |r| == |Strip(h)|
    ensures forall i :: 0 <= i < |r| ==> r[i] == NormalizeChar(Strip(h)[i])
  {
    var t := Strip(h);
    var lowered := Lower(t);
    var spaced := ReplaceChar(lowered, ' ', '_');
    var r := ReplaceChar(spaced, '-', '_');
    forall i | 0 <= i < |t|
      ensures r[i] == NormalizeChar(t[i])
    {
      NormalizeCharSteps(t[i]);
    }
    r
  }

  /** A normalised header has no spaces, hyphens or capitals, and nothing to strip at its ends. */
  lemma NormalizeHeaderAlphabet(h: string)
    ensures var r := NormalizeHeader(h);
      (forall i :: 0 <= i < |r| ==> r[i] != ' ' && r[i] != '-' && !('A' <= r[i] <= 'Z')) &&
      (r == [] || (!IsSpace(r[0]) && !IsSpace(r[|r| - 1])))
  {
    var t := Strip(h);
    var r := NormalizeHeader(h);
    forall i | 0 <= i < |r|
      ensures r[i] != ' ' && r[i] != '-' && !('A' <= r[i] <= 'Z')
      ensures IsSpace(r[i]) ==> IsSpace(t[i])
    {
      NormalizeCharFacts(t[i]);
    }
  }

  lemma NormalizeCharFacts(c: char)
    ensures var n := NormalizeChar(c); n != ' ' && n != '-' && !('A' <= n <= 'Z') && (IsSpace(n) ==> IsSpace(c))
  {
  }

  lemma NormalizeCharIdempotent(c: char)
    ensures NormalizeChar(NormalizeChar(c)) == NormalizeChar(c)
  {
  }

  /** A normalised header has nothing left to strip. */
  lemma NormalizedUnstripped(h: string)
    ensures Strip(NormalizeHeader(h)) == NormalizeHeader(h)
  {
    NormalizeHeaderAlphabet(h);
    StripUnchanged(NormalizeHeader(h));
  }

  /** Normalising a header twice changes nothing more than normalising it once. */
  lemma NormalizeHeaderIdempotent(h: string)
    ensures NormalizeHeader(NormalizeHeader(h)) == NormalizeHeader(h)
  {
    var r := NormalizeHeader(h);
    NormalizedUnstripped(h);
    var rr := NormalizeHeader(r);
    forall i | 0 <= i < |r|
      ensures rr[i] == r[i]
    {
      NormalizeCharIdempotent(Strip(h)[i]);
    }
  }

  // ----- build_column_map -----

  /** `normalized_headers`: every header normalised, position by position. */
  function NormalizedHeaders(headers: seq<string>): (r: seq<string>)
    ensures |r| == |headers|
    ensures forall i :: 0 <= i < |headers| ==> r[i] == NormalizeHeader(headers[i])
  {
    seq(|headers|, i requires 0 <= i < |headers| => NormalizeHeader(headers[i]))
  }

  /** Python `xs.index(x)`: the position of the first occurrence of `x`. */
  function FirstIndex(xs: seq<string>, x: string): (k: nat)
    requires x in xs
    ensures k < |xs| && xs[k] == x
    ensures forall j :: 0 <= j < k ==> xs[j] != x
  {
    if xs[0] == x then 0 else 1 + FirstIndex(xs[1..], x)
  }

  /**
   * The inner loop of `build_column_map` for one field: the first alias (in alias order) whose
   * normalised form is among the normalised headers, and the index of that header's first occurrence.
   */
  function AliasMatch(normalized: seq<string>, aliases: seq<string>): (r: Option<nat>)
    ensures r.Some? ==> r.value < |normalized|
  {
    if aliases == [] then None
    else if NormalizeHeader(aliases[0]) in normalized then Some(FirstIndex(normalized, NormalizeHeader(aliases[0])))
    else AliasMatch(normalized, aliases[1..])
  }

  /** The column map the field loop builds: later entries of `mapping` overwrite earlier ones. */
  function ColumnMapOf(headers: seq<string>, mapping: seq<(string, seq<string>)>): (m: map<string, nat>)
    ensures forall f :: f in m ==> m[f] < |headers|
  {
    if mapping == [] then map[] else
    var m := ColumnMapOf(headers, mapping[..|mapping| - 1]);
    var entry := mapping[|mapping| - 1];
    match AliasMatch(NormalizedHeaders(headers), entry.1)
    case Some(i) => m[entry.0 := i]
    case None => m
  }

  /** `build_column_map`: the nested loops over fields and their aliases, stopping at the first match. */
  method BuildColumnMap(headers: seq<string>, mapping: seq<(string, seq<string>)>) returns (columnMap: map<string, nat>)
    ensures columnMap == ColumnMapOf(headers, mapping)
    ensures forall f :: f in columnMap ==> columnMap[f] < |headers|
  {
    var normalized := NormalizedHeaders(headers);
    columnMap := map[];
    var f := 0;
    while f < |mapping|
      invariant 0 <= f <= |mapping|
      invariant columnMap == ColumnMapOf(headers, mapping[..f])
    {
      var field := mapping[f].0;
      var aliases := mapping[f].1;
      ColumnMapStep(headers, mapping, f);
      ghost var before := columnMap;
      var a := 0;
      while a < |aliases|
        invariant 0 <= a <= |aliases|
        invariant AliasMatch(normalized, aliases) == AliasMatch(normalized, aliases[a..])
        invariant columnMap == before
      {
        var candidate := NormalizeHeader(aliases[a]);
        if candidate in normalized {
          columnMap := columnMap[field := FirstIndex(normalized, candidate)];
          assert AliasMatch(normalized, aliases) == Some(FirstIndex(normalized, candidate));
          break;
        }
        assert aliases[a..][1..] == aliases[a + 1..];
        a := a + 1;
      }
      f := f + 1;
    }
    assert mapping[..|mapping|] == mapping;
  }

  /** One more field of the mapping: its alias match, if any, is stored under its name. */
  lemma ColumnMapStep(headers: seq<string>, mapping: seq<(string, seq<string>)>, f: nat)
    requires f < |mapping|
    ensures ColumnMapOf(headers, mapping[..f + 1]) ==
      match AliasMatch(NormalizedHeaders(headers), mapping[f].1)
      case Some(i) => ColumnMapOf(headers, mapping[..f])[mapping[f].0 := i]
      case None => ColumnMapOf(headers, mapping[..f])
  {
    assert mapping[..f + 1][..f] == mapping[..f];
  }

  /** Alias order beats header order: the earliest alias present decides, at its header's first occurrence. */
  lemma {:induction false} AliasMatchFirst(normalized: seq<string>, aliases: seq<string>, j: nat)
    requires j < |aliases| && NormalizeHeader(aliases[j]) in normalized
    requires forall i :: 0 <= i < j ==> NormalizeHeader(aliases[i]) !in normalized
    ensures AliasMatch(normalized, aliases) == Some(FirstIndex(normalized, NormalizeHeader(aliases[j])))
  {
    if j > 0 {
      AliasMatchFirst(normalized, aliases[1..], j - 1);
    }
  }

  /** A field finds no column exactly when none of its aliases matches any header. */
  lemma AliasMatchNone(normalized: seq<string>, aliases: seq<string>)
    ensures AliasMatch(normalized, aliases) == None <==>
      forall i :: 0 <= i < |aliases| ==> NormalizeHeader(aliases[i]) !in normalized
  {
    if AliasMatch(normalized, aliases) == None {
      NoneUnmatched(normalized, aliases);
    } else if forall i :: 0 <= i < |aliases| ==> NormalizeHeader(aliases[i]) !in normalized {
      UnmatchedNone(normalized, aliases);
    }
  }

  /** No match means no alias matched. */
  lemma {:induction false} NoneUnmatched(normalized: seq<string>, aliases: seq<string>)
    requires AliasMatch(normalized, aliases) == None
    ensures forall i :: 0 <= i < |aliases| ==> NormalizeHeader(aliases[i]) !in normalized
  {
    if aliases != [] {
      var tail := aliases[1..];
      NoneUnmatched(normalized, tail);
      forall i | 1 <= i < |aliases| ensures NormalizeHeader(aliases[i]) !in normalized {
        assert aliases[i] == tail[i - 1];
      }
    }
  }

  /** No alias matching means no match. */
  lemma {:induction false} UnmatchedNone(normalized: seq<string>, aliases: seq<string>)
    requires forall i :: 0 <= i < |aliases| ==> NormalizeHeader(aliases[i]) !in normalized
    ensures AliasMatch(normalized, aliases) == None
  {
    if aliases != [] {
      var tail := aliases[1..];
      assert NormalizeHeader(aliases[0]) !in normalized;
      forall i | 0 <= i < |tail| ensures NormalizeHeader(tail[i]) !in normalized {
        assert tail[i] == aliases[i + 1];
      }
      UnmatchedNone(normalized, tail);
    }
  }

  /** Field names of a mapping are distinct, as the keys of a Python dict are. */
  predicate DistinctFields(mapping: seq<(string, seq<string>)>) {
    forall i, j :: 0 <= i < j < |mapping| ==> mapping[i].0 != mapping[j].0
  }

  /** With distinct field names, a field is mapped exactly when one of its aliases matches, to that match. */
  lemma {:induction false} ColumnMapEntry(headers: seq<string>, mapping: seq<(string, seq<string>)>, k: nat)
    requires DistinctFields(mapping) && k < |mapping|
    ensures var found := AliasMatch(NormalizedHeaders(headers), mapping[k].1);
      (mapping[k].0 in ColumnMapOf(headers, mapping) <==> found.Some?) &&
      (found.Some? ==> ColumnMapOf(headers, mapping)[mapping[k].0] == found.value)
  {
    var prefix := mapping[..|mapping| - 1];
    if k < |mapping| - 1 {
      ColumnMapEntry(headers, prefix, k);
    } else {
      ColumnMapAbsent(headers, prefix, mapping[k].0);
    }
  }

  /** A name that is not a field of the mapping never appears in the column map. */
  lemma {:induction false} ColumnMapAbsent(headers: seq<string>, mapping: seq<(string, seq<string>)>, name: string)
    requires forall i :: 0 <= i < |mapping| ==> mapping[i].0 != name
    ensures name !in ColumnMapOf(headers, mapping)
  {
    if mapping != [] {
      ColumnMapAbsent(headers, mapping[..|mapping| - 1], name);
    }
  }

  // ----- convert_date_to_iso -----

  /** A calendar date as `datetime` holds it. */
  datatype Date = Date(year: int, month: int, day: int)

  predicate IsLeapYear(y: int) {
    y % 4 == 0 && (y % 100 != 0 || y % 400 == 0)
  }

  function DaysInMonth(y: int, m: int): int
    requires 1 <= m <= 12
  {
    if m == 2 then (if IsLeapYear(y) then 29 else 28)
    else if m == 4 || m == 6 || m == 9 || m == 11 then 30
    else 31
  }

  /** The dates `datetime` accepts: years 1 to 9999 and a day that exists in its month. */
  predicate ValidDate(d: Date) {
    1 <= d.year <= 9999 && 1 <= d.month <= 12 && 1 <= d.day <= DaysInMonth(d.year, d.month)
  }

  /** The four `strptime` formats, in the order they are tried. */
  datatype DateFormat = MonthDayYearSlash | YearMonthDayDash | MonthDayYearDash | DayMonthYearSlash

  const DateFormats: seq<DateFormat> := [MonthDayYearSlash, YearMonthDayDash, MonthDayYearDash, DayMonthYearSlash]

  function Separator(f: DateFormat): char {
    if f == MonthDayYearSlash || f == DayMonthYearSlash then '/' else '-'
  }

  function TwoDigitValue(a: char, b: char): nat
    requires IsDigit(a) && IsDigit(b)
  {
    10 * DigitValue(a) + DigitValue(b)
  }

  /** The `%m` directive: `1[0-2]`, `0[1-9]` or `[1-9]`. */
  function MonthToken(t: string): (r: Option<int>)
    ensures r.Some? ==> 1 <= r.value <= 12
  {
    if |t| == 1 && '1' <= t[0] <= '9' then Some(DigitValue(t[0]))
    else if |t| == 2 && ((t[0] == '1' && '0' <= t[1] <= '2') || (t[0] == '0' && '1' <= t[1] <= '9')) then
      Some(TwoDigitValue(t[0], t[1]))
    else None
  }

  /** The `%d` directive: `3[01]`, `[12][0-9]`, `0[1-9]`, `[1-9]` or a space and `[1-9]`. */
  function DayToken(t: string): (r: Option<int>)
    ensures r.Some? ==> 1 <= r.value <= 31
  {
    if |t| == 1 && '1' <= t[0] <= '9' then Some(DigitValue(t[0]))
    else if |t| == 2 && t[0] == ' ' && '1' <= t[1] <= '9' then Some(DigitValue(t[1]))
    else if |t| == 2 && ((t[0] == '3' && (t[1] == '0' || t[1] == '1')) || (('1' <= t[0] <= '2') && IsDigit(t[1]))
                         || (t[0] == '0' && '1' <= t[1] <= '9')) then
      Some(TwoDigitValue(t[0], t[1]))
    else None
  }

  /** The `%Y` directive: exactly four digits. */
  function YearToken(t: string): (r: Option<int>)
    ensures r.Some? ==> 0 <= r.value <= 9999
  {
    if |t| == 4 && AllDigits(t) then
      Some(1000 * DigitValue(t[0]) + 100 * DigitValue(t[1]) + 10 * DigitValue(t[2]) + DigitValue(t[3]))
    else None
  }

  /**
   * `datetime.strptime(s, fmt)` for one of the four formats: three tokens between separators, read
   * in the format's field order, that name a real calendar date.
   */
  function ParseDate(f: DateFormat, s: string): (r: Option<Date>)
    ensures r.Some? ==> ValidDate(r.value)
  {
    var p := Split(s, Separator(f));
    if |p| != 3 then None else
    var year := YearToken(if f == YearMonthDayDash then p[0] else p[2]);
    var month := MonthToken(if f == YearMonthDayDash || f == DayMonthYearSlash then p[1] else p[0]);
    var day := DayToken(if f == YearMonthDayDash then p[2] else if f == DayMonthYearSlash then p[0] else p[1]);
    if year.Some? && month.Some? && day.Some? && ValidDate(Date(year.value, month.value, day.value)) then
      Some(Date(year.value, month.value, day.value))
    else None
  }

  /** The loop over formats: the date read by the first format that parses. */
  function ParseFirst(formats: seq<DateFormat>, s: string): (r: Option<Date>)
    ensures r.Some? ==> ValidDate(r.value)
  {
    if formats == [] then None
    else match ParseDate(formats[0], s)
      case Some(d) => Some(d)
      case None => ParseFirst(formats[1..], s)
  }

  function Pad2(n: int): (s: string)
    requires 0 <= n < 100
    ensures |s| == 2 && AllDigits(s)
  {
    [DigitChar(n / 10), DigitChar(n % 10)]
  }

  lemma Pad2Value(n: int)
    requires 0 <= n < 100
    ensures 10 * DigitValue(Pad2(n)[0]) + DigitValue(Pad2(n)[1]) == n
  {
  }

  function Pad4(n: int): (s: string)
    requires 0 <= n < 10000
    ensures |s| == 4 && AllDigits(s)
  {
    Pad2(n / 100) + Pad2(n % 100)
  }

  /** `dt.strftime("%Y-%m-%d")`. */
  function FormatIso(d: Date): string
    requires ValidDate(d)
  {
    Pad4(d.year) + "-" + Pad2(d.month) + "-" + Pad2(d.day)
  }

  /** The shape of an ISO date: `dddd-dd-dd`. */
  predicate IsIsoShape(s: string) {
    |s| == 10 && s[4] == '-' && s[7] == '-' && forall i :: 0 <= i < 10 && i != 4 && i != 7 ==> IsDigit(s[i])
  }

  /** The message `convert_date_to_iso` raises with when no format parses. */
  function DateErrorMessage(s: string): string {
    "Unable to parse date: " + s + ". Expected format: MM/DD/YYYY or YYYY-MM-DD"
  }

  /** `convert_date_to_iso`: the first format that parses decides; otherwise a ValueError. */
  function ConvertDateToIso(s: string): (r: Result<string, string>)
    ensures r.Ok? ==> IsIsoShape(r.value)
    ensures r.Err? ==> r.error == DateErrorMessage(s)
  {
    match ParseFirst(DateFormats, s)
    case Some(d) => Ok(FormatIso(d))
    case None => Err(DateErrorMessage(s))
  }

  /** The first format in the list that parses is the one whose reading is used. */
  lemma {:induction false} ParseFirstWins(formats: seq<DateFormat>, s: string, k: nat)
    requires k < |formats| && ParseDate(formats[k], s).Some?
    requires forall j :: 0 <= j < k ==> ParseDate(formats[j], s).None?
    ensures ParseFirst(formats, s) == ParseDate(formats[k], s)
  {
    if k > 0 {
      ParseFirstWins(formats[1..], s, k - 1);
    }
  }

  /** Parsing fails only when every format fails. */
  lemma {:induction false} ParseFirstNone(formats: seq<DateFormat>, s: string)
    ensures ParseFirst(formats, s).None? <==> forall j :: 0 <= j < |formats| ==> ParseDate(formats[j], s).None?
  {
    if formats != [] {
      ParseFirstNone(formats[1..], s);
      assert forall j :: 1 <= j < |formats| ==> formats[j] == formats[1..][j - 1];
    }
  }

  /** The order of `convert_date_to_iso`: the earliest format of MM/DD/YYYY, YYYY-MM-DD, MM-DD-YYYY, DD/MM/YYYY that parses wins. */
  lemma ConvertDateFirstFormatWins(s: string, k: nat)
    requires k < 4 && ParseDate(DateFormats[k], s).Some?
    requires forall j :: 0 <= j < k ==> ParseDate(DateFormats[j], s).None?
    ensures ConvertDateToIso(s) == Ok(FormatIso(ParseDate(DateFormats[k], s).value))
  {
    ParseFirstWins(DateFormats, s, k);
  }

  /** `convert_date_to_iso` raises exactly when none of the four formats parses. */
  lemma ConvertDateFails(s: string)
    ensures ConvertDateToIso(s).Err? <==> forall j :: 0 <= j < 4 ==> ParseDate(DateFormats[j], s).None?
  {
    ParseFirstNone(DateFormats, s);
  }

  lemma Pad4Value(n: int)
    requires 0 <= n < 10000
    ensures YearToken(Pad4(n)) == Some(n)
  {
    var hi, lo := n / 100, n % 100;
    var t := Pad4(n);
    assert 10 * DigitValue(t[0]) + DigitValue(t[1]) == hi by {
      Pad2Value(hi);
    }
    assert 10 * DigitValue(t[2]) + DigitValue(t[3]) == lo by {
      Pad2Value(lo);
    }
  }

  /** The ISO text of a date splits on `-` into its three zero-padded fields. */
  lemma SplitIso(d: Date)
    requires ValidDate(d)
    ensures Split(FormatIso(d), '-') == [Pad4(d.year), Pad2(d.month), Pad2(d.day)]
    ensures '/' !in FormatIso(d)
  {
    var y, m, dd := Pad4(d.year), Pad2(d.month), Pad2(d.day);
    assert FormatIso(d) == y + ['-'] + (m + ['-'] + dd);
    SplitAt(y, '-', m + ['-'] + dd);
    SplitAt(m, '-', dd);
    SplitNone(dd, '-');
  }

  /** Reading the ISO text of a date back with `%Y-%m-%d` gives the same date. */
  lemma ParseFormatIso(d: Date)
    requires ValidDate(d)
    ensures ParseDate(YearMonthDayDash, FormatIso(d)) == Some(d)
  {
    SplitIso(d);
    Pad4Value(d.year);
    Pad2Tokens(d.month);
    Pad2Tokens(d.day);
  }

  /** The ISO text of a date is not a slash date. */
  lemma IsoIsNotSlashDate(d: Date)
    requires ValidDate(d)
    ensures ParseDate(MonthDayYearSlash, FormatIso(d)) == None
  {
    SplitIso(d);
    SplitNone(FormatIso(d), '/');
  }

  /** Re-converting an ISO result returns it unchanged. */
  lemma ConvertDateIdempotent(s: string)
    requires ConvertDateToIso(s).Ok?
    ensures ConvertDateToIso(ConvertDateToIso(s).value) == ConvertDateToIso(s)
  {
    var d := ParseFirst(DateFormats, s).value;
    var iso := FormatIso(d);
    assert ConvertDateToIso(s) == Ok(iso);
    IsoParsesFirst(d);
  }

  /** The ISO text of a date is read back, by the ISO format, as that date. */
  lemma IsoParsesFirst(d: Date)
    requires ValidDate(d)
    ensures ParseFirst(DateFormats, FormatIso(d)) == Some(d)
  {
    ParseFormatIso(d);
    IsoIsNotSlashDate(d);
    assert DateFormats[0] == MonthDayYearSlash && DateFormats[1] == YearMonthDayDash;
    ParseFirstWins(DateFormats, FormatIso(d), 1);
  }

  /** Three separator-free pieces joined by the separator split back into those pieces. */
  lemma SplitThree(a: string, b: string, c: string, sep: char)
    requires sep !in a && sep !in b && sep !in c
    ensures Split(a + [sep] + b + [sep] + c, sep) == [a, b, c]
  {
    assert a + [sep] + b + [sep] + c == a + [sep] + (b + [sep] + c);
    SplitAt(a, sep, b + [sep] + c);
    SplitAt(b, sep, c);
    SplitNone(c, sep);
  }

  lemma Pad2Tokens(n: int)
    requires 1 <= n <= 31
    ensures DayToken(Pad2(n)) == Some(n)
    ensures MonthToken(Pad2(n)) == if n <= 12 then Some(n) else None
  {
  }

  /** A slash date is always read month-first, even when its day could also be a month. */
  lemma SlashDateMonthFirst(d: Date)
    requires ValidDate(d)
    ensures ConvertDateToIso(Pad2(d.month) + "/" + Pad2(d.day) + "/" + Pad4(d.year)) == Ok(FormatIso(d))
  {
    var s := Pad2(d.month) + "/" + Pad2(d.day) + "/" + Pad4(d.year);
    SplitThree(Pad2(d.month), Pad2(d.day), Pad4(d.year), '/');
    Pad2Tokens(d.month);
    Pad2Tokens(d.day);
    Pad4Value(d.year);
    assert ParseDate(MonthDayYearSlash, s) == Some(d);
    ParseFirstWins(DateFormats, s, 0);
  }

  /** A slash date whose first number cannot be a month falls through to the day-first format. */
  lemma SlashDateDayFirstFallback(d: Date)
    requires ValidDate(d) && d.day > 12
    ensures ConvertDateToIso(Pad2(d.day) + "/" + Pad2(d.month) + "/" + Pad4(d.year)) == Ok(FormatIso(d))
  {
    var s := Pad2(d.day) + "/" + Pad2(d.month) + "/" + Pad4(d.year);
    DayFirstNotMonthFirst(d);
    DigitsNoDash(Pad2(d.day), Pad2(d.month), Pad4(d.year));
    NoDashFormat(s);
    DayFirstParses(d);
    assert DateFormats[0] == MonthDayYearSlash && DateFormats[1] == YearMonthDayDash;
    assert DateFormats[2] == MonthDayYearDash && DateFormats[3] == DayMonthYearSlash;
    ParseFirstWins(DateFormats, s, 3);
  }

  /** Digits joined by slashes hold no dash. */
  lemma DigitsNoDash(a: string, b: string, c: string)
    requires AllDigits(a) && AllDigits(b) && AllDigits(c)
    ensures '-' !in a + "/" + b + "/" + c
  {
    var s := a + "/" + b + "/" + c;
    forall i | 0 <= i < |s|
      ensures s[i] != '-'
    {
      if i < |a| {
        assert s[i] == a[i];
      } else if i == |a| || i == |a| + 1 + |b| {
      } else if i < |a| + 1 + |b| {
        assert s[i] == b[i - |a| - 1];
      } else {
        assert s[i] == c[i - |a| - 2 - |b|];
      }
    }
  }

  lemma DayFirstNotMonthFirst(d: Date)
    requires ValidDate(d) && d.day > 12
    ensures ParseDate(MonthDayYearSlash, Pad2(d.day) + "/" + Pad2(d.month) + "/" + Pad4(d.year)) == None
  {
    SplitThree(Pad2(d.day), Pad2(d.month), Pad4(d.year), '/');
    Pad2Tokens(d.day);
  }

  lemma DayFirstParses(d: Date)
    requires ValidDate(d)
    ensures ParseDate(DayMonthYearSlash, Pad2(d.day) + "/" + Pad2(d.month) + "/" + Pad4(d.year)) == Some(d)
  {
    SplitThree(Pad2(d.day), Pad2(d.month), Pad4(d.year), '/');
    Pad2Tokens(d.month);
    Pad2Tokens(d.day);
    Pad4Value(d.year);
  }

  /** Text without a dash is read by neither dash format. */
  lemma NoDashFormat(s: string)
    requires '-' !in s
    ensures ParseDate(YearMonthDayDash, s) == None && ParseDate(MonthDayYearDash, s) == None
  {
    SplitNone(s, '-');
  }

  // ----- extract_google_drive_file_id -----

  /** The character class `[a-zA-Z0-9_-]`. */
  predicate IsIdChar(c: char) {
    'a' <= c <= 'z' || 'A' <= c <= 'Z' || '0' <= c <= '9' || c == '_' || c == '-'
  }

  predicate IsDriveId(s: string) {
    s != [] && forall i :: 0 <= i < |s| ==> IsIdChar(s[i])
  }

  /** The length of the longest prefix made of id characters (the greedy `[a-zA-Z0-9_-]+`). */
  function IdRunLength(s: string): (n: nat)
    ensures n <= |s|
    ensures forall i :: 0 <= i < n ==> IsIdChar(s[i])
    ensures n < |s| ==> !IsIdChar(s[n])
  {
    if s == [] || !IsIdChar(s[0]) then 0 else 1 + IdRunLength(s[1..])
  }

  /** `marker` occurs at `p` and is followed by at least one id character. */
  predicate MatchAt(s: string, marker: string, p: nat)
    requires p <= |s|
  {
    StartsWith(s[p..], marker) && p + |marker| < |s| && IsIdChar(s[p + |marker|])
  }

  /** The maximal run of id characters starting at `k`. */
  function IdRunAt(s: string, k: nat): string
    requires k <= |s|
  {
    s[k..k + IdRunLength(s[k..])]
  }

  /** `re.search(marker + "([a-zA-Z0-9_-]+)", s)` from position `from`: the group of the leftmost match. */
  function SearchFrom(s: string, marker: string, from: nat): (r: Option<string>)
    requires from <= |s|
    ensures r.Some? ==> IsDriveId(r.value)
    decreases |s| - from
  {
    if MatchAt(s, marker, from) then Some(IdRunAt(s, from + |marker|))
    else if from == |s| then None
    else SearchFrom(s, marker, from + 1)
  }

  /** `re.search(r"^([a-zA-Z0-9_-]+)$", s)`: `$` also matches before one final newline. */
  function WholeId(s: string): (r: Option<string>)
    ensures r.Some? ==> IsDriveId(r.value)
  {
    var n := IdRunLength(s);
    if n > 0 && (n == |s| || (n == |s| - 1 && s[n] == '\n')) then Some(s[..n]) else None
  }

  /** `extract_google_drive_file_id`: after "/file/d/", else after "id=", else the whole id; else None. */
  function ExtractGoogleDriveFileId(url: string): (r: Option<string>)
    ensures r.Some? ==> IsDriveId(r.value)
  {
    match SearchFrom(url, "/file/d/", 0)
    case Some(id) => Some(id)
    case None =>
      match SearchFrom(url, "id=", 0)
      case Some(id) => Some(id)
      case None => WholeId(url)
  }

  /** The search returns the id run after the leftmost match position. */
  lemma {:induction false} SearchFindsLeftmost(s: string, marker: string, from: nat, p: nat)
    requires from <= p <= |s| && MatchAt(s, marker, p)
    requires forall q :: from <= q < p ==> !MatchAt(s, marker, q)
    ensures SearchFrom(s, marker, from) == Some(IdRunAt(s, p + |marker|))
    decreases p - from
  {
    if from < p {
      SearchFindsLeftmost(s, marker, from + 1, p);
    }
  }

  /** The search finds nothing exactly when no position matches. */
  lemma {:induction false} SearchNone(s: string, marker: string, from: nat)
    requires from <= |s|
    ensures SearchFrom(s, marker, from).None? <==> forall q :: from <= q <= |s| ==> !MatchAt(s, marker, q)
    decreases |s| - from
  {
    if from < |s| {
      SearchNone(s, marker, from + 1);
    }
  }

  /** A marker holding a character that `s` lacks never matches in `s`. */
  lemma SearchMissingChar(s: string, marker: string, j: nat)
    requires j < |marker| && marker[j] !in s
    ensures SearchFrom(s, marker, 0).None?
  {
    forall q | 0 <= q <= |s|
      ensures !MatchAt(s, marker, q)
    {
    }
    SearchNone(s, marker, 0);
  }

  /** A bare Drive id is returned unchanged. */
  lemma BareIdUnchanged(id: string)
    requires IsDriveId(id)
    ensures ExtractGoogleDriveFileId(id) == Some(id)
  {
    SearchMissingChar(id, "/file/d/", 0);
    SearchMissingChar(id, "id=", 2);
    assert id[..|id|] == id;
  }

  /** The greedy id run over an id followed by a non-id character stops exactly after the id. */
  lemma {:induction false} IdRunOfPrefix(id: string, tail: string)
    requires forall i :: 0 <= i < |id| ==> IsIdChar(id[i])
    requires tail == [] || !IsIdChar(tail[0])
    ensures IdRunLength(id + tail) == |id|
  {
    if id != [] {
      assert (id + tail)[1..] == id[1..] + tail;
      IdRunOfPrefix(id[1..], tail);
    }
  }

  /** The marker right after the host, followed by an id, matches there. */
  lemma MatchAfterHost(host: string, marker: string, id: string, tail: string)
    requires IsDriveId(id)
    ensures MatchAt(host + marker + id + tail, marker, |host|)
  {
    var s := host + marker + id + tail;
    assert s[|host|..] == marker + id + tail;
    assert s[|host| + |marker|] == id[0];
  }

  /** A marker whose first character the host lacks matches nowhere inside the host. */
  lemma NoMatchInHost(s: string, host: string, marker: string)
    requires marker != [] && marker[0] !in host && |host| <= |s| && s[..|host|] == host
    ensures forall q :: 0 <= q < |host| ==> !MatchAt(s, marker, q)
  {
    forall q | 0 <= q < |host|
      ensures !MatchAt(s, marker, q)
    {
      assert s[q..][0] == s[q] == host[q];
    }
  }

  /** The id run after the marker is the id. */
  lemma IdAfterMarker(host: string, marker: string, id: string, tail: string)
    requires IsDriveId(id) && (tail == [] || !IsIdChar(tail[0]))
    ensures var s := host + marker + id + tail; IdRunAt(s, |host| + |marker|) == id
  {
    var s := host + marker + id + tail;
    var rest := s[|host| + |marker|..];
    assert rest == id + tail;
    IdRunOfPrefix(id, tail);
    assert rest[..|id|] == id;
  }

  /** A marker whose first character the host lacks, then an id: the search finds that id. */
  lemma MarkerThenId(host: string, marker: string, id: string, tail: string)
    requires marker != [] && marker[0] !in host && IsDriveId(id) && (tail == [] || !IsIdChar(tail[0]))
    ensures SearchFrom(host + marker + id + tail, marker, 0) == Some(id)
  {
    var s := host + marker + id + tail;
    MatchAfterHost(host, marker, id, tail);
    assert s[..|host|] == host;
    NoMatchInHost(s, host, marker);
    SearchFindsLeftmost(s, marker, 0, |host|);
    IdAfterMarker(host, marker, id, tail);
  }

  /** A share link yields the id after its first "/file/d/". */
  lemma FileLinkId(host: string, id: string, tail: string)
    requires '/' !in host && IsDriveId(id) && (tail == [] || !IsIdChar(tail[0]))
    ensures ExtractGoogleDriveFileId(host + "/file/d/" + id + tail) == Some(id)
  {
    MarkerThenId(host, "/file/d/", id, tail);
  }
}
