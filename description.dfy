/**
 * The plain-text → HTML description formatter of event_sync/orchestrator.py: blank lines separate
 * paragraphs, a paragraph whose every line is a bullet becomes a `<ul>`, and any other paragraph a
 * `<p>` whose lines are joined with `<br/>`; all text is HTML-escaped.
 */
module Description {
  import opened Wrappers
  import opened Text

  // ----- _extract_bullet_text -----

  /** `_BULLET_MARKERS`: hyphen, asterisk, bullet, en dash and em dash, each followed by a space. */
  const BulletMarkers: seq<string> := ["- ", "* ", "\U{2022} ", "\U{2013} ", "\U{2014} "]

  /** The text after the first of `markers` that `stripped` starts with, stripped. */
  function MarkerText(stripped: string, markers: seq<string>): Option<string> {
    if markers == [] then None
    else if StartsWith(stripped, markers[0]) then Some(Strip(stripped[|markers[0]|..]))
    else MarkerText(stripped, markers[1..])
  }

  /** Some marker matches exactly when one of them is a prefix. */
  lemma {:induction false} MarkerTextSome(stripped: string, markers: seq<string>)
    ensures MarkerText(stripped, markers).Some? <==> exists j :: 0 <= j < |markers| && StartsWith(stripped, markers[j])
  {
    if markers != [] && !StartsWith(stripped, markers[0]) {
      MarkerTextSome(stripped, markers[1..]);
      assert forall j :: 1 <= j < |markers| ==> markers[j] == markers[1..][j - 1];
    }
  }

  /** The first matching marker decides the text. */
  lemma {:induction false} MarkerTextFirst(stripped: string, markers: seq<string>, k: nat)
    requires k < |markers| && StartsWith(stripped, markers[k])
    requires forall j :: 0 <= j < k ==> !StartsWith(stripped, markers[j])
    ensures MarkerText(stripped, markers) == Some(Strip(stripped[|markers[k]|..]))
  {
    if k > 0 {
      MarkerTextFirst(stripped, markers[1..], k - 1);
    }
  }

  /** A line is a bullet when, after leading whitespace, it starts with one of the markers. */
  predicate IsBullet(line: string) {
    exists k :: 0 <= k < |BulletMarkers| && StartsWith(LStrip(line), BulletMarkers[k])
  }

  /** The first characters of the markers; each marker is one of them followed by a space. */
  predicate IsMarkerChar(c: char) {
    c == '-' || c == '*' || c == '\U{2022}' || c == '\U{2013}' || c == '\U{2014}'
  }

  /**
   * `_extract_bullet_text`: past the leading whitespace, a marker character and a space start a
   * bullet, whose text is the rest stripped; any other line has none.
   */
  function ExtractBulletText(line: string): Option<string>
    decreases |line|
  {
    if line != [] && IsSpace(line[0]) then ExtractBulletText(line[1..])
    else if |line| >= 2 && IsMarkerChar(line[0]) && line[1] == ' ' then Some(Strip(line[2..]))
    else None
  }

  /** Every marker is one character followed by a space. */
  predicate PairMarkers(markers: seq<string>) {
    forall j :: 0 <= j < |markers| ==> |markers[j]| == 2 && markers[j][1] == ' '
  }

  /** Some marker starts with the character `c`. */
  predicate LeadsSome(markers: seq<string>, c: char) {
    exists j :: 0 <= j < |markers| && markers[j] != [] && markers[j][0] == c
  }

  /**
   * With markers of one character and a space, the scan finds text exactly when the text starts
   * with one of their characters and a space, and then, whichever marker matched, it is the rest
   * from the third character on, stripped.
   */
  lemma {:induction false} PairMarkerText(t: string, markers: seq<string>)
    requires PairMarkers(markers)
    ensures MarkerText(t, markers) ==
      if |t| >= 2 && t[1] == ' ' && LeadsSome(markers, t[0]) then Some(Strip(t[2..])) else None
  {
    if markers != [] {
      var m := markers[0];
      assert StartsWith(t, m) <==> |t| >= 2 && t[0] == m[0] && t[1] == ' ' by {
        if |t| >= 2 && t[0] == m[0] && t[1] == ' ' {
          assert t[..2] == m;
        }
      }
      if !StartsWith(t, m) {
        PairMarkerText(t, markers[1..]);
        if |t| >= 2 && t[1] == ' ' {
          if LeadsSome(markers, t[0]) {
            var j :| 0 <= j < |markers| && markers[j] != [] && markers[j][0] == t[0];
            assert j > 0 && markers[1..][j - 1] == markers[j];
          }
          if LeadsSome(markers[1..], t[0]) {
            var j :| 0 <= j < |markers[1..]| && markers[1..][j] != [] && markers[1..][j][0] == t[0];
            assert markers[j + 1] == markers[1..][j];
          }
        }
      } else {
        assert markers[0][0] == t[0];
      }
    }
  }

  /** `_BULLET_MARKERS` are one character and a space each, and their first characters are the marker characters. */
  lemma BulletMarkerShape(c: char)
    ensures PairMarkers(BulletMarkers)
    ensures LeadsSome(BulletMarkers, c) <==> IsMarkerChar(c)
  {
    if IsMarkerChar(c) {
      if c == '-' { assert BulletMarkers[0][0] == c; }
      else if c == '*' { assert BulletMarkers[1][0] == c; }
      else if c == '\U{2022}' { assert BulletMarkers[2][0] == c; }
      else if c == '\U{2013}' { assert BulletMarkers[3][0] == c; }
      else { assert BulletMarkers[4][0] == c; }
    }
  }

  /** On text that starts with no whitespace, the scan over the markers is the character test. */
  lemma MarkersOfStripped(t: string)
    ensures MarkerText(t, BulletMarkers) ==
      if |t| >= 2 && IsMarkerChar(t[0]) && t[1] == ' ' then Some(Strip(t[2..])) else None
  {
    if |t| >= 1 {
      BulletMarkerShape(t[0]);
    } else {
      BulletMarkerShape(' ');
    }
    PairMarkerText(t, BulletMarkers);
  }

  /**
   * The bullet text is what the scan over `_BULLET_MARKERS`, in order, finds on the left-stripped
   * line.
   */
  lemma {:induction false} ExtractBulletTextByMarkers(line: string)
    ensures ExtractBulletText(line) == MarkerText(LStrip(line), BulletMarkers)
    decreases |line|
  {
    if line != [] && IsSpace(line[0]) {
      ExtractBulletTextByMarkers(line[1..]);
    } else {
      MarkersOfStripped(line);
    }
  }

  /** A line has bullet text exactly when it is a bullet. */
  lemma ExtractBulletTextSome(line: string)
    ensures ExtractBulletText(line).Some? <==> IsBullet(line)
  {
    ExtractBulletTextByMarkers(line);
    MarkerTextSome(LStrip(line), BulletMarkers);
  }

  /** Whichever marker a line starts with, the bullet text is what follows that marker, stripped. */
  lemma BulletTextAfterMarker(line: string, k: nat)
    requires k < |BulletMarkers| && StartsWith(LStrip(line), BulletMarkers[k])
    ensures ExtractBulletText(line) == Some(Strip(LStrip(line)[|BulletMarkers[k]|..]))
  {
    var t := LStrip(line);
    BulletMarkerShape(' ');
    assert t[..2] == BulletMarkers[k];
    assert LeadsSome(BulletMarkers, t[0]) by {
      assert BulletMarkers[k][0] == t[0];
    }
    PairMarkerText(t, BulletMarkers);
    ExtractBulletTextByMarkers(line);
  }

  // ----- line splitting -----

  /** `s.replace("\r\n", "\n")`: each carriage return–line feed pair, left to right, becomes a line feed. */
  function ReplaceCrLf(s: string): string
    decreases |s|
  {
    if s == [] then []
    else if |s| >= 2 && s[0] == '\r' && s[1] == '\n' then "\n" + ReplaceCrLf(s[2..])
    else [s[0]] + ReplaceCrLf(s[1..])
  }

  /** Text is blank exactly when its first character is whitespace and the rest is blank. */
  lemma BlankCons(c: char, rest: string)
    ensures IsBlank([c] + rest) <==> IsSpace(c) && IsBlank(rest)
  {
    var s := [c] + rest;
    assert s[0] == c;
    assert forall i :: 1 <= i < |s| ==> s[i] == rest[i - 1];
    if IsBlank(s) {
      forall i | 0 <= i < |rest|
        ensures IsSpace(rest[i])
      {
        assert rest[i] == s[i + 1];
      }
    }
  }

  /** Replacing line ends neither creates nor removes visible characters. */
  lemma {:induction false} ReplaceCrLfBlank(s: string)
    ensures IsBlank(ReplaceCrLf(s)) <==> IsBlank(s)
    decreases |s|
  {
    if s != [] {
      assert s == [s[0]] + s[1..];
      BlankCons(s[0], s[1..]);
      if |s| >= 2 && s[0] == '\r' && s[1] == '\n' {
        ReplaceCrLfBlank(s[2..]);
        assert s[1..] == [s[1]] + s[2..];
        BlankCons(s[1], s[2..]);
        BlankCons('\n', ReplaceCrLf(s[2..]));
      } else {
        ReplaceCrLfBlank(s[1..]);
        BlankCons(s[0], ReplaceCrLf(s[1..]));
      }
    }
  }

  /** The text with Windows and old Mac line ends made `\n`: no carriage return is left. */
  function NormalizeNewlines(s: string): (r: string)
    ensures '\r' !in r
    ensures IsBlank(r) <==> IsBlank(s)
  {
    ReplaceCrLfBlank(s);
    ReplaceChar(ReplaceCrLf(s), '\r', '\n')
  }

  // ----- paragraphs -----

  /** Closing the paragraph being built: kept only when it has a line. */
  function Close(closed: seq<seq<string>>, current: seq<string>): seq<seq<string>> {
    if current != [] then closed + [current] else closed
  }

  /**
   * The paragraphs collected from `lines`, given those already closed and the one being built:
   * a blank line closes the current paragraph, any other line joins it right-stripped.
   */
  function GroupFrom(closed: seq<seq<string>>, current: seq<string>, lines: seq<string>): seq<seq<string>>
    decreases |lines|
  {
    if lines == [] then Close(closed, current)
    else if IsBlank(lines[0]) then GroupFrom(Close(closed, current), [], lines[1..])
    else GroupFrom(closed, current + [RStrip(lines[0])], lines[1..])
  }

  /** The paragraphs of a list of lines. */
  function Paragraphs(lines: seq<string>): seq<seq<string>> {
    GroupFrom([], [], lines)
  }

  /** The lines of the paragraphs, in order. */
  function Flatten(ps: seq<seq<string>>): seq<string> {
    if ps == [] then [] else Flatten(ps[..|ps| - 1]) + ps[|ps| - 1]
  }

  /** The non-blank lines, right-stripped: what the paragraphs must hold between them. */
  function Kept(lines: seq<string>): seq<string> {
    if lines == [] then []
    else (if IsBlank(lines[0]) then [] else [RStrip(lines[0])]) + Kept(lines[1..])
  }

  /** A paragraph line as it is kept: not blank and without trailing whitespace. */
  predicate IsParagraphLine(line: string) {
    line != [] && !IsSpace(line[|line| - 1])
  }

  /** A paragraph as it is kept: at least one line, each a paragraph line. */
  predicate IsParagraph(p: seq<string>) {
    p != [] && forall j :: 0 <= j < |p| ==> IsParagraphLine(p[j])
  }

  /** Grouping loses no line and invents none: the paragraphs hold exactly the non-blank lines, in order. */
  lemma {:induction false} GroupFromFlatten(closed: seq<seq<string>>, current: seq<string>, lines: seq<string>)
    ensures Flatten(GroupFrom(closed, current, lines)) == Flatten(closed) + current + Kept(lines)
    decreases |lines|
  {
    if lines == [] {
      CloseFlatten(closed, current);
    } else if IsBlank(lines[0]) {
      GroupFromFlatten(Close(closed, current), [], lines[1..]);
      BlankLineStep(closed, current, lines);
    } else {
      GroupFromFlatten(closed, current + [RStrip(lines[0])], lines[1..]);
      TextLineStep(closed, current, lines);
    }
  }

  /** A blank line closes the current paragraph and keeps nothing. */
  lemma BlankLineStep(closed: seq<seq<string>>, current: seq<string>, lines: seq<string>)
    requires lines != [] && IsBlank(lines[0])
    requires var c := Close(closed, current);
      Flatten(GroupFrom(c, [], lines[1..])) == Flatten(c) + [] + Kept(lines[1..])
    ensures Flatten(GroupFrom(closed, current, lines)) == Flatten(closed) + current + Kept(lines)
  {
    CloseFlatten(closed, current);
  }

  /** Any other line joins the current paragraph, right-stripped, and is kept. */
  lemma TextLineStep(closed: seq<seq<string>>, current: seq<string>, lines: seq<string>)
    requires lines != [] && !IsBlank(lines[0])
    requires var line := RStrip(lines[0]);
      Flatten(GroupFrom(closed, current + [line], lines[1..])) == Flatten(closed) + (current + [line]) + Kept(lines[1..])
    ensures Flatten(GroupFrom(closed, current, lines)) == Flatten(closed) + current + Kept(lines)
  {
    var line := RStrip(lines[0]);
    assert Kept(lines) == [line] + Kept(lines[1..]);
    AppendAssoc(Flatten(closed), current, [line], Kept(lines[1..]));
  }

  /** Closing a paragraph appends its lines to those of the closed ones. */
  lemma CloseFlatten(closed: seq<seq<string>>, current: seq<string>)
    ensures Flatten(Close(closed, current)) == Flatten(closed) + current
  {
    if current != [] {
      assert (closed + [current])[..|closed|] == closed;
    }
  }

  lemma AppendAssoc<T>(a: seq<T>, b: seq<T>, c: seq<T>, d: seq<T>)
    ensures a + (b + c) + d == a + b + (c + d)
  {
  }

  /** Every collected paragraph has a line, and every line of it is non-blank and right-stripped. */
  lemma {:induction false} GroupFromParagraphs(closed: seq<seq<string>>, current: seq<string>, lines: seq<string>)
    requires forall i :: 0 <= i < |closed| ==> IsParagraph(closed[i])
    requires forall j :: 0 <= j < |current| ==> IsParagraphLine(current[j])
    ensures forall i :: 0 <= i < |GroupFrom(closed, current, lines)| ==> IsParagraph(GroupFrom(closed, current, lines)[i])
    decreases |lines|
  {
    if lines == [] {
    } else if IsBlank(lines[0]) {
      GroupFromParagraphs(Close(closed, current), [], lines[1..]);
    } else {
      var line := RStrip(lines[0]);
      GroupFromParagraphs(closed, current + [line], lines[1..]);
    }
  }

  /** The paragraphs of a list of lines are well formed and hold exactly its non-blank lines. */
  lemma ParagraphsOfLines(lines: seq<string>)
    ensures Flatten(Paragraphs(lines)) == Kept(lines)
    ensures forall i :: 0 <= i < |Paragraphs(lines)| ==> IsParagraph(Paragraphs(lines)[i])
  {
    GroupFromFlatten([], [], lines);
    GroupFromParagraphs([], [], lines);
  }

  /** The loop that collects `paragraphs`, with `current` the paragraph being built. */
  method CollectParagraphs(lines: seq<string>) returns (paragraphs: seq<seq<string>>)
    ensures paragraphs == Paragraphs(lines)
  {
    paragraphs := [];
    var current: seq<string> := [];
    for i := 0 to |lines|
      invariant GroupFrom(paragraphs, current, lines[i..]) == Paragraphs(lines)
    {
      assert lines[i..][1..] == lines[i + 1..];
      var line := lines[i];
      if Strip(line) == "" {
        if current != [] {
          paragraphs := paragraphs + [current];
          current := [];
        }
        continue;
      }
      current := current + [RStrip(line)];
    }
    if current != [] {
      paragraphs := paragraphs + [current];
    }
  }

  // ----- blocks -----

  /** Every line of the paragraph is a bullet. */
  predicate AllBullets(para: seq<string>) {
    forall j :: 0 <= j < |para| ==> ExtractBulletText(para[j]).Some?
  }

  /**
   * The scan over a paragraph's lines from line `i`, with the escaped bullet texts collected so
   * far: None as soon as a line is not a bullet. The bullet reading and the escaping are
   * parameters, so that the lemmas below hold for any of them.
   */
  function ScanFrom(para: seq<string>, i: nat, items: seq<string>,
                    bullet: string -> Option<string>, escape: string -> string): Option<seq<string>>
    requires i <= |para|
    decreases |para| - i
  {
    if i == |para| then Some(items)
    else match bullet(para[i])
      case None => None
      case Some(text) => ScanFrom(para, i + 1, items + [escape(text)], bullet, escape)
  }

  /** The scan succeeds exactly when every line from `i` on is a bullet. */
  lemma {:induction false} ScanFromSome(para: seq<string>, i: nat, items: seq<string>,
                                        bullet: string -> Option<string>, escape: string -> string)
    requires i <= |para|
    ensures ScanFrom(para, i, items, bullet, escape).Some? <==> forall j :: i <= j < |para| ==> bullet(para[j]).Some?
    decreases |para| - i
  {
    if i < |para| && bullet(para[i]).Some? {
      ScanFromSome(para, i + 1, items + [escape(bullet(para[i]).value)], bullet, escape);
    }
  }

  /** A successful scan keeps the items collected so far and appends one escaped item per line, in order. */
  lemma {:induction false} ScanFromItems(para: seq<string>, i: nat, items: seq<string>,
                                         bullet: string -> Option<string>, escape: string -> string)
    requires i <= |para|
    requires ScanFrom(para, i, items, bullet, escape).Some?
    ensures |ScanFrom(para, i, items, bullet, escape).value| == |items| + |para| - i
    ensures ScanFrom(para, i, items, bullet, escape).value[..|items|] == items
    ensures forall j :: i <= j < |para| ==>
      bullet(para[j]).Some? && ScanFrom(para, i, items, bullet, escape).value[|items| + j - i] == escape(bullet(para[j]).value)
    decreases |para| - i
  {
    if i < |para| {
      var text := bullet(para[i]).value;
      var next := items + [escape(text)];
      ScanFromItems(para, i + 1, next, bullet, escape);
      var r := ScanFrom(para, i, items, bullet, escape).value;
      assert r == ScanFrom(para, i + 1, next, bullet, escape).value;
      assert r[..|next|] == next;
      assert r[..|items|] == next[..|items|];
      assert r[|items|] == next[|items|];
    }
  }

  /** The bullet items of a paragraph, or None when some line is not a bullet. */
  function BulletItems(para: seq<string>): Option<seq<string>> {
    ScanFrom(para, 0, [], ExtractBulletText, EscapeHtml)
  }

  /** `"".join(f"<li>{item}</li>" for item in items)`. */
  function ListItems(items: seq<string>): string {
    if items == [] then "" else "<li>" + items[0] + "</li>" + ListItems(items[1..])
  }

  /** The lines of an ordinary paragraph, each stripped and escaped. */
  function EscapedLines(para: seq<string>): (lines: seq<string>)
    ensures |lines| == |para|
  {
    if para == [] then [] else [EscapeHtml(Strip(para[0]))] + EscapedLines(para[1..])
  }

  /** The HTML block of one paragraph. */
  function BlockOf(para: seq<string>): string {
    var items := BulletItems(para);
    if items.Some? && items.value != [] then "<ul>" + ListItems(items.value) + "</ul>"
    else "<p>" + Join(EscapedLines(para), "<br/>") + "</p>"
  }

  /** A paragraph of bullets renders as a list with one item per line, holding its escaped bullet text. */
  lemma ListBlock(para: seq<string>)
    requires para != [] && AllBullets(para)
    ensures BulletItems(para).Some?
    ensures var items := BulletItems(para).value;
      && BlockOf(para) == "<ul>" + ListItems(items) + "</ul>"
      && |items| == |para|
      && forall j :: 0 <= j < |para| ==> items[j] == EscapeHtml(ExtractBulletText(para[j]).value)
  {
    ScanFromSome(para, 0, [], ExtractBulletText, EscapeHtml);
    ScanFromItems(para, 0, [], ExtractBulletText, EscapeHtml);
  }

  /** Any other paragraph renders as a `<p>` of its escaped lines. */
  lemma ParagraphBlock(para: seq<string>)
    requires !AllBullets(para)
    ensures BlockOf(para) == "<p>" + Join(EscapedLines(para), "<br/>") + "</p>"
  {
    ScanFromSome(para, 0, [], ExtractBulletText, EscapeHtml);
  }

  /**
   * A non-empty paragraph renders as a list exactly when every line is a bullet, with one item per
   * line holding that line's escaped bullet text, and as a `<p>` otherwise.
   */
  lemma BlockKind(para: seq<string>)
    requires para != []
    ensures StartsWith(BlockOf(para), "<ul>") <==> AllBullets(para)
    ensures StartsWith(BlockOf(para), "<p>") <==> !AllBullets(para)
    ensures AllBullets(para) ==>
      var items := BulletItems(para).value;
      |items| == |para| && forall j :: 0 <= j < |para| ==> items[j] == EscapeHtml(ExtractBulletText(para[j]).value)
  {
    if AllBullets(para) {
      ListBlock(para);
      ListTag(ListItems(BulletItems(para).value));
    } else {
      ParagraphBlock(para);
      ParagraphTag(Join(EscapedLines(para), "<br/>"));
    }
  }

  /** A list block starts with `<ul>` and not with `<p>`. */
  lemma ListTag(inner: string)
    ensures StartsWith("<ul>" + inner + "</ul>", "<ul>") && !StartsWith("<ul>" + inner + "</ul>", "<p>")
  {
    var block := "<ul>" + inner + "</ul>";
    assert block[..4] == "<ul>";
    assert block[1] == 'u';
  }

  /** A paragraph block starts with `<p>` and not with `<ul>`. */
  lemma ParagraphTag(inner: string)
    ensures StartsWith("<p>" + inner + "</p>", "<p>") && !StartsWith("<p>" + inner + "</p>", "<ul>")
  {
    var block := "<p>" + inner + "</p>";
    assert block[..3] == "<p>";
    assert block[1] == 'p';
  }

  /** The body of the paragraph loop: the bullet scan, stopping at the first line that is not a bullet. */
  method RenderParagraph(para: seq<string>) returns (block: string)
    ensures block == BlockOf(para)
  {
    var items: seq<string> := [];
    var allBullets := true;
    var i := 0;
    while i < |para|
      invariant 0 <= i <= |para|
      invariant ScanFrom(para, i, items, ExtractBulletText, EscapeHtml) == BulletItems(para)
    {
      var bullet := ExtractBulletText(para[i]);
      if bullet.None? {
        allBullets := false;
        break;
      }
      items := items + [EscapeHtml(bullet.value)];
      i := i + 1;
    }
    if allBullets && items != [] {
      return "<ul>" + ListItems(items) + "</ul>";
    }
    block := "<p>" + Join(EscapedLines(para), "<br/>") + "</p>";
  }

  // ----- format_description_as_html -----

  /** The blocks of the paragraphs, in order. */
  function Blocks(ps: seq<seq<string>>): (bs: seq<string>)
    ensures |bs| == |ps|
  {
    if ps == [] then [] else Blocks(ps[..|ps| - 1]) + [BlockOf(ps[|ps| - 1])]
  }

  /** The first block is the first paragraph's. */
  lemma {:induction false} BlocksFirst(ps: seq<seq<string>>)
    requires ps != []
    ensures Blocks(ps)[0] == BlockOf(ps[0])
  {
    if |ps| > 1 {
      BlocksFirst(ps[..|ps| - 1]);
    }
  }

  /** The text `format_description_as_html` splits into lines: line ends unified, then stripped. */
  function NormalizedText(raw: string): string {
    Strip(NormalizeNewlines(raw))
  }

  /** What `format_description_as_html` returns. */
  function DescriptionHtml(raw: string): string {
    if raw == "" then ""
    else
      var normalized := NormalizedText(raw);
      if normalized == "" then "" else Concat(Blocks(Paragraphs(Split(normalized, '\n'))))
  }

  /** The loop over the paragraphs that fills `html_blocks`. */
  method RenderBlocks(paragraphs: seq<seq<string>>) returns (blocks: seq<string>)
    ensures blocks == Blocks(paragraphs)
  {
    blocks := [];
    for i := 0 to |paragraphs|
      invariant blocks == Blocks(paragraphs[..i])
    {
      assert paragraphs[..i + 1][..i] == paragraphs[..i];
      var block := RenderParagraph(paragraphs[i]);
      blocks := blocks + [block];
    }
    assert paragraphs[..|paragraphs|] == paragraphs;
  }

  /** `format_description_as_html`: collects the paragraphs, then renders one block per paragraph. */
  method FormatDescriptionAsHtml(raw: string) returns (html: string)
    ensures html == DescriptionHtml(raw)
  {
    if raw == "" {
      return "";
    }
    var normalized := Strip(NormalizeNewlines(raw));
    if normalized == "" {
      return "";
    }
    var lines := Split(normalized, '\n');
    var paragraphs := CollectParagraphs(lines);
    var blocks := RenderBlocks(paragraphs);
    html := Concat(blocks);
  }

  /** Lines that are all blank join, with line feeds, into blank text. */
  lemma {:induction false} KeptNoneBlank(lines: seq<string>)
    requires Kept(lines) == []
    ensures IsBlank(Join(lines, "\n"))
  {
    if |lines| > 1 {
      KeptNoneBlank(lines[1..]);
      var rest := Join(lines[1..], "\n");
      assert Join(lines, "\n") == lines[0] + "\n" + rest;
      assert IsBlank(lines[0]);
      forall i | 0 <= i < |lines[0] + "\n" + rest|
        ensures IsSpace((lines[0] + "\n" + rest)[i])
      {
        if i > |lines[0]| {
          assert (lines[0] + "\n" + rest)[i] == rest[i - |lines[0]| - 1];
        }
      }
    }
  }

  /** Concatenating blocks that start with a given first block starts with that block. */
  lemma ConcatStartsWith(bs: seq<string>)
    requires bs != []
    ensures StartsWith(Concat(bs), bs[0])
  {
    assert Concat(bs) == bs[0] + Concat(bs[1..]);
    assert Concat(bs)[..|bs[0]|] == bs[0];
  }

  /**
   * The description is empty exactly when the text is blank; any other text renders as blocks, the
   * first of them a `<p>` or a `<ul>`.
   */
  lemma DescriptionEmptyIffBlank(raw: string)
    ensures DescriptionHtml(raw) == "" <==> IsBlank(raw)
    ensures !IsBlank(raw) ==> StartsWith(DescriptionHtml(raw), "<p>") || StartsWith(DescriptionHtml(raw), "<ul>")
  {
    if !IsBlank(raw) {
      var normalized := NormalizedText(raw);
      assert normalized != "";
      assert !IsBlank(normalized) by {
        assert !IsSpace(normalized[0]);
      }
      RenderedStartsWithTag(normalized);
      var html := Concat(Blocks(Paragraphs(Split(normalized, '\n'))));
      assert DescriptionHtml(raw) == html;
    }
  }

  /** Text that is not blank renders as blocks, the first of them a `<p>` or a `<ul>`. */
  lemma RenderedStartsWithTag(normalized: string)
    requires !IsBlank(normalized)
    ensures var html := Concat(Blocks(Paragraphs(Split(normalized, '\n'))));
      StartsWith(html, "<p>") || StartsWith(html, "<ul>")
  {
    var lines := Split(normalized, '\n');
    JoinSplit(normalized, '\n');
    if Kept(lines) == [] {
      KeptNoneBlank(lines);
      assert false;
    }
    var ps := Paragraphs(lines);
    ParagraphsOfLines(lines);
    assert ps != [];
    var bs := Blocks(ps);
    BlocksFirst(ps);
    ConcatStartsWith(bs);
    BlockKind(ps[0]);
    assert |bs[0]| >= 3;
    assert StartsWith(bs[0], "<p>") || StartsWith(bs[0], "<ul>");
    assert Concat(bs)[..|bs[0]|] == bs[0];
  }

}
