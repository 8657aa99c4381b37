/** What a memory file is read as, whatever its text
    (modules/ai_agent/adapters/memory/gcs_memory_store.py, `_parse_md_file`, `_parse_frontmatter`), said of the lines
    of its header. */
module MemoryHeaders {
  import opened Basics
  import opened Text
  import opened MemoryFile

  // ---------------------------------------------------------------- lines of a header

  /** A line that is not indented and has this key before its first colon. */
  predicate KeyLine(line: string, key: string) {
    var s := StripRight(line);
    ':' in s && !("  " <= s) && KeyOf(s) == key
  }

  function TextOf(line: string): string {
    ValueOf(StripRight(line))
  }

  /** A key line without text: the key of a table, if rows follow. */
  predicate Heading(line: string, key: string) {
    KeyLine(line, key) && TextOf(line) == ""
  }

  predicate RowLine(line: string) {
    var s := StripRight(line);
    ':' in s && "  " <= s
  }

  /** The last line with the key is line `i`. */
  predicate LastKeyLine(lines: seq<string>, i: int, key: string) {
    0 <= i < |lines| && KeyLine(lines[i], key) && forall j :: i < j < |lines| ==> !KeyLine(lines[j], key)
  }

  ghost predicate NoHeading(lines: seq<string>, key: string) {
    forall i :: 0 <= i < |lines| ==> !Heading(lines[i], key)
  }

  // ---------------------------------------------------------------- keys with text

  /** The entry under a key that heads no table: the text of the last line with that key, or what was there before. */
  ghost predicate EntryIs(lines: seq<string>, key: string, before: map<string, Entry>, after: map<string, Entry>) {
    && (forall i :: LastKeyLine(lines, i, key) ==> key in after && after[key] == Line(TextOf(lines[i])))
    && ((forall i :: 0 <= i < |lines| ==> !KeyLine(lines[i], key)) ==>
          (key in after <==> key in before) && (key in before ==> after[key] == before[key]))
  }

  lemma LineScans(s: Scan, line: string, key: string)
    requires s.pending != Some(key) && !Heading(line, key)
    ensures var t := ScanLine(s, line);
            && t.pending != Some(key)
            && (if KeyLine(line, key) then key in t.result && t.result[key] == Line(TextOf(line))
                else (key in t.result <==> key in s.result) && (key in s.result ==> t.result[key] == s.result[key]))
  {}

  lemma {:induction false} KeyScans(s: Scan, lines: seq<string>, key: string)
    requires s.pending != Some(key) && NoHeading(lines, key)
    ensures ScanLines(s, lines).pending != Some(key) && EntryIs(lines, key, s.result, ScanLines(s, lines).result)
    decreases |lines|
  {
    if lines != [] {
      NoHeadingBefore(lines, key);
      KeyScans(s, lines[..|lines| - 1], key);
      LastScans(s, lines);
      KeyScansOn(ScanLines(s, lines[..|lines| - 1]), ScanLines(s, lines), lines, key, s.result);
    }
  }

  lemma NoHeadingBefore(lines: seq<string>, key: string)
    requires lines != [] && NoHeading(lines, key)
    ensures NoHeading(lines[..|lines| - 1], key) && !Heading(lines[|lines| - 1], key)
  {
    assert forall i :: 0 <= i < |lines| - 1 ==> lines[..|lines| - 1][i] == lines[i];
  }

  lemma LastScans(s: Scan, lines: seq<string>)
    requires lines != []
    ensures ScanLines(s, lines) == ScanLine(ScanLines(s, lines[..|lines| - 1]), lines[|lines| - 1])
  {
    var n := |lines| - 1;
    assert lines == lines[..n] + [lines[n]];
    ScanLinesAppend(s, lines[..n], lines[n]);
  }

  lemma KeyScansOn(t: Scan, u: Scan, lines: seq<string>, key: string, before: map<string, Entry>)
    requires lines != [] && u == ScanLine(t, lines[|lines| - 1]) && !Heading(lines[|lines| - 1], key)
    requires t.pending != Some(key) && EntryIs(lines[..|lines| - 1], key, before, t.result)
    ensures u.pending != Some(key) && EntryIs(lines, key, before, u.result)
  {
    var n := |lines| - 1;
    LineScans(t, lines[n], key);
    KeyOneMore(lines[..n], lines[n], key, before, t.result, u.result);
    assert lines == lines[..n] + [lines[n]];
  }

  lemma KeyOneMore(lines: seq<string>, last: string, key: string, before: map<string, Entry>, half: map<string, Entry>,
                   after: map<string, Entry>)
    requires EntryIs(lines, key, before, half)
    requires if KeyLine(last, key) then key in after && after[key] == Line(TextOf(last))
             else (key in after <==> key in half) && (key in half ==> after[key] == half[key])
    ensures EntryIs(lines + [last], key, before, after)
  {
    var all := lines + [last];
    forall i | LastKeyLine(all, i, key) ensures key in after && after[key] == Line(TextOf(all[i])) {
      if i < |lines| {
        assert !KeyLine(all[|lines|], key);
        assert forall j :: i < j < |lines| ==> all[j] == lines[j];
        assert LastKeyLine(lines, i, key);
      }
    }
    if forall i :: 0 <= i < |all| ==> !KeyLine(all[i], key) {
      assert !KeyLine(all[|lines|], key);
      forall i | 0 <= i < |lines| ensures !KeyLine(lines[i], key) { assert all[i] == lines[i]; }
    }
  }

  /** In the front matter, a key that heads no table has the text of the last line with it, and is absent exactly when
      there is no such line. */
  lemma TextOfKey(lines: seq<string>, key: string)
    requires NoHeading(lines, key)
    ensures var fm := Flush(ScanLines(START, lines));
            && (forall i :: LastKeyLine(lines, i, key) ==> key in fm && fm[key] == Line(TextOf(lines[i])))
            && ((forall i :: 0 <= i < |lines| ==> !KeyLine(lines[i], key)) ==> key !in fm)
  {
    KeyScans(START, lines, key);
  }

  // ---------------------------------------------------------------- a key with a table

  predicate RowOf(line: string, key: string) {
    RowLine(line) && KeyOf(Strip(StripRight(line))) == key
  }

  function RowText(line: string): string {
    ValueOf(Strip(StripRight(line)))
  }

  predicate LastRow(rows: seq<string>, i: int, key: string) {
    0 <= i < |rows| && RowOf(rows[i], key) && forall j :: i < j < |rows| ==> !RowOf(rows[j], key)
  }

  /** The rows of a table are these lines; of two with one key the later counts. */
  ghost predicate TableIs(rows: seq<string>, key: string, before: map<string, string>, table: map<string, string>) {
    && (forall i :: LastRow(rows, i, key) ==> key in table && table[key] == RowText(rows[i]))
    && ((forall i :: 0 <= i < |rows| ==> !RowOf(rows[i], key)) ==>
          (key in table <==> key in before) && (key in before ==> table[key] == before[key]))
  }

  ghost predicate AllRows(rows: seq<string>) {
    forall i :: 0 <= i < |rows| ==> RowLine(rows[i])
  }

  /** What these rows make of the scan. */
  ghost predicate Rowed(s: Scan, t: Scan, rows: seq<string>, key: string) {
    && t.result == s.result && t.pending == s.pending && (rows != [] ==> t.nested != map[])
    && TableIs(rows, key, s.nested, t.nested)
  }

  lemma {:induction false} RowsScan(s: Scan, rows: seq<string>, key: string)
    requires AllRows(rows)
    ensures Rowed(s, ScanLines(s, rows), rows, key)
    decreases |rows|
  {
    if rows != [] {
      RowsBefore(rows);
      RowsScan(s, rows[..|rows| - 1], key);
      LastScans(s, rows);
      RowScansOn(s, ScanLines(s, rows[..|rows| - 1]), ScanLines(s, rows), rows, key);
    }
  }

  lemma RowsBefore(rows: seq<string>)
    requires rows != [] && AllRows(rows)
    ensures AllRows(rows[..|rows| - 1])
  {
    assert forall i :: 0 <= i < |rows| - 1 ==> rows[..|rows| - 1][i] == rows[i];
  }

  /** The line is a row with this key and text. */
  predicate Row(line: string, key: string, text: string) {
    RowOf(line, key) && RowText(line) == text
  }

  lemma RowScans(s: Scan, line: string) returns (key: string, text: string)
    requires RowLine(line)
    ensures Row(line, key, text) && ScanLine(s, line) == s.(nested := s.nested[key := text])
  {
    key, text := KeyOf(Strip(StripRight(line))), RowText(line);
  }

  lemma OneKey(line: string, key: string, other: string)
    requires RowOf(line, key) && RowOf(line, other)
    ensures key == other
  {}

  lemma RowScansOn(s: Scan, t: Scan, u: Scan, rows: seq<string>, key: string)
    requires rows != [] && RowLine(rows[|rows| - 1]) && u == ScanLine(t, rows[|rows| - 1])
    requires Rowed(s, t, rows[..|rows| - 1], key)
    ensures Rowed(s, u, rows, key)
  {
    var n := |rows| - 1;
    var k, text := RowScans(t, rows[n]);
    Extends(t, u, k, text);
    assert rows == rows[..n] + [rows[n]];
    if k == key {
      LastRowIs(rows, key);
    } else {
      NotLastRow(rows, k, text, key);
      SameRows(rows, key, s.nested, t.nested, u.nested);
    }
  }

  lemma Extends(t: Scan, u: Scan, key: string, text: string)
    requires u == t.(nested := t.nested[key := text])
    ensures u.nested != map[] && key in u.nested && u.nested[key] == text && u.result == t.result && u.pending == t.pending
    ensures forall other :: other != key ==>
              (other in u.nested <==> other in t.nested) && (other in t.nested ==> u.nested[other] == t.nested[other])
  {
    assert key in u.nested;
  }

  lemma LastRowIs(rows: seq<string>, key: string)
    requires rows != [] && RowOf(rows[|rows| - 1], key)
    ensures forall i :: LastRow(rows, i, key) ==> i == |rows| - 1
  {
    forall i | LastRow(rows, i, key) ensures i == |rows| - 1 {}
  }

  lemma NotLastRow(rows: seq<string>, other: string, text: string, key: string)
    requires rows != [] && Row(rows[|rows| - 1], other, text) && other != key
    ensures !RowOf(rows[|rows| - 1], key)
  {
    if RowOf(rows[|rows| - 1], key) { OneKey(rows[|rows| - 1], other, key); }
  }

  /** A line that is no row of the key does not change what is under the key. */
  lemma SameRows(rows: seq<string>, key: string, before: map<string, string>, half: map<string, string>,
                 after: map<string, string>)
    requires rows != [] && !RowOf(rows[|rows| - 1], key) && TableIs(rows[..|rows| - 1], key, before, half)
    requires (key in after <==> key in half) && (key in half ==> after[key] == half[key])
    ensures TableIs(rows, key, before, after)
  {
    var shorter := rows[..|rows| - 1];
    assert forall j :: 0 <= j < |shorter| ==> shorter[j] == rows[j];
    forall i | LastRow(rows, i, key) ensures key in after && after[key] == RowText(rows[i]) {
      assert LastRow(shorter, i, key);
    }
    if forall i :: 0 <= i < |rows| ==> !RowOf(rows[i], key) {
      forall i | 0 <= i < |shorter| ensures !RowOf(shorter[i], key) { assert !RowOf(rows[i], key); }
    }
  }

  lemma {:induction false} ScanLinesBoth(s: Scan, a: seq<string>, b: seq<string>)
    ensures ScanLines(s, a + b) == ScanLines(ScanLines(s, a), b)
    decreases |b|
  {
    if b == [] {
      assert a + b == a;
    } else {
      var n := |b| - 1;
      assert a + b == (a + b[..n]) + [b[n]] && b == b[..n] + [b[n]];
      ScanLinesBoth(s, a, b[..n]);
      ScanLinesAppend(s, a + b[..n], b[n]);
      ScanLinesAppend(ScanLines(s, a), b[..n], b[n]);
    }
  }

  lemma HeadingStarts(s: Scan, line: string, key: string)
    requires Heading(line, key)
    ensures ScanLine(s, line).pending == Some(key) && ScanLine(s, line).nested == map[]
  {}

  lemma NextKeyFlushes(s: Scan, line: string, key: string, other: string)
    requires s.pending == Some(key) && s.nested != map[] && KeyLine(line, other) && other != key
    ensures var t := ScanLine(s, line);
            t.pending != Some(key) && key in t.result && t.result[key] == Table(s.nested)
  {}

  /** A table is made of the rows right behind its heading, when the header ends there or another key follows, and the
      key does not come again. */
  lemma TableOfKey(before: seq<string>, heading: string, rows: seq<string>, rest: seq<string>, key: string, row: string)
    requires Heading(heading, key) && rows != [] && AllRows(rows)
    requires rest != [] ==> exists other :: other != key && KeyLine(rest[0], other)
    requires forall i :: 0 <= i < |rest| ==> !KeyLine(rest[i], key)
    ensures var fm := Flush(ScanLines(START, before + [heading] + rows + rest));
            key in fm && fm[key].Table? && TableIs(rows, row, map[], fm[key].rows)
  {
    var s := ScanLines(START, before);
    ScanLinesAppend(START, before, heading);
    ScanLinesBoth(START, before + [heading], rows);
    ScanLinesBoth(START, before + [heading] + rows, rest);
    HeadingStarts(s, heading, key);
    var h := ScanLine(s, heading);
    RowsScan(h, rows, row);
    TableStays(ScanLines(h, rows), rest, key);
  }

  lemma TableStays(s: Scan, rest: seq<string>, key: string)
    requires s.pending == Some(key) && s.nested != map[]
    requires rest != [] ==> exists other :: other != key && KeyLine(rest[0], other)
    requires forall i :: 0 <= i < |rest| ==> !KeyLine(rest[i], key)
    ensures var fm := Flush(ScanLines(s, rest)); key in fm && fm[key] == Table(s.nested)
  {
    if rest != [] {
      var other :| other != key && KeyLine(rest[0], other);
      NextKeyFlushes(s, rest[0], key, other);
      KeyScans(ScanLine(s, rest[0]), rest[1..], key);
    }
  }

  // ---------------------------------------------------------------- the file

  /** Without a fence at its start and a second one, a text is all body: its name is the file's without the ending, it
      has no description, and it is a project's. */
  lemma UnfencedIsBody(filename: string, raw: string, clock: Clock)
    requires !(DASHES <= raw) || forall i :: 3 <= i <= |raw| ==> !OccursAt(raw, DASHES, i)
    ensures ParseFile(filename, raw, clock).Ok?
    ensures var f := ParseFile(filename, raw, clock).file;
            && f.filename == filename && f.body == raw && f.description == "" && f.memoryType == "project"
            && f.updatedAt == clock.now
            && (forall base :: filename == base + ".md" ==> f.name == base)
            && ((forall base :: filename != base + ".md") ==> f.name == filename)
  {
    forall base | filename == base + ".md" ensures Stem(filename) == base {}
    if forall base :: filename != base + ".md" {
      assert |filename| >= 3 ==> filename == filename[..|filename| - 3] + filename[|filename| - 3..];
    }
  }

  /** A key's text, with the default where there is no line for it. */
  ghost predicate ReadsAs(lines: seq<string>, key: string, default: string, text: string) {
    && (forall i :: LastKeyLine(lines, i, key) ==> text == TextOf(lines[i]))
    && ((forall i :: 0 <= i < |lines| ==> !KeyLine(lines[i], key)) ==> text == default)
  }

  lemma ReadsKey(lines: seq<string>, key: string, default: string)
    requires NoHeading(lines, key)
    ensures var t := TextUnder(Flush(ScanLines(START, lines)), key, default);
            t.Some? && ReadsAs(lines, key, default, t.value)
  {
    TextOfKey(lines, key);
    if i :| 0 <= i < |lines| && KeyLine(lines[i], key) { var k := LastOf(lines, key, i); }
  }

  lemma {:induction false} LastOf(lines: seq<string>, key: string, i: nat) returns (k: int)
    requires i < |lines| && KeyLine(lines[i], key)
    ensures LastKeyLine(lines, k, key)
    decreases |lines| - i
  {
    if j :| i < j < |lines| && KeyLine(lines[j], key) { k := LastOf(lines, key, j); } else { k := i; }
  }

  lemma KnownTypes(kind: string)
    ensures KnownType(kind) <==> kind in ["user", "feedback", "project", "reference"]
  {}

  lemma MadeOfHeader(filename: string, fm: map<string, Entry>, body: string, clock: Clock, name: string,
                     description: string, stamp: string)
    requires TextUnder(fm, NAME, Stem(filename)) == Some(name) && TextUnder(fm, DESCRIPTION, "") == Some(description)
    requires TextUnder(fm, UPDATED_AT, "") == Some(stamp)
    ensures FromFrontMatter(filename, fm, body, clock)
         == if KnownType(TypeOf(fm)) then
              Ok(File(filename, name, description, TypeOf(fm), body,
                      if stamp == "" then clock.epoch else clock.parse(stamp)))
            else Rejected
  {}

  /** What the header, given by its lines, says of the file. */
  ghost predicate IsRead(p: Parsed, filename: string, lines: seq<string>, body: string, clock: Clock) {
    var kind := TypeOf(Flush(ScanLines(START, lines)));
    && (p.Ok? <==> kind in ["user", "feedback", "project", "reference"])
    && (p.Ok? ==>
          && p.file.filename == filename && p.file.memoryType == kind && p.file.body == body
          && ReadsAs(lines, NAME, Stem(filename), p.file.name)
          && ReadsAs(lines, DESCRIPTION, "", p.file.description)
          && exists stamp :: ReadsAs(lines, UPDATED_AT, "", stamp)
                             && p.file.updatedAt == if stamp == "" then clock.epoch else clock.parse(stamp))
  }

  lemma HeaderIsRead(filename: string, lines: seq<string>, body: string, clock: Clock)
    requires NoHeading(lines, NAME) && NoHeading(lines, DESCRIPTION) && NoHeading(lines, UPDATED_AT)
    ensures IsRead(FromFrontMatter(filename, Flush(ScanLines(START, lines)), body, clock), filename, lines, body, clock)
  {
    var fm := Flush(ScanLines(START, lines));
    ReadsKey(lines, NAME, Stem(filename));
    ReadsKey(lines, DESCRIPTION, "");
    ReadsKey(lines, UPDATED_AT, "");
    KnownTypes(TypeOf(fm));
    MadeOfHeader(filename, fm, body, clock, TextUnder(fm, NAME, Stem(filename)).value,
                 TextUnder(fm, DESCRIPTION, "").value, TextUnder(fm, UPDATED_AT, "").value);
  }

  /** A file with a header: what stands between its first two fences is the header, and behind the second, stripped, the
      body. Name, description and time are those of the last lines that give them, unless one is given without text; a
      missing name is the file's own without its ending, a missing description is empty, a missing time is the epoch.
      The file is refused exactly when its type is none of the four. */
  lemma FencedIsRead(filename: string, raw: string, clock: Clock, end: nat)
    requires DASHES <= raw && OccursAt(raw, DASHES, end) && 3 <= end && forall i :: 3 <= i < end ==> !OccursAt(raw, DASHES, i)
    requires NoHeading(SplitLines(raw[3..end]), NAME) && NoHeading(SplitLines(raw[3..end]), DESCRIPTION)
    requires NoHeading(SplitLines(raw[3..end]), UPDATED_AT)
    ensures IsRead(ParseFile(filename, raw, clock), filename, SplitLines(raw[3..end]), Strip(raw[end + 3..]), clock)
  {
    ParsedByHeader(filename, raw, clock, end);
    HeaderIsRead(filename, SplitLines(raw[3..end]), Strip(raw[end + 3..]), clock);
  }

  lemma ParsedByHeader(filename: string, raw: string, clock: Clock, end: nat)
    requires DASHES <= raw && OccursAt(raw, DASHES, end) && 3 <= end && forall i :: 3 <= i < end ==> !OccursAt(raw, DASHES, i)
    ensures ParseFile(filename, raw, clock)
         == FromFrontMatter(filename, Flush(ScanLines(START, SplitLines(raw[3..end]))), Strip(raw[end + 3..]), clock)
  {
    assert Find(raw, DASHES, 3) == Some(end);
  }

  /** The type is the last row named so in the table under "metadata"; without such a row it is "project". */
  lemma TypeIsRead(before: seq<string>, heading: string, rows: seq<string>, rest: seq<string>)
    requires Heading(heading, "metadata") && rows != [] && AllRows(rows)
    requires rest != [] ==> exists other :: other != "metadata" && KeyLine(rest[0], other)
    requires forall i :: 0 <= i < |rest| ==> !KeyLine(rest[i], "metadata")
    ensures var kind := TypeOf(Flush(ScanLines(START, before + [heading] + rows + rest)));
            && (forall i :: LastRow(rows, i, "type") ==> kind == RowText(rows[i]))
            && ((forall i :: 0 <= i < |rows| ==> !RowOf(rows[i], "type")) ==> kind == "project")
  {
    TableOfKey(before, heading, rows, rest, "metadata", "type");
  }

  /** So it is without any table of that name. */
  lemma TypeDefaults(lines: seq<string>)
    requires NoHeading(lines, "metadata")
    ensures TypeOf(Flush(ScanLines(START, lines))) == "project"
  {
    TextOfKey(lines, "metadata");
    if i :| 0 <= i < |lines| && KeyLine(lines[i], "metadata") { var k := LastOf(lines, "metadata", i); }
  }
}
