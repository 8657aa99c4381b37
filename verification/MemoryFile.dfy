/** Markdown memory files with front matter
    (modules/ai_agent/adapters/memory/gcs_memory_store.py, `_serialize_md_file`, `_parse_md_file`,
    `_parse_frontmatter`). */
module MemoryFile {
  import opened Basics
  import opened Text

  datatype File = File(
    filename: string, name: string, description: string, memoryType: string, body: string, updatedAt: int)

  /** Date-times cross the text boundary through `isoformat` and `_parse_updated_at`; `epoch` is what
      the latter returns on text it cannot read. */
  datatype Clock = Clock(iso: int -> string, parse: string -> int, epoch: int, now: int)

  /** A front matter value: text, or the indented table under a key. */
  datatype Entry = Line(text: string) | Table(rows: map<string, string>)

  datatype Parsed = Ok(file: File) | Rejected

  const NAME: string := "name"
  const DESCRIPTION: string := "description"
  const METADATA: string := "metadata"
  const TYPE: string := "type"
  const UPDATED_AT: string := "updated_at"

  // ---------------------------------------------------------------- printing

  function Field(key: string, value: string): string {
    key + ": " + value
  }

  function HeaderLines(file: File, clock: Clock): seq<string> {
    ["",
     Field(NAME, file.name),
     Field(DESCRIPTION, file.description),
     METADATA + ":",
     "  " + Field(TYPE, file.memoryType),
     Field(UPDATED_AT, clock.iso(file.updatedAt))]
  }

  function PrintFile(file: File, clock: Clock): string {
    DASHES + JoinLines(HeaderLines(file, clock)) + DASHES + ("\n\n" + file.body + "\n")
  }

  // ---------------------------------------------------------------- parsing the front matter

  datatype Scan = Scan(result: map<string, Entry>, pending: Option<string>, nested: map<string, string>)

  /** `str.partition(":")`, both halves stripped. */
  function KeyOf(line: string): string {
    Strip(line[..IndexOf(line, ':')])
  }

  function ValueOf(line: string): string {
    var n := IndexOf(line, ':');
    if n == |line| then "" else Strip(line[n + 1..])
  }

  predicate Complete(s: Scan) {
    s.pending.Some? && s.nested != map[]
  }

  function Flush(s: Scan): map<string, Entry> {
    if Complete(s) then s.result[s.pending.value := Table(s.nested)] else s.result
  }

  function ScanLine(s: Scan, line: string): Scan {
    var stripped := StripRight(line);
    if stripped == "" || ':' !in stripped then s
    else if "  " <= stripped then
      var inner := Strip(stripped);
      s.(nested := s.nested[KeyOf(inner) := ValueOf(inner)])
    else
      var key, value := KeyOf(stripped), ValueOf(stripped);
      if value != "" then
        Scan(Flush(s)[key := Line(value)], None, if Complete(s) then map[] else s.nested)
      else Scan(Flush(s), Some(key), map[])
  }

  function ScanLines(s: Scan, lines: seq<string>): Scan
    decreases |lines|
  {
    if lines == [] then s else ScanLines(ScanLine(s, lines[0]), lines[1..])
  }

  const START: Scan := Scan(map[], None, map[])

  lemma {:induction false} ScanLinesAppend(s: Scan, lines: seq<string>, line: string)
    ensures ScanLines(s, lines + [line]) == ScanLine(ScanLines(s, lines), line)
    decreases |lines|
  {
    if lines == [] {
      assert ScanLines(s, [] + [line]) == ScanLines(ScanLine(s, line), []);
    } else {
      assert (lines + [line])[0] == lines[0] && (lines + [line])[1..] == lines[1..] + [line];
      ScanLinesAppend(ScanLine(s, lines[0]), lines[1..], line);
    }
  }

  method ParseFrontmatter(text: string) returns (result: map<string, Entry>)
    ensures result == Flush(ScanLines(START, SplitLines(text)))
  {
    result := map[];
    var pending: Option<string> := None;
    var nested: map<string, string> := map[];
    var lines := SplitLines(text);
    for k := 0 to |lines|
      invariant Scan(result, pending, nested) == ScanLines(START, lines[..k])
    {
      ScanLinesAppend(START, lines[..k], lines[k]);
      assert lines[..k + 1] == lines[..k] + [lines[k]];
      var stripped := StripRight(lines[k]);
      if stripped == "" {
        continue;
      }
      if "  " <= stripped && ':' in stripped {
        var inner := Strip(stripped);
        nested := nested[KeyOf(inner) := ValueOf(inner)];
      } else if ':' in stripped {
        if pending.Some? && nested != map[] {
          result := result[pending.value := Table(nested)];
          nested := map[];
        }
        var key, value := KeyOf(stripped), ValueOf(stripped);
        if value != "" {
          result := result[key := Line(value)];
          pending := None;
        } else {
          pending := Some(key);
          nested := map[];
        }
      }
    }
    assert lines[..|lines|] == lines;
    if pending.Some? && nested != map[] {
      result := result[pending.value := Table(nested)];
    }
  }

  // ---------------------------------------------------------------- parsing a file

  function Stem(filename: string): string {
    if |filename| >= 3 && filename[|filename| - 3..] == ".md" then filename[..|filename| - 3] else filename
  }

  predicate KnownType(t: string) {
    t == "user" || t == "feedback" || t == "project" || t == "reference"
  }

  /** A file without usable front matter: the whole text is the body. */
  function BareFile(filename: string, raw: string, clock: Clock): Parsed {
    Ok(File(filename, Stem(filename), "", "project", raw, clock.now))
  }

  function TypeOf(fm: map<string, Entry>): string {
    if METADATA in fm && fm[METADATA].Table? && TYPE in fm[METADATA].rows
    then fm[METADATA].rows[TYPE] else "project"
  }

  /** Text under a key, the default when absent, nothing when a table is there. */
  function TextUnder(fm: map<string, Entry>, key: string, default: string): Option<string> {
    if key !in fm then Some(default)
    else match fm[key] case Line(t) => Some(t) case Table(_) => None
  }

  /** The entity rejects a table where it wants text, and a type outside the four known ones. A
      time stamp table prints as something no date parser reads. */
  function FromFrontMatter(filename: string, fm: map<string, Entry>, body: string, clock: Clock): Parsed {
    var name, description := TextUnder(fm, NAME, Stem(filename)), TextUnder(fm, DESCRIPTION, "");
    if name.None? || description.None? || !KnownType(TypeOf(fm)) then Rejected
    else
      var stamp := TextUnder(fm, UPDATED_AT, "");
      var updatedAt := if stamp.None? || stamp.value == "" then clock.epoch else clock.parse(stamp.value);
      Ok(File(filename, name.value, description.value, TypeOf(fm), body, updatedAt))
  }

  function ParseFile(filename: string, raw: string, clock: Clock): Parsed {
    if DASHES <= raw then
      match Find(raw, DASHES, 3)
      case None => BareFile(filename, raw, clock)
      case Some(end) =>
        FromFrontMatter(filename, Flush(ScanLines(START, SplitLines(raw[3..end]))), Strip(raw[end + 3..]), clock)
    else BareFile(filename, raw, clock)
  }

  method ParseMdFile(filename: string, raw: string, clock: Clock) returns (parsed: Parsed)
    ensures parsed == ParseFile(filename, raw, clock)
  {
    if DASHES <= raw {
      var end := Find(raw, DASHES, 3);
      if end.None? {
        return BareFile(filename, raw, clock);
      }
      var fm := ParseFrontmatter(raw[3..end.value]);
      return FromFrontMatter(filename, fm, Strip(raw[end.value + 3..]), clock);
    }
    return BareFile(filename, raw, clock);
  }

  // ---------------------------------------------------------------- what every parsed header looks like

  /** One line, trimmed, and free of the fence. */
  ghost predicate Clean(s: string) {
    Trimmed(s) && NoBreaks(s) && !Has(s, DASHES)
  }

  ghost predicate CleanScan(s: Scan) {
    forall k :: k in s.result && s.result[k].Line? ==> Clean(s.result[k].text)
  }

  lemma ValueIsClean(line: string, text: string)
    requires Slice(line, text) && NoBreaks(line) && !Has(text, DASHES)
    ensures Clean(ValueOf(line))
  {
    var n := IndexOf(line, ':');
    if n == |line| {
      NeedsDash("");
    } else {
      StripIsTrimmedSlice(line[n + 1..]);
      DropIsSlice(line, n + 1);
      SliceTransitive(ValueOf(line), line[n + 1..], line);
      SliceKeepsNoBreaks(ValueOf(line), line);
      SliceTransitive(ValueOf(line), line, text);
      if Has(ValueOf(line), DASHES) { SliceHas(ValueOf(line), text, DASHES); }
    }
  }

  lemma ScanLineStaysClean(s: Scan, line: string, text: string)
    requires CleanScan(s) && !Has(text, DASHES)
    requires Slice(line, text) && NoBreaks(line)
    ensures CleanScan(ScanLine(s, line))
  {
    var stripped := StripRight(line);
    StripIsTrimmedSlice(line);
    SliceKeepsNoBreaks(stripped, line);
    SliceTransitive(stripped, line, text);
    ValueIsClean(stripped, text);
    assert CleanScan(s.(result := Flush(s)));
  }

  lemma {:induction false} ScanStaysClean(s: Scan, lines: seq<string>, text: string)
    requires CleanScan(s) && !Has(text, DASHES)
    requires forall k :: 0 <= k < |lines| ==> Slice(lines[k], text) && NoBreaks(lines[k])
    ensures CleanScan(ScanLines(s, lines))
    decreases |lines|
  {
    if lines != [] {
      ScanLineStaysClean(s, lines[0], text);
      ScanStaysClean(ScanLine(s, lines[0]), lines[1..], text);
    }
  }

  /** A description that comes out of a header is clean, a body is stripped, and a name is clean or the default. */
  lemma ParsedHeaderIsClean(filename: string, raw: string, clock: Clock)
    requires DASHES <= raw && Find(raw, DASHES, 3).Some?
    ensures var p := ParseFile(filename, raw, clock);
            p.Ok? ==>
              && Clean(p.file.description) && Trimmed(p.file.body)
              && (Clean(p.file.name) || p.file.name == Stem(filename))
  {
    var end := Find(raw, DASHES, 3).value;
    var text := raw[3..end];
    if Has(text, DASHES) {
      var i: nat :| OccursAt(text, DASHES, i);
      SliceOfSlice(raw, 3, end, i, i + 3);
      assert OccursAt(raw, DASHES, 3 + i);
    }
    forall k | 0 <= k < |SplitLines(text)|
      ensures Slice(SplitLines(text)[k], text) && NoBreaks(SplitLines(text)[k])
    {
      LinesAreSlices(text, k);
    }
    ScanStaysClean(START, SplitLines(text), text);
    NeedsDash("");
    StripIsTrimmedSlice(raw[end + 3..]);
  }

  // ---------------------------------------------------------------- the round trip

  /** The rest of the header can be read back, and a name is clean or at least the default is. */
  ghost predicate WellFormed(file: File, clock: Clock) {
    && (Clean(file.name) || Clean(Stem(file.filename)))
    && KnownType(file.memoryType)
    && Clean(clock.iso(file.updatedAt)) && clock.iso(file.updatedAt) != ""
    && clock.parse(clock.iso(file.updatedAt)) == file.updatedAt
  }

  /** The header as printed has one line for each entry. */
  ghost predicate FitsLines(file: File, clock: Clock) {
    WellFormed(file, clock) && Clean(file.name) && Clean(file.description)
  }

  predicate GoodKey(key: string) {
    key != "" && ':' !in key && Trimmed(key)
  }

  lemma HeaderKeysAreGood()
    ensures GoodKey(NAME) && GoodKey(DESCRIPTION) && GoodKey(METADATA) && GoodKey(UPDATED_AT)
    ensures GoodKey(TYPE)
  {}

  /** A line made of a key, a colon and more text, which ends in a non-space. */
  lemma KeyedLine(key: string, more: string)
    requires GoodKey(key)
    requires more == "" || !IsSpace(more[|more| - 1])
    ensures var line := key + ":" + more;
            && StripRight(line) == line && KeyOf(line) == key && ValueOf(line) == Strip(more)
            && ':' in line && !("  " <= line)
  {
    var line := key + ":" + more;
    StripRightPadded(line, "");
    assert line + "" == line == key + [':'] + more;
    IndexOfAt(key, ':', more);
    assert line[..|key|] == key == "" + key + "" && line[|key| + 1..] == more;
    StripPadded("", key, "");
    assert line[|key|] == ':' && line[0] == key[0];
  }

  function ScanHeading(s: Scan, key: string): Scan {
    Scan(Flush(s), Some(key), map[])
  }

  function ScanField(s: Scan, key: string, value: string): Scan {
    if value == "" then ScanHeading(s, key)
    else Scan(Flush(s)[key := Line(value)], None, if Complete(s) then map[] else s.nested)
  }

  lemma HeadingScans(s: Scan, key: string)
    requires GoodKey(key)
    ensures ScanLine(s, key + ":") == ScanHeading(s, key)
  {
    assert key + ":" == key + ":" + "";
    KeyedLine(key, "");
  }

  lemma FieldScans(s: Scan, key: string, value: string)
    requires GoodKey(key) && Trimmed(value)
    ensures ScanLine(s, Field(key, value)) == ScanField(s, key, value)
  {
    if value == "" {
      assert Field(key, value) == key + ":" + " ";
      StripRightPadded(key + ":", " ");
      HeadingScans(s, key);
      StripRightPadded(key + ":", "");
      assert key + ":" + "" == key + ":";
    } else {
      assert Field(key, value) == key + ":" + (" " + value);
      KeyedLine(key, " " + value);
      assert " " + value == " " + value + "";
      StripPadded(" ", value, "");
    }
  }

  lemma IndentedStrips(inner: string)
    requires inner != "" && Trimmed(inner)
    ensures StripRight("  " + inner) == "  " + inner && Strip("  " + inner) == inner
  {
    var line := "  " + inner;
    StripRightPadded(line, "");
    assert line + "" == line == "  " + inner + "";
    StripPadded("  ", inner, "");
  }

  lemma KnownTypeIsClean(t: string)
    requires KnownType(t)
    ensures t != "" && Clean(t)
  {
    NeedsDash(t);
  }

  lemma IndentedLineScans(s: Scan, line: string, inner: string)
    requires StripRight(line) == line && line != "" && "  " <= line && ':' in line && Strip(line) == inner
    ensures ScanLine(s, line) == s.(nested := s.nested[KeyOf(inner) := ValueOf(inner)])
  {}

  lemma TableLineScans(s: Scan, key: string, value: string)
    requires GoodKey(key) && value != "" && Trimmed(value)
    ensures ScanLine(s, "  " + Field(key, value)) == s.(nested := s.nested[key := value])
  {
    var inner := Field(key, value);
    assert inner == key + ":" + (" " + value);
    KeyedLine(key, " " + value);
    assert " " + value == " " + value + "";
    StripPadded(" ", value, "");
    IndentedStrips(inner);
    assert ("  " + inner)[2 + |key|] == ':';
    IndentedLineScans(s, "  " + inner, inner);
  }

  function HeaderEntries(file: File, clock: Clock): map<string, Entry> {
    TextEntries(file)[METADATA := Table(map[TYPE := file.memoryType])]
                     [UPDATED_AT := Line(clock.iso(file.updatedAt))]
  }

  function TextEntries(file: File): map<string, Entry> {
    var named := if file.name == "" then map[] else map[NAME := Line(file.name)];
    if file.description == "" then named else named[DESCRIPTION := Line(file.description)]
  }

  /** The scan states after the name, the description, the heading, the table row and the time. */
  function AfterText(file: File): Scan {
    ScanField(ScanField(START, NAME, file.name), DESCRIPTION, file.description)
  }

  function AfterRow(file: File): Scan {
    var s := ScanHeading(AfterText(file), METADATA);
    s.(nested := s.nested[TYPE := file.memoryType])
  }

  lemma TextLinesScan(file: File)
    requires Trimmed(file.name) && Trimmed(file.description)
    ensures ScanLine(ScanLine(START, Field(NAME, file.name)), Field(DESCRIPTION, file.description)) == AfterText(file)
  {
    HeaderKeysAreGood();
    FieldScans(START, NAME, file.name);
    FieldScans(ScanField(START, NAME, file.name), DESCRIPTION, file.description);
  }

  lemma TableLinesScan(file: File)
    requires KnownType(file.memoryType)
    ensures ScanLine(ScanLine(AfterText(file), METADATA + ":"), "  " + Field(TYPE, file.memoryType)) == AfterRow(file)
  {
    HeaderKeysAreGood();
    KnownTypeIsClean(file.memoryType);
    HeadingScans(AfterText(file), METADATA);
    TableLineScans(ScanHeading(AfterText(file), METADATA), TYPE, file.memoryType);
  }

  /** The printed header scans to the text entries (none for an empty name or description) and the one-row
      table. */
  lemma HeaderScans(file: File, clock: Clock)
    requires FitsLines(file, clock)
    ensures Flush(ScanLines(START, HeaderLines(file, clock))) == HeaderEntries(file, clock)
  {
    var iso := clock.iso(file.updatedAt);
    TextLinesScan(file);
    TableLinesScan(file);
    HeaderKeysAreGood();
    FieldScans(AfterRow(file), UPDATED_AT, iso);
    SixLines(HeaderLines(file, clock));
    HeaderStates(file, iso);
  }

  lemma HeaderStates(file: File, iso: string)
    requires iso != ""
    ensures Flush(ScanField(AfterRow(file), UPDATED_AT, iso))
         == TextEntries(file)[METADATA := Table(map[TYPE := file.memoryType])][UPDATED_AT := Line(iso)]
  {
    var named := ScanField(START, NAME, file.name);
    assert named.nested == map[] && named.result == if file.name == "" then map[] else map[NAME := Line(file.name)];
    assert AfterText(file).nested == map[] && AfterText(file).result == TextEntries(file);
    assert ScanHeading(AfterText(file), METADATA) == Scan(TextEntries(file), Some(METADATA), map[]);
    assert TYPE in AfterRow(file).nested;
    assert Complete(AfterRow(file));
  }

  lemma SixLines(lines: seq<string>)
    requires |lines| == 6 && lines[0] == ""
    ensures ScanLines(START, lines)
         == ScanLine(ScanLine(ScanLine(ScanLine(ScanLine(START, lines[1]), lines[2]), lines[3]), lines[4]), lines[5])
  {
    ScanLinesAppend(START, lines[..5], lines[5]);
    assert lines == lines[..5] + [lines[5]];
    ScanLinesAppend(START, lines[..4], lines[4]);
    assert lines[..5] == lines[..4] + [lines[4]];
    ScanLinesAppend(START, lines[..3], lines[3]);
    assert lines[..4] == lines[..3] + [lines[3]];
    ScanLinesAppend(START, lines[..2], lines[2]);
    assert lines[..3] == lines[..2] + [lines[2]];
    ScanLinesAppend(START, lines[..1], lines[1]);
    assert lines[..2] == lines[..1] + [lines[1]];
    assert ScanLine(START, lines[0]) == START;
    assert ScanLines(START, lines[..1]) == ScanLines(START, []);
  }

  // ---------------------------------------------------------------- from the header to the file

  lemma LiteralThenClean(literal: string, s: string)
    requires '-' !in literal && NoBreaks(literal) && Clean(s)
    ensures NoBreaks(literal + s) && !Has(literal + s, DASHES)
  {
    NeedsDash(literal);
    DashesAcross(literal, s);
  }

  lemma HeaderIsOneBlock(file: File, clock: Clock)
    requires FitsLines(file, clock)
    ensures forall k :: 0 <= k < 6 ==>
              NoBreaks(HeaderLines(file, clock)[k]) && !Has(HeaderLines(file, clock)[k], DASHES)
  {
    NeedsDash("");
    NeedsDash(METADATA + ":");
    LiteralThenClean(NAME + ": ", file.name);
    LiteralThenClean(DESCRIPTION + ": ", file.description);
    KnownTypeIsClean(file.memoryType);
    LiteralThenClean(TYPE + ": ", file.memoryType);
    DashesAcross("  ", Field(TYPE, file.memoryType));
    NeedsDash("  ");
    LiteralThenClean(UPDATED_AT + ": ", clock.iso(file.updatedAt));
  }

  /** The closing fence is the first `---` after the opening one. */
  lemma FenceFound(block: string, tail: string)
    requires !Has(block, DASHES) && block != "" && block[|block| - 1] == '\n'
    ensures Find(DASHES + block + DASHES + tail, DASHES, 3) == Some(3 + |block|)
  {
    var raw := DASHES + block + DASHES + tail;
    var end := 3 + |block|;
    assert raw[end..end + 3] == DASHES;
    assert OccursAt(raw, DASHES, end);
    forall j: nat | 3 <= j < end ensures !OccursAt(raw, DASHES, j) {
      if j + 3 <= end {
        assert raw[j..j + 3] == block[j - 3..j];
        assert !OccursAt(block, DASHES, j - 3);
      } else {
        assert raw[end - 1] == '\n' == raw[j..j + 3][end - 1 - j];
      }
    }
  }

  /** An empty name is read back as the default. */
  function Renamed(file: File): File {
    if file.name == "" then file.(name := Stem(file.filename)) else file
  }

  lemma EntriesRebuild(file: File, clock: Clock)
    requires FitsLines(file, clock)
    ensures FromFrontMatter(file.filename, HeaderEntries(file, clock), file.body, clock) == Ok(Renamed(file))
  {
    var fm := HeaderEntries(file, clock);
    assert fm[METADATA] == Table(map[TYPE := file.memoryType]);
    assert TextUnder(fm, NAME, Stem(file.filename)) == Some(Renamed(file).name);
    assert TextUnder(fm, DESCRIPTION, "") == Some(file.description);
    assert TextUnder(fm, UPDATED_AT, "") == Some(clock.iso(file.updatedAt));
  }

  /** A text made of fence, block without fences, fence and tail falls into these parts. */
  lemma FencedParts(block: string, tail: string)
    requires !Has(block, DASHES) && block != "" && block[|block| - 1] == '\n'
    ensures var raw := DASHES + block + DASHES + tail;
            && DASHES <= raw && Find(raw, DASHES, 3) == Some(3 + |block|)
            && raw[3..3 + |block|] == block && raw[3 + |block| + 3..] == tail
  {
    FenceFound(block, tail);
  }

  lemma FencedFileParses(filename: string, block: string, tail: string, clock: Clock)
    requires !Has(block, DASHES) && block != "" && block[|block| - 1] == '\n'
    ensures ParseFile(filename, DASHES + block + DASHES + tail, clock)
         == FromFrontMatter(filename, Flush(ScanLines(START, SplitLines(block))), Strip(tail), clock)
  {
    FencedParts(block, tail);
  }

  lemma PrintedBlock(file: File, clock: Clock)
    requires FitsLines(file, clock)
    ensures var block := JoinLines(HeaderLines(file, clock));
            && !Has(block, DASHES) && block != "" && block[|block| - 1] == '\n'
            && SplitLines(block) == HeaderLines(file, clock)
  {
    HeaderIsOneBlock(file, clock);
    JoinedLinesWithoutDashes(HeaderLines(file, clock));
    SplitUndoesJoin(HeaderLines(file, clock));
  }

  lemma PrintedFileParses(file: File, clock: Clock)
    requires FitsLines(file, clock) && Trimmed(file.body)
    ensures ParseFile(file.filename, PrintFile(file, clock), clock) == Ok(Renamed(file))
  {
    PrintedParts(file, clock, JoinLines(HeaderLines(file, clock)));
    HeaderScans(file, clock);
    BodyStrips(file.body);
    EntriesRebuild(file, clock);
  }

  lemma BodyStrips(body: string)
    requires Trimmed(body)
    ensures Strip("\n\n" + body + "\n") == body
  {
    StripPadded("\n\n", body, "\n");
  }

  lemma PrintedParts(file: File, clock: Clock, block: string)
    requires FitsLines(file, clock) && block == JoinLines(HeaderLines(file, clock))
    ensures ParseFile(file.filename, PrintFile(file, clock), clock)
         == FromFrontMatter(file.filename, Flush(ScanLines(START, HeaderLines(file, clock))),
                            Strip("\n\n" + file.body + "\n"), clock)
  {
    PrintedBlock(file, clock);
    FencedFileParses(file.filename, block, "\n\n" + file.body + "\n", clock);
  }

  /** Printing then parsing gives the file back exactly when name and description are each one trimmed line without
      a fence, the name is empty only if that is the default, and the body is its own strip; the body may contain
      fences. */
  lemma FileRoundTrip(file: File, clock: Clock)
    requires WellFormed(file, clock)
    ensures ParseFile(file.filename, PrintFile(file, clock), clock) == Ok(file)
        <==> && Clean(file.name) && (file.name == "" ==> Stem(file.filename) == "")
             && Clean(file.description) && Trimmed(file.body)
  {
    var raw := PrintFile(file, clock);
    var block := JoinLines(HeaderLines(file, clock));
    assert raw[3 + |block|..3 + |block| + 3] == DASHES;
    assert OccursAt(raw, DASHES, 3 + |block|);
    ParsedHeaderIsClean(file.filename, raw, clock);
    if Clean(file.name) && Clean(file.description) && Trimmed(file.body) {
      PrintedFileParses(file, clock);
    }
  }

  /** A caller that copies user text into the description, as the composer does with the first
      message, loses everything after a fence. */
  lemma FenceInDescriptionIsLost(file: File, clock: Clock, before: string, after: string)
    requires WellFormed(file, clock) && file.description == before + DASHES + after
    ensures ParseFile(file.filename, PrintFile(file, clock), clock) != Ok(file)
  {
    assert file.description[|before|..|before| + 3] == DASHES;
    assert OccursAt(file.description, DASHES, |before|);
    FileRoundTrip(file, clock);
  }
}
