/** The memory index
    (modules/ai_agent/adapters/memory/gcs_memory_store.py, `_serialize_index`, `_parse_index`): one
    line `- [name](filename) — description` per entry, read back with a regular expression. */
module MemoryIndex {
  import opened Basics
  import opened Text

  datatype Ref = Ref(name: string, filename: string, description: string)

  const OPEN: string := "- ["
  const MIDDLE: string := "]("
  const DASH: string := ") \U{2014} "

  const TITLE: string := "# Memory Index"
  const HEADINGS: seq<string> := [TITLE, ""]

  function PrintRef(r: Ref): string {
    OPEN + (r.name + (MIDDLE + (r.filename + (DASH + r.description))))
  }

  function PrintedLines(refs: seq<Ref>): (lines: seq<string>)
    ensures |lines| == |refs| && forall k :: 0 <= k < |refs| ==> lines[k] == PrintRef(refs[k])
  {
    seq(|refs|, k requires 0 <= k < |refs| => PrintRef(refs[k]))
  }

  function PrintIndex(refs: seq<Ref>): string {
    JoinLines(HEADINGS + PrintedLines(refs))
  }

  /** `s` must begin with `prefix`; what follows it. */
  function After(s: string, prefix: string): Option<string> {
    if prefix <= s then Some(s[|prefix|..]) else None
  }

  datatype Cut = Cut(group: string, rest: string)

  /** A group of one or more characters other than `stop`, then the text `closing`. Since `closing`
      begins with `stop`, there is at most one way to match. */
  function CutGroup(s: string, stop: char, closing: string): Option<Cut> {
    var n := IndexOf(s, stop);
    match After(s[n..], closing)
    case Some(rest) => if n == 0 then None else Some(Cut(s[..n], rest))
    case None => None
  }

  /** The expression `^- \[([^\]]+)\]\(([^)]+)\) — (.+)$`. */
  function MatchLine(line: string): Option<Ref> {
    match After(line, OPEN)
    case None => None
    case Some(s1) =>
      match CutGroup(s1, ']', MIDDLE)
      case None => None
      case Some(name) =>
        match CutGroup(name.rest, ')', DASH)
        case None => None
        case Some(file) => if file.rest == "" then None else Some(Ref(name.group, file.group, file.rest))
  }

  /** The entries a line can carry; a description may begin, but not end, with white space. */
  predicate Clean(r: Ref) {
    && r.name != "" && ']' !in r.name && NoBreaks(r.name)
    && r.filename != "" && ')' !in r.filename && NoBreaks(r.filename)
    && r.description != "" && NoBreaks(r.description) && !IsSpace(r.description[|r.description| - 1])
  }

  ghost predicate AllClean(refs: seq<Ref>) {
    forall k :: 0 <= k < |refs| ==> Clean(refs[k])
  }

  function Entries(line: string): seq<Ref> {
    match MatchLine(Strip(line))
    case Some(r) => [r]
    case None => []
  }

  /** The results of one function on each line, concatenated. */
  function Gather(entries: string -> seq<Ref>, lines: seq<string>): seq<Ref>
    decreases |lines|
  {
    if lines == [] then [] else Gather(entries, lines[..|lines| - 1]) + entries(lines[|lines| - 1])
  }

  function ParseLines(lines: seq<string>): seq<Ref> {
    Gather(Entries, lines)
  }

  lemma {:induction false} GatherCons(entries: string -> seq<Ref>, line: string, lines: seq<string>)
    ensures Gather(entries, [line] + lines) == entries(line) + Gather(entries, lines)
    decreases |lines|
  {
    var all := [line] + lines;
    if lines == [] {
      assert all[..|all| - 1] == [];
    } else {
      assert all[..|all| - 1] == [line] + lines[..|lines| - 1];
      GatherCons(entries, line, lines[..|lines| - 1]);
    }
  }

  lemma {:induction false} GatherOnePerLine(entries: string -> seq<Ref>, lines: seq<string>, refs: seq<Ref>)
    requires |lines| == |refs| && forall k :: 0 <= k < |refs| ==> entries(lines[k]) == [refs[k]]
    ensures Gather(entries, lines) == refs
    decreases |lines|
  {
    if lines != [] {
      GatherOnePerLine(entries, lines[..|lines| - 1], refs[..|refs| - 1]);
    }
  }

  lemma {:induction false} GatherAllClean(entries: string -> seq<Ref>, lines: seq<string>)
    requires forall k :: 0 <= k < |lines| ==> AllClean(entries(lines[k]))
    ensures AllClean(Gather(entries, lines))
    decreases |lines|
  {
    if lines != [] {
      GatherAllClean(entries, lines[..|lines| - 1]);
      assert AllClean(entries(lines[|lines| - 1]));
    }
  }

  method ParseIndex(content: string) returns (refs: seq<Ref>)
    ensures refs == ParseLines(SplitLines(content))
  {
    refs := [];
    var lines := SplitLines(content);
    for k := 0 to |lines|
      invariant refs == Gather(Entries, lines[..k])
    {
      assert lines[..k + 1][..k] == lines[..k];
      var m := MatchLine(Strip(lines[k]));
      if m.Some? {
        refs := refs + [m.value];
      }
    }
    assert lines[..|lines|] == lines;
  }

  method SerializeIndex(refs: seq<Ref>) returns (content: string)
    ensures content == PrintIndex(refs)
  {
    var lines := HEADINGS;
    for k := 0 to |refs|
      invariant lines == HEADINGS + PrintedLines(refs)[..k]
    {
      lines := lines + [PrintRef(refs[k])];
    }
    assert PrintedLines(refs)[..|refs|] == PrintedLines(refs);
    content := JoinLines(lines);
  }

  // ---------------------------------------------------------------- entries that survive

  lemma CutUndoesGroup(group: string, stop: char, closing: string, rest: string)
    requires group != "" && stop !in group && closing != "" && closing[0] == stop
    ensures CutGroup(group + (closing + rest), stop, closing) == Some(Cut(group, rest))
  {
    var s := group + (closing + rest);
    assert s == group + [stop] + (closing[1..] + rest);
    IndexOfAt(group, stop, closing[1..] + rest);
    assert s[|group|..] == closing + rest && s[..|group|] == group;
    AfterPrefix(closing, rest);
  }

  lemma AfterPrefix(prefix: string, rest: string)
    ensures After(prefix + rest, prefix) == Some(rest)
  {}

  lemma MatchUndoesPrint(r: Ref)
    requires Clean(r)
    ensures MatchLine(PrintRef(r)) == Some(r)
  {
    AfterPrefix(OPEN, r.name + (MIDDLE + (r.filename + (DASH + r.description))));
    CutUndoesGroup(r.name, ']', MIDDLE, r.filename + (DASH + r.description));
    CutUndoesGroup(r.filename, ')', DASH, r.description);
  }

  /** A line matches exactly when it is an entry as printed, with a name without "]" and a file name without ")", none
      of the three parts empty; and then as that entry. */
  lemma MatchesExactly(line: string, r: Ref)
    ensures MatchLine(line) == Some(r)
       <==> && line == PrintRef(r) && r.name != "" && ']' !in r.name && r.filename != "" && ')' !in r.filename
            && r.description != ""
  {
    if MatchLine(line).Some? { MatchIsPrinted(line); }
    if line == PrintRef(r) && r.name != "" && ']' !in r.name && r.filename != "" && ')' !in r.filename {
      AfterPrefix(OPEN, r.name + (MIDDLE + (r.filename + (DASH + r.description))));
      CutUndoesGroup(r.name, ']', MIDDLE, r.filename + (DASH + r.description));
      CutUndoesGroup(r.filename, ')', DASH, r.description);
    }
  }

  lemma CutIsPrinted(s: string, stop: char, closing: string)
    requires CutGroup(s, stop, closing).Some?
    ensures var c := CutGroup(s, stop, closing).value; s == c.group + (closing + c.rest) && c.group != "" && stop !in c.group
  {
    var n := IndexOf(s, stop);
    assert s == s[..n] + s[n..] && s[n..] == closing + s[n..][|closing|..];
  }

  lemma MatchIsPrinted(line: string)
    requires MatchLine(line).Some?
    ensures var r := MatchLine(line).value;
            && line == PrintRef(r) && r.name != "" && ']' !in r.name && r.filename != "" && ')' !in r.filename
            && r.description != ""
  {
    var s1 := line[|OPEN|..];
    assert line == OPEN + s1;
    CutIsPrinted(s1, ']', MIDDLE);
    CutIsPrinted(CutGroup(s1, ']', MIDDLE).value.rest, ')', DASH);
  }

  lemma CutIsClean(s: string, stop: char, closing: string)
    requires NoBreaks(s)
    ensures var c := CutGroup(s, stop, closing);
            c.Some? ==> && c.value.group != "" && stop !in c.value.group && NoBreaks(c.value.group)
                        && NoBreaks(c.value.rest) && |c.value.rest| <= |s| && c.value.rest == s[|s| - |c.value.rest|..]
  {
    var n := IndexOf(s, stop);
    var c := CutGroup(s, stop, closing);
    if c.Some? { assert c.value.rest == s[n..][|closing|..] == s[n + |closing|..]; }
  }

  lemma MatchedIsClean(line: string)
    requires NoBreaks(line) && Trimmed(line)
    ensures MatchLine(line).Some? ==> Clean(MatchLine(line).value)
  {
    if MatchLine(line).Some? {
      var s1 := line[|OPEN|..];
      CutIsClean(s1, ']', MIDDLE);
      var s2 := CutGroup(s1, ']', MIDDLE).value.rest;
      CutIsClean(s2, ')', DASH);
      var s3 := CutGroup(s2, ')', DASH).value.rest;
      assert s3[|s3| - 1] == s2[|s2| - 1] == s1[|s1| - 1] == line[|line| - 1];
    }
  }

  lemma PrintedRefIsLine(r: Ref)
    requires Clean(r)
    ensures NoBreaks(PrintRef(r)) && Strip(PrintRef(r)) == PrintRef(r)
  {
    var line := PrintRef(r);
    assert line[|line| - 1] == r.description[|r.description| - 1];
    assert line[0] == '-';
    assert "" + line + "" == line;
    StripPadded("", line, "");
  }

  lemma PrintedRefParses(r: Ref)
    requires Clean(r)
    ensures Entries(PrintRef(r)) == [r] && NoBreaks(PrintRef(r))
  {
    PrintedRefIsLine(r);
    MatchUndoesPrint(r);
  }

  lemma PrintedLinesParse(refs: seq<Ref>)
    requires AllClean(refs)
    ensures ParseLines(PrintedLines(refs)) == refs
    ensures forall k :: 0 <= k < |PrintedLines(refs)| ==> NoBreaks(PrintedLines(refs)[k])
  {
    forall k | 0 <= k < |refs|
      ensures Entries(PrintedLines(refs)[k]) == [refs[k]] && NoBreaks(PrintedLines(refs)[k])
    {
      PrintedRefParses(refs[k]);
    }
    GatherOnePerLine(Entries, PrintedLines(refs), refs);
  }

  lemma HeadingsFit()
    ensures NoBreaks(TITLE) && NoBreaks("") && Entries(TITLE) == [] && Entries("") == []
  {
    assert "" + TITLE + "" == TITLE && TITLE[0] == '#';
    StripPadded("", TITLE, "");
  }

  lemma GatherBehindHeadings(entries: string -> seq<Ref>, title: string, lines: seq<string>)
    requires NoBreaks(title) && entries(title) == [] && entries("") == []
    requires forall k :: 0 <= k < |lines| ==> NoBreaks(lines[k])
    ensures Gather(entries, SplitLines(JoinLines([title, ""] + lines))) == Gather(entries, lines)
  {
    assert [title, ""] + lines == [title] + ([""] + lines);
    SplitUndoesJoin([title, ""] + lines);
    GatherCons(entries, "", lines);
    GatherCons(entries, title, [""] + lines);
  }

  lemma CleanIndexParses(refs: seq<Ref>)
    requires AllClean(refs)
    ensures ParseLines(SplitLines(PrintIndex(refs))) == refs
  {
    PrintedLinesParse(refs);
    HeadingsFit();
    GatherBehindHeadings(Entries, TITLE, PrintedLines(refs));
  }

  lemma ParsedIndexIsClean(content: string)
    ensures AllClean(ParseLines(SplitLines(content)))
  {
    var lines := SplitLines(content);
    forall k | 0 <= k < |lines| ensures AllClean(Entries(lines[k])) {
      LinesAreSlices(content, k);
      StripIsTrimmedSlice(lines[k]);
      SliceKeepsNoBreaks(Strip(lines[k]), lines[k]);
      MatchedIsClean(Strip(lines[k]));
    }
    GatherAllClean(Entries, lines);
  }

  /** The index read back is the index written exactly when every entry fits on its line. */
  lemma IndexRoundTrip(refs: seq<Ref>)
    ensures ParseLines(SplitLines(PrintIndex(refs))) == refs <==> AllClean(refs)
  {
    ParsedIndexIsClean(PrintIndex(refs));
    if AllClean(refs) {
      CleanIndexParses(refs);
    }
  }
}
