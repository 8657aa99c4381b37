/** The Python string operations the parsers are built from, on strings without encoding. */
module Text {
  import opened Basics

  /** The characters at which `str.splitlines` ends a line. */
  predicate IsBreak(c: char) {
    var n := c as int;
    0x0A <= n <= 0x0D || 0x1C <= n <= 0x1E || n == 0x85 || n == 0x2028 || n == 0x2029
  }

  /** The characters `str.strip` removes. */
  predicate IsSpace(c: char) {
    var n := c as int;
    || IsBreak(c) || n == 0x20 || n == 0x09 || n == 0x1F || n == 0xA0 || n == 0x1680
    || 0x2000 <= n <= 0x200A || n == 0x202F || n == 0x205F || n == 0x3000
  }

  predicate NoBreaks(s: string) {
    forall i :: 0 <= i < |s| ==> !IsBreak(s[i])
  }

  predicate Trimmed(s: string) {
    s == "" || (!IsSpace(s[0]) && !IsSpace(s[|s| - 1]))
  }

  function StripLeft(s: string): string {
    if s != "" && IsSpace(s[0]) then StripLeft(s[1..]) else s
  }

  function StripRight(s: string): string {
    if s != "" && IsSpace(s[|s| - 1]) then StripRight(s[..|s| - 1]) else s
  }

  function Strip(s: string): string {
    StripLeft(StripRight(s))
  }

  /** `part` is a contiguous piece of `whole`. */
  ghost predicate Slice(part: string, whole: string) {
    exists i, j :: 0 <= i <= j <= |whole| && part == whole[i..j]
  }

  lemma SliceOfSlice(s: string, i: nat, j: nat, k: nat, l: nat)
    requires i <= j <= |s| && k <= l <= j - i
    ensures s[i..j][k..l] == s[i + k..i + l]
  {
    var a, b := s[i..j][k..l], s[i + k..i + l];
    forall n | 0 <= n < |a| ensures a[n] == b[n] {}
  }

  lemma DropIsSlice(s: string, n: nat)
    requires n <= |s|
    ensures Slice(s[n..], s)
  {
    assert s[n..] == s[n..|s|];
  }

  lemma TakeIsSlice(s: string, n: nat)
    requires n <= |s|
    ensures Slice(s[..n], s)
  {
    assert s[..n] == s[0..n];
  }

  lemma SliceTransitive(a: string, b: string, c: string)
    requires Slice(a, b) && Slice(b, c)
    ensures Slice(a, c)
  {
    var i, j :| 0 <= i <= j <= |b| && a == b[i..j];
    var k, l :| 0 <= k <= l <= |c| && b == c[k..l];
    SliceOfSlice(c, k, l, i, j);
    assert a == c[k + i..k + j];
  }

  lemma {:induction false} StripLeftIsSuffix(s: string)
    ensures |StripLeft(s)| <= |s| && StripLeft(s) == s[|s| - |StripLeft(s)|..]
    ensures StripLeft(s) == "" || !IsSpace(StripLeft(s)[0])
  {
    if s != "" && IsSpace(s[0]) { StripLeftIsSuffix(s[1..]); }
  }

  lemma {:induction false} StripRightIsPrefix(s: string)
    ensures |StripRight(s)| <= |s| && StripRight(s) == s[..|StripRight(s)|]
    ensures StripRight(s) == "" || !IsSpace(StripRight(s)[|StripRight(s)| - 1])
  {
    if s != "" && IsSpace(s[|s| - 1]) { StripRightIsPrefix(s[..|s| - 1]); }
  }

  lemma StripIsTrimmedSlice(s: string)
    ensures Trimmed(Strip(s)) && Slice(Strip(s), s) && Slice(StripRight(s), s)
  {
    StripRightIsPrefix(s);
    var r := StripRight(s);
    StripLeftIsSuffix(r);
    assert r == s[0..|r|];
    assert Strip(s) == s[|r| - |Strip(s)|..|r|];
  }

  /** Stripping removes exactly the white space put around a trimmed text. */
  lemma {:induction false} StripPadded(before: string, s: string, after: string)
    requires Trimmed(s)
    requires forall i :: 0 <= i < |before| ==> IsSpace(before[i])
    requires forall i :: 0 <= i < |after| ==> IsSpace(after[i])
    ensures Strip(before + s + after) == s
  {
    if s == "" {
      assert before + s + after == before + after;
      StripRightOfSpaces(before + after);
    } else {
      StripRightPadded(before + s, after);
      StripLeftPadded(before, s);
    }
  }

  lemma {:induction false} StripRightOfSpaces(s: string)
    requires forall i :: 0 <= i < |s| ==> IsSpace(s[i])
    ensures StripRight(s) == ""
  {
    if s != "" { StripRightOfSpaces(s[..|s| - 1]); }
  }

  lemma {:induction false} StripRightPadded(s: string, after: string)
    requires s != "" && !IsSpace(s[|s| - 1])
    requires forall i :: 0 <= i < |after| ==> IsSpace(after[i])
    ensures StripRight(s + after) == s
    decreases |after|
  {
    if after != "" {
      var t := s + after;
      assert t[..|t| - 1] == s + after[..|after| - 1];
      StripRightPadded(s, after[..|after| - 1]);
    } else {
      assert s + after == s;
    }
  }

  lemma {:induction false} StripLeftPadded(before: string, s: string)
    requires s != "" && !IsSpace(s[0])
    requires forall i :: 0 <= i < |before| ==> IsSpace(before[i])
    ensures StripLeft(before + s) == s
    decreases |before|
  {
    if before != "" {
      assert (before + s)[1..] == before[1..] + s;
      StripLeftPadded(before[1..], s);
    } else {
      assert before + s == s;
    }
  }

  // ---------------------------------------------------------------- single characters

  /** The position of the first `c`, or the length. */
  function IndexOf(s: string, c: char): (n: nat)
    ensures n <= |s| && c !in s[..n] && (n < |s| ==> s[n] == c)
  {
    if s == "" || s[0] == c then 0
    else
      var n := IndexOf(s[1..], c);
      assert s[..n + 1] == [s[0]] + s[1..][..n];
      n + 1
  }

  lemma {:induction false} IndexOfAt(before: string, c: char, after: string)
    requires c !in before
    ensures IndexOf(before + [c] + after, c) == |before|
    decreases |before|
  {
    var s := before + [c] + after;
    if before == "" {
      assert s[0] == c;
    } else {
      assert s[0] == before[0] && s[1..] == before[1..] + [c] + after;
      IndexOfAt(before[1..], c, after);
    }
  }

  lemma {:induction false} IndexOfIs(s: string, c: char, n: nat)
    requires n <= |s| && (forall i :: 0 <= i < n ==> s[i] != c) && (n < |s| ==> s[n] == c)
    ensures IndexOf(s, c) == n
  {
    if n > 0 { IndexOfIs(s[1..], c, n - 1); }
  }

  lemma IndexOfTail(s: string, c: char, j: nat)
    requires j <= IndexOf(s, c)
    ensures IndexOf(s[j..], c) == IndexOf(s, c) - j
  {
    var n := IndexOf(s, c);
    forall i | 0 <= i < n - j ensures s[j..][i] != c {
      assert s[j..][i] == s[..n][i + j];
    }
    IndexOfIs(s[j..], c, n - j);
  }

  /** The first occurrence is found in any string that shares the beginning. */
  lemma IndexOfShared(s: string, t: string, c: char, n: nat)
    requires n <= |s| && n <= |t| && s[..n] == t[..n]
    requires IndexOf(s, c) < n
    ensures IndexOf(t, c) == IndexOf(s, c)
  {
    var m := IndexOf(s, c);
    forall i | 0 <= i <= m ensures t[i] == s[i] {
      assert t[i] == t[..n][i];
    }
    assert forall i :: 0 <= i < m ==> s[i] == s[..m][i];
    IndexOfIs(t, c, m);
  }

  // ---------------------------------------------------------------- substrings

  predicate OccursAt(s: string, pat: string, i: nat) {
    i + |pat| <= |s| && s[i..i + |pat|] == pat
  }

  ghost predicate Has(s: string, pat: string) {
    exists i: nat :: OccursAt(s, pat, i)
  }

  /** `str.find` / `str.index` from a start position. */
  function Find(s: string, pat: string, from: nat): (r: Option<nat>)
    ensures match r
            case Some(i) => from <= i && OccursAt(s, pat, i) && forall j: nat :: from <= j < i ==> !OccursAt(s, pat, j)
            case None => forall j: nat :: from <= j ==> !OccursAt(s, pat, j)
    decreases |s| - from
  {
    if from + |pat| > |s| then None
    else if OccursAt(s, pat, from) then Some(from)
    else Find(s, pat, from + 1)
  }

  lemma SliceHas(part: string, whole: string, pat: string)
    requires Slice(part, whole) && Has(part, pat)
    ensures Has(whole, pat)
  {
    var i, j :| 0 <= i <= j <= |whole| && part == whole[i..j];
    var k: nat :| OccursAt(part, pat, k);
    SliceOfSlice(whole, i, j, k, k + |pat|);
    assert OccursAt(whole, pat, i + k);
  }

  const DASHES: string := "---"

  lemma NeedsDash(s: string)
    ensures Has(s, DASHES) ==> '-' in s
  {
    if Has(s, DASHES) {
      var i: nat :| OccursAt(s, DASHES, i);
      assert s[i] == s[i..i + 3][0] == '-';
    }
  }

  /** A `---` in a concatenation lies in one of the parts, or there is a dash on each side of the seam. */
  lemma DashesAcross(a: string, b: string)
    ensures Has(a + b, DASHES) ==>
              || Has(a, DASHES) || Has(b, DASHES)
              || (a != "" && b != "" && a[|a| - 1] == '-' && b[0] == '-')
  {
    if Has(a + b, DASHES) {
      var i: nat :| OccursAt(a + b, DASHES, i);
      var w := (a + b)[i..i + 3];
      assert w[0] == '-' && w[1] == '-' && w[2] == '-';
      assert forall k :: i <= k < i + 3 ==> (a + b)[k] == w[k - i];
      if i + 3 <= |a| {
        assert a[i..i + 3] == w;
        assert OccursAt(a, DASHES, i);
      } else if i >= |a| {
        assert b[i - |a|..i - |a| + 3] == w;
        assert OccursAt(b, DASHES, i - |a|);
      } else {
        assert (a + b)[|a| - 1] == '-' && (a + b)[|a|] == '-';
      }
    }
  }

  // ---------------------------------------------------------------- lines

  /** The position of the first line break, or the length. */
  function LineEnd(s: string): (n: nat)
    ensures n <= |s| && NoBreaks(s[..n]) && (n < |s| ==> IsBreak(s[n]))
  {
    if s == "" || IsBreak(s[0]) then 0
    else
      var n := LineEnd(s[1..]);
      assert s[..n + 1] == [s[0]] + s[1..][..n];
      n + 1
  }

  /** `str.splitlines`: a carriage return and line feed count as one break. */
  function SplitLines(s: string): seq<string>
    decreases |s|
  {
    if s == "" then []
    else
      var n := LineEnd(s);
      if n == |s| then [s]
      else
        [s[..n]] + SplitLines(AfterBreak(s, n))
  }

  function AfterBreak(s: string, n: nat): (rest: string)
    requires n < |s|
    ensures |rest| < |s|
  {
    if s[n] == '\r' && n + 1 < |s| && s[n + 1] == '\n' then s[n + 2..] else s[n + 1..]
  }

  lemma {:induction false} LineEndAt(line: string, rest: string)
    requires NoBreaks(line)
    ensures LineEnd(line + "\n" + rest) == |line|
    decreases |line|
  {
    var s := line + "\n" + rest;
    if line == "" {
      assert s[0] == '\n';
    } else {
      assert s[0] == line[0] && s[1..] == line[1..] + "\n" + rest;
      LineEndAt(line[1..], rest);
    }
  }

  lemma SplitFirstLine(line: string, rest: string)
    requires NoBreaks(line)
    ensures SplitLines(line + "\n" + rest) == [line] + SplitLines(rest)
  {
    var s := line + "\n" + rest;
    LineEndAt(line, rest);
    assert s[|line|] == '\n' && s[..|line|] == line && s[|line| + 1..] == rest;
  }

  /** Each line followed by a line feed. */
  function JoinLines(lines: seq<string>): string
    decreases |lines|
  {
    if lines == [] then "" else lines[0] + "\n" + JoinLines(lines[1..])
  }

  lemma {:induction false} SplitUndoesJoin(lines: seq<string>)
    requires forall k :: 0 <= k < |lines| ==> NoBreaks(lines[k])
    ensures SplitLines(JoinLines(lines)) == lines
    decreases |lines|
  {
    if lines != [] {
      SplitFirstLine(lines[0], JoinLines(lines[1..]));
      SplitUndoesJoin(lines[1..]);
    }
  }

  lemma {:induction false} JoinedLinesWithoutDashes(lines: seq<string>)
    requires forall k :: 0 <= k < |lines| ==> !Has(lines[k], DASHES)
    ensures !Has(JoinLines(lines), DASHES)
    ensures lines != [] ==> JoinLines(lines) != "" && JoinLines(lines)[|JoinLines(lines)| - 1] == '\n'
    decreases |lines|
  {
    NeedsDash(JoinLines([]));
    if lines != [] {
      var rest := JoinLines(lines[1..]);
      JoinedLinesWithoutDashes(lines[1..]);
      NeedsDash("\n");
      DashesAcross(lines[0], "\n");
      DashesAcross(lines[0] + "\n", rest);
    }
  }

  lemma {:induction false} LinesAreSlices(s: string, k: nat)
    requires k < |SplitLines(s)|
    ensures NoBreaks(SplitLines(s)[k]) && Slice(SplitLines(s)[k], s)
    decreases |s|
  {
    var n := LineEnd(s);
    TakeIsSlice(s, n);
    if n < |s| && k > 0 {
      var tail := AfterBreak(s, n);
      LinesAreSlices(tail, k - 1);
      DropIsSlice(s, |s| - |tail|);
      assert tail == s[|s| - |tail|..];
      SliceTransitive(SplitLines(tail)[k - 1], tail, s);
    }
  }

  lemma SliceKeepsNoBreaks(part: string, whole: string)
    requires Slice(part, whole) && NoBreaks(whole)
    ensures NoBreaks(part)
  {
    var i, j :| 0 <= i <= j <= |whole| && part == whole[i..j];
  }
}
