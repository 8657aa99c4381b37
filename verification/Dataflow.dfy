/** Data-flow references `${token.path}` inside JSON parameter values, and the two passes that
    rewrite them (modules/ai_agent/domain/services/dataflow_grounding.py). */
module Dataflow {
  import opened Basics
  import opened Text

  // ---------------------------------------------------------------- references in a string

  datatype Ref = Ref(token: string, path: string)

  /** The two groups of the expression `\$\{([^.}]+)\.([^}]+)\}`. */
  predicate GoodToken(token: string) {
    token != "" && '.' !in token && '}' !in token
  }

  predicate GoodPath(path: string) {
    path != "" && '}' !in path
  }

  predicate Good(r: Ref) {
    GoodToken(r.token) && GoodPath(r.path)
  }

  function Print(r: Ref): string {
    ['$', '{'] + (r.token + (['.'] + (r.path + ['}'])))
  }

  datatype Match = Match(ref: Ref, rest: string)

  /** The text after `${` goes on as a reference: with `d` and `b` the first dot and the first closing
      brace, the token ends at `d` and the path at `b`, and neither is empty. */
  predicate Continues(u: string) {
    var d, b := IndexOf(u, '.'), IndexOf(u, '}');
    0 < d && d + 1 < b < |u|
  }

  predicate Opens(s: string) {
    |s| >= 2 && s[0] == '$' && s[1] == '{'
  }

  /** The expression, anchored at the start of `s`; there is at most one way to match. */
  function MatchAt(s: string): (m: Option<Match>)
    ensures m.Some? ==> Good(m.value.ref)
  {
    if Opens(s) && Continues(s[2..]) then
      var u := s[2..];
      var d, b := IndexOf(u, '.'), IndexOf(u, '}');
      Some(Match(Ref(u[..d], u[d + 1..b]), u[b + 1..]))
    else None
  }

  lemma MatchIsPrinted(s: string)
    requires MatchAt(s).Some?
    ensures s == Print(MatchAt(s).value.ref) + MatchAt(s).value.rest
  {
    var u := s[2..];
    var d, b := IndexOf(u, '.'), IndexOf(u, '}');
    assert u == u[..d] + (['.'] + (u[d + 1..b] + ['}'])) + u[b + 1..];
    assert s == ['$', '{'] + u;
  }

  datatype Piece = Plain(c: char) | Reference(ref: Ref)

  /** A string as the leftmost matches cut it up. */
  function Pieces(s: string): (ps: seq<Piece>)
    ensures forall i :: 0 <= i < |ps| && ps[i].Reference? ==> Good(ps[i].ref)
    decreases |s|
  {
    if s == "" then []
    else
      match MatchAt(s)
      case Some(m) => [Reference(m.ref)] + Pieces(m.rest)
      case None => [Plain(s[0])] + Pieces(s[1..])
  }

  /** `re.sub` with a replacement that is itself printed as a reference. */
  function Substitute(s: string, g: Ref -> Ref): string
    decreases |s|
  {
    if s == "" then ""
    else
      match MatchAt(s)
      case Some(m) => Print(g(m.ref)) + Substitute(m.rest, g)
      case None => s[..1] + Substitute(s[1..], g)
  }

  function OnPiece(p: Piece, g: Ref -> Ref): Piece {
    match p
    case Plain(_) => p
    case Reference(r) => Reference(g(r))
  }

  function OnPieces(ps: seq<Piece>, g: Ref -> Ref): (qs: seq<Piece>)
    ensures |qs| == |ps| && forall i :: 0 <= i < |ps| ==> qs[i] == OnPiece(ps[i], g)
  {
    seq(|ps|, i requires 0 <= i < |ps| => OnPiece(ps[i], g))
  }

  // ---------------------------------------------------------------- substitution reads back

  lemma PrintedContinues(r: Ref, after: string)
    requires Good(r)
    ensures var u := r.token + (['.'] + (r.path + (['}'] + after)));
            Continues(u) && IndexOf(u, '.') == |r.token| && IndexOf(u, '}') == |r.token| + 1 + |r.path|
  {
    var u := r.token + (['.'] + (r.path + (['}'] + after)));
    IndexOfAt(r.token, '.', r.path + (['}'] + after));
    assert u == r.token + ['.'] + (r.path + (['}'] + after));
    var before := r.token + (['.'] + r.path);
    IndexOfAt(before, '}', after);
    assert u == before + ['}'] + after;
  }

  lemma MatchOpened(u: string)
    ensures var d, b := IndexOf(u, '.'), IndexOf(u, '}');
            MatchAt(['$', '{'] + u)
              == if Continues(u) then Some(Match(Ref(u[..d], u[d + 1..b]), u[b + 1..])) else None
  {
    BehindOpening(u);
  }

  lemma BehindOpening(u: string)
    ensures var s := ['$', '{'] + u; Opens(s) && s[2..] == u
  {}

  lemma PrintOpens(r: Ref, after: string)
    ensures Print(r) + after == ['$', '{'] + (r.token + (['.'] + (r.path + (['}'] + after))))
  {
    var path := r.path + (['}'] + after);
    assert (r.path + ['}']) + after == path;
    assert (['.'] + (r.path + ['}'])) + after == ['.'] + path;
    assert (r.token + (['.'] + (r.path + ['}']))) + after == r.token + (['.'] + path);
  }

  lemma PrintedInner(r: Ref, after: string) returns (u: string)
    requires Good(r)
    ensures Print(r) + after == ['$', '{'] + u
    ensures var d, b := IndexOf(u, '.'), IndexOf(u, '}');
            Continues(u) && u[..d] == r.token && u[d + 1..b] == r.path && u[b + 1..] == after
  {
    u := r.token + (['.'] + (r.path + (['}'] + after)));
    PrintOpens(r, after);
    PrintedContinues(r, after);
    PrintedGroups(r.token, r.path, after);
  }

  /** A printed reference is matched as itself, whatever follows. */
  lemma PrintedMatches(r: Ref, after: string)
    requires Good(r)
    ensures MatchAt(Print(r) + after) == Some(Match(r, after))
  {
    var u := PrintedInner(r, after);
    MatchOpened(u);
  }

  lemma PrintedGroups(token: string, path: string, after: string)
    ensures var u, d, b := token + (['.'] + (path + (['}'] + after))), |token|, |token| + 1 + |path|;
            u[..d] == token && u[d + 1..b] == path && u[b + 1..] == after
  {
    var u := token + (['.'] + (path + (['}'] + after)));
    var d, b := |token|, |token| + 1 + |path|;
    assert u[d + 1..] == path + (['}'] + after);
    assert u[d + 1..b] == u[d + 1..][..|path|];
    assert u[b + 1..] == u[d + 1..][|path| + 1..];
  }

  /** A stretch in which no match begins is copied. */
  lemma CopiesUnmatched(u: string, n: nat, g: Ref -> Ref)
    requires n <= |u| && forall k :: 0 <= k < n ==> MatchAt(u[k..]).None?
    ensures Substitute(u, g) == u[..n] + Substitute(u[n..], g)
  {
    CopiesQuiet(u, n, s => MatchAt(s).None?, s => Substitute(s, g));
  }

  lemma {:induction false} CopiesQuiet(u: string, n: nat, quiet: string -> bool, sub: string -> string)
    requires n <= |u| && forall k :: 0 <= k < n ==> quiet(u[k..])
    requires forall s :: s != "" && quiet(s) ==> sub(s) == s[..1] + sub(s[1..])
    ensures sub(u) == u[..n] + sub(u[n..])
  {
    if n == 0 {
      assert u[0..] == u && u[..0] == "";
    } else {
      CopiesQuiet(u, n - 1, quiet, sub);
      assert u[n - 1..][1..] == u[n..];
      assert u[..n - 1] + u[n - 1..][..1] == u[..n];
    }
  }

  /** No match begins before the point at which `${u` is seen not to be a reference. */
  lemma NoMatchInside(u: string, k: nat)
    requires k < |u|
    requires var d, b := IndexOf(u, '.'), IndexOf(u, '}'); b == |u| || (k <= b && b <= d + 1)
    ensures MatchAt(u[k..]).None?
  {
    if Opens(u[k..]) {
      assert u[k..] == ['$', '{'] + u[k + 2..];
      MatchOpened(u[k + 2..]);
      NoContinuationInside(u, k);
    }
  }

  lemma NoContinuationInside(u: string, k: nat)
    requires k + 1 < |u| && u[k] == '$' && u[k + 1] == '{'
    requires var d, b := IndexOf(u, '.'), IndexOf(u, '}'); b == |u| || (k <= b && b <= d + 1)
    ensures !Continues(u[k + 2..])
  {
    var b := IndexOf(u, '}');
    if b < |u| { assert u[b] == '}'; }
    IndexOfTail(u, '}', k + 2);
    if b < |u| { DotNotMuchEarlier(u, k); }
  }

  lemma DotNotMuchEarlier(u: string, k: nat)
    requires k + 1 < |u| && u[k] == '$' && u[k + 1] == '{'
    requires k + 2 <= IndexOf(u, '}') <= IndexOf(u, '.') + 1
    ensures IndexOf(u[k + 2..], '.') + 1 >= IndexOf(u, '}') - (k + 2)
  {
    var d := IndexOf(u, '.');
    if d < |u| { assert u[d] == '.'; }
    IndexOfTail(u, '.', k + 2);
  }

  /** Substituting behind a `${` that opens no reference does not make it open one. */
  lemma StaysUnmatched(u: string, g: Ref -> Ref)
    requires !Continues(u)
    ensures !Continues(Substitute(u, g))
  {
    var d, b := IndexOf(u, '.'), IndexOf(u, '}');
    if b == |u| {
      forall k | 0 <= k < |u| ensures MatchAt(u[k..]).None? { NoMatchInside(u, k); }
      CopiesUnmatched(u, |u|, g);
      assert Substitute(u, g) == u;
    } else if b <= d + 1 {
      forall k | 0 <= k < b + 1 ensures MatchAt(u[k..]).None? { NoMatchInside(u, k); }
      CopiesUnmatched(u, b + 1, g);
      SharedBeginning(u, Substitute(u, g), b + 1);
    } else {
      assert u == ['.'] + u[1..];
      assert Substitute(u, g)[0] == '.';
    }
  }

  /** Whether `${u` opens a reference is settled by the text up to the first closing brace. */
  lemma SharedBeginning(u: string, w: string, n: nat)
    requires n <= |u| && n <= |w| && u[..n] == w[..n]
    requires IndexOf(u, '}') == n - 1 && n - 1 <= IndexOf(u, '.') + 1
    ensures !Continues(w)
  {
    IndexOfShared(u, w, '}', n);
    if IndexOf(w, '.') < n - 1 {
      IndexOfShared(w, u, '.', n);
    }
  }

  lemma PlainStaysPlain(s: string, g: Ref -> Ref)
    requires s != "" && MatchAt(s).None?
    ensures MatchAt(s[..1] + Substitute(s[1..], g)).None?
  {
    var r := s[1..];
    var after := s[..1] + Substitute(r, g);
    if Opens(after) {
      assert after[1] == Substitute(r, g)[0] == '{';
      assert r != "" && MatchAt(r).None? && r[0] == '{';
      assert s[2..] == r[1..];
      StaysUnmatched(r[1..], g);
      assert after[2..] == Substitute(r[1..], g);
    }
  }

  function Then(g: Ref -> Ref, h: Ref -> Ref): Ref -> Ref {
    r => h(g(r))
  }

  function Fixes(g: Ref -> Ref): Ref -> bool {
    r => g(r) == r
  }

  ghost predicate KeepsGood(g: Ref -> Ref) {
    forall r :: Good(r) ==> Good(g(r))
  }

  ghost predicate ReadsBack(s: string, g: Ref -> Ref) {
    Pieces(Substitute(s, g)) == OnPieces(Pieces(s), g)
  }

  lemma {:induction false} SubstitutionReadsBackAt(s: string, g: Ref -> Ref)
    requires KeepsGood(g)
    ensures ReadsBack(s, g)
    decreases |s|
  {
    if s != "" {
      match MatchAt(s) {
        case Some(m) =>
          SubstitutionReadsBackAt(m.rest, g);
          ReferenceReadsBack(s, m, g);
        case None =>
          SubstitutionReadsBackAt(s[1..], g);
          PlainReadsBack(s, g);
      }
    }
  }

  lemma ReferenceReadsBack(s: string, m: Match, g: Ref -> Ref)
    requires MatchAt(s) == Some(m) && Good(g(m.ref)) && ReadsBack(m.rest, g)
    ensures ReadsBack(s, g)
  {
    var after := Substitute(m.rest, g);
    PrintedMatches(g(m.ref), after);
    assert Pieces(Print(g(m.ref)) + after) == [Reference(g(m.ref))] + Pieces(after);
    OnPiecesCons(Reference(m.ref), Pieces(m.rest), g);
  }

  lemma PlainReadsBack(s: string, g: Ref -> Ref)
    requires s != "" && MatchAt(s).None? && ReadsBack(s[1..], g)
    ensures ReadsBack(s, g)
  {
    var after := Substitute(s[1..], g);
    PlainStaysPlain(s, g);
    PlainFirst(s[..1], after);
    OnPiecesCons(Plain(s[0]), Pieces(s[1..]), g);
  }

  lemma PlainFirst(first: string, after: string)
    requires |first| == 1 && MatchAt(first + after).None?
    ensures Pieces(first + after) == [Plain(first[0])] + Pieces(after)
  {
    assert (first + after)[1..] == after;
  }

  lemma OnPiecesCons(p: Piece, ps: seq<Piece>, g: Ref -> Ref)
    ensures OnPieces([p] + ps, g) == [OnPiece(p, g)] + OnPieces(ps, g)
  {
    assert forall i :: 0 < i < |[p] + ps| ==> ([p] + ps)[i] == ps[i - 1];
  }

  /** Exactly the substitutions that yield printable references leave a string whose pieces are the
      old pieces with each reference replaced: no reference is created, lost or merged. */
  lemma SubstitutionReadsBack(g: Ref -> Ref)
    ensures (forall s :: Pieces(Substitute(s, g)) == OnPieces(Pieces(s), g)) <==> KeepsGood(g)
  {
    if KeepsGood(g) {
      forall s ensures Pieces(Substitute(s, g)) == OnPieces(Pieces(s), g) { SubstitutionReadsBackAt(s, g); }
    } else {
      var r :| Good(r) && !Good(g(r));
      var s := Print(r);
      PrintedMatches(r, "");
      assert s + "" == s;
      assert Pieces(s) == [Reference(r)];
      assert OnPieces(Pieces(s), g)[0] == Reference(g(r));
      assert Pieces(Substitute(s, g)) != OnPieces(Pieces(s), g);
    }
  }

  /** Two passes are one pass with the composed replacement. */
  lemma {:induction false} SubstituteTwice(s: string, g: Ref -> Ref, h: Ref -> Ref)
    requires KeepsGood(g)
    ensures Substitute(Substitute(s, g), h) == Substitute(s, Then(g, h))
    decreases |s|
  {
    if s != "" {
      match MatchAt(s) {
        case Some(m) =>
          SubstituteTwice(m.rest, g, h);
          PrintedMatches(g(m.ref), Substitute(m.rest, g));
        case None =>
          SubstituteTwice(s[1..], g, h);
          PlainStaysPlain(s, g);
          var after := s[..1] + Substitute(s[1..], g);
          assert after[..1] == s[..1] && after[1..] == Substitute(s[1..], g);
      }
    }
  }

  predicate BraceLast(u: string) {
    u == "" || u[|u| - 1] == '}'
  }

  /** No match begun before a closing brace goes on behind it: the two sides are substituted apart. */
  lemma {:induction false} SubstitutePastBrace(u: string, rest: string, g: Ref -> Ref)
    requires BraceLast(u)
    ensures Substitute(u + rest, g) == Substitute(u, g) + Substitute(rest, g)
    decreases |u|
  {
    if u == "" {
      assert u + rest == rest;
    } else {
      MatchPastBrace(u, rest);
      match MatchAt(u) {
        case Some(m) => SubstitutePastBrace(m.rest, rest, g);
        case None =>
          assert (u + rest)[..1] == u[..1] && (u + rest)[1..] == u[1..] + rest;
          SubstitutePastBrace(u[1..], rest, g);
      }
    }
  }

  lemma MatchPastBrace(u: string, rest: string)
    requires u != "" && BraceLast(u)
    ensures MatchAt(u + rest) == match MatchAt(u) case Some(m) => Some(Match(m.ref, m.rest + rest)) case None => None
    ensures MatchAt(u).Some? ==> |MatchAt(u).value.rest| < |u| && BraceLast(MatchAt(u).value.rest)
  {
    if Opens(u) {
      var v := u[2..];
      assert u == ['$', '{'] + v && u + rest == ['$', '{'] + (v + rest);
      MatchOpened(v);
      MatchOpened(v + rest);
      ContinuesPastBrace(v, rest);
    } else {
      assert |u| > 1 || u[0] == '}';
    }
  }

  lemma ContinuesPastBrace(v: string, rest: string)
    requires v != "" && BraceLast(v)
    ensures IndexOf(v, '}') < |v| && IndexOf(v + rest, '}') == IndexOf(v, '}')
    ensures Continues(v + rest) == Continues(v)
    ensures Continues(v) ==>
              var d, b := IndexOf(v, '.'), IndexOf(v, '}');
              && IndexOf(v + rest, '.') == d && (v + rest)[..d] == v[..d] && (v + rest)[d + 1..b] == v[d + 1..b]
              && (v + rest)[b + 1..] == v[b + 1..] + rest && BraceLast(v[b + 1..])
  {
    var d := IndexOf(v, '.');
    assert v[..|v|] == v && v[|v| - 1] in v;
    IndexOfShared(v, v + rest, '}', |v|);
    if d < |v| {
      IndexOfShared(v, v + rest, '.', |v|);
    } else {
      BehindAll(v, rest, '.');
    }
  }

  lemma BehindAll(v: string, rest: string, c: char)
    requires c !in v
    ensures IndexOf(v + rest, c) >= |v|
  {
    forall k | 0 <= k < |v| ensures (v + rest)[k] != c {}
  }

  /** What is printed for `r` is left alone by `g`, whatever follows. */
  ghost predicate Settled(r: Ref, g: Ref -> Ref) {
    forall rest :: Substitute(Print(r) + rest, g) == Print(r) + Substitute(rest, g)
  }

  lemma SettledIfFixed(r: Ref, g: Ref -> Ref)
    requires Good(r) && g(r) == r
    ensures Settled(r, g)
  {
    forall rest ensures Substitute(Print(r) + rest, g) == Print(r) + Substitute(rest, g) {
      PrintedMatches(r, rest);
      assert Print(r) + rest != "";
    }
  }

  /** `${token.}` is no reference, and no reference begins inside it. */
  lemma NoMatchBegins(token: string, more: string, k: nat)
    requires GoodToken(token) && k < |Print(Ref(token, ""))|
    ensures MatchAt((Print(Ref(token, "")) + more)[k..]).None?
  {
    var u := BrokenInner(token, more);
    QuietInner(u, k);
  }

  lemma BrokenInner(token: string, more: string) returns (u: string)
    requires GoodToken(token)
    ensures Print(Ref(token, "")) + more == ['$', '{'] + u && |Print(Ref(token, ""))| == |token| + 4
    ensures IndexOf(u, '}') == IndexOf(u, '.') + 1 == |token| + 1 < |u|
  {
    PrintOpens(Ref(token, ""), more);
    WithoutPath(token, ['}'] + more);
    u := token + ['.'] + (['}'] + more);
    BrokenIndexes(token, more);
  }

  lemma WithoutPath(token: string, tail: string)
    ensures token + (['.'] + ("" + tail)) == token + ['.'] + tail
  {}

  lemma BrokenIndexes(token: string, more: string)
    requires GoodToken(token)
    ensures var u := token + ['.'] + (['}'] + more);
            IndexOf(u, '}') == IndexOf(u, '.') + 1 == |token| + 1 < |u|
  {
    IndexOfAt(token, '.', ['}'] + more);
    IndexOfAt(token + ['.'], '}', more);
    assert token + ['.'] + (['}'] + more) == (token + ['.']) + ['}'] + more;
  }

  lemma QuietInner(u: string, k: nat)
    requires IndexOf(u, '}') == IndexOf(u, '.') + 1 < |u| && k <= IndexOf(u, '}') + 2
    ensures MatchAt((['$', '{'] + u)[k..]).None?
  {
    var s := ['$', '{'] + u;
    if k == 0 {
      assert s[0..] == s;
      MatchOpened(u);
    } else if k == 1 {
      assert s[1..][0] == '{';
    } else {
      assert s[k..] == u[k - 2..];
      NoMatchInside(u, k - 2);
    }
  }

  /** A printed reference whose path is cut short by a closing brace: `tail` is what follows the brace. */
  lemma SettledIfBroken(r: Ref, tail: string, g: Ref -> Ref)
    requires GoodToken(r.token) && Print(r) == Print(Ref(r.token, "")) + tail
    requires BraceLast(tail) && Substitute(tail, g) == tail
    ensures Settled(r, g)
  {
    forall rest ensures Substitute(Print(r) + rest, g) == Print(r) + Substitute(rest, g) {
      NoneMatchBegins(r.token, tail + rest);
      FrontThenTail(Print(Ref(r.token, "")), tail, rest, g);
    }
  }

  lemma NoneMatchBegins(token: string, more: string)
    requires GoodToken(token)
    ensures Unmatched(Print(Ref(token, "")), more)
  {
    forall k | 0 <= k < |Print(Ref(token, ""))| ensures MatchAt((Print(Ref(token, "")) + more)[k..]).None? {
      NoMatchBegins(token, more, k);
    }
  }

  /** No reference begins in `front`, when `more` follows. */
  ghost predicate Unmatched(front: string, more: string) {
    forall k :: 0 <= k < |front| ==> MatchAt((front + more)[k..]).None?
  }

  lemma FrontThenTail(front: string, tail: string, rest: string, g: Ref -> Ref)
    requires Unmatched(front, tail + rest) && BraceLast(tail) && Substitute(tail, g) == tail
    ensures Substitute(front + tail + rest, g) == front + tail + Substitute(rest, g)
  {
    CopiesFront(front, tail + rest, g);
    SubstitutePastBrace(tail, rest, g);
    Glue(front, tail, rest, s => Substitute(s, g));
  }

  lemma Glue(front: string, tail: string, rest: string, sub: string -> string)
    requires sub(front + (tail + rest)) == front + sub(tail + rest)
    requires sub(tail + rest) == sub(tail) + sub(rest) && sub(tail) == tail
    ensures sub(front + tail + rest) == front + tail + sub(rest)
  {
    assert front + tail + rest == front + (tail + rest);
  }

  lemma CopiesFront(front: string, more: string, g: Ref -> Ref)
    requires Unmatched(front, more)
    ensures Substitute(front + more, g) == front + Substitute(more, g)
  {
    CopiesUnmatched(front + more, |front|, g);
    assert (front + more)[..|front|] == front && (front + more)[|front|..] == more;
  }

  lemma {:induction false} SettlesEverywhere(s: string, g: Ref -> Ref)
    requires forall r :: Good(r) ==> Settled(g(r), g)
    ensures Substitute(Substitute(s, g), g) == Substitute(s, g)
    decreases |s|
  {
    if s != "" {
      match MatchAt(s) {
        case Some(m) => SettlesEverywhere(m.rest, g);
        case None =>
          SettlesEverywhere(s[1..], g);
          PlainStaysPlain(s, g);
          var after := s[..1] + Substitute(s[1..], g);
          assert after[..1] == s[..1] && after[1..] == Substitute(s[1..], g);
      }
    }
  }

  /** Only what `g` does to the references in `s` matters. */
  lemma {:induction false} SubstituteDependsOnRefs(s: string, g: Ref -> Ref, h: Ref -> Ref)
    requires forall i :: 0 <= i < |Pieces(s)| && Pieces(s)[i].Reference? ==> g(Pieces(s)[i].ref) == h(Pieces(s)[i].ref)
    ensures Substitute(s, g) == Substitute(s, h)
    decreases |s|
  {
    if s != "" {
      var m := MatchAt(s);
      var rest := if m.Some? then m.value.rest else s[1..];
      assert Pieces(s)[1..] == Pieces(rest);
      assert m.Some? ==> Pieces(s)[0] == Reference(m.value.ref);
      forall i | 0 <= i < |Pieces(rest)| && Pieces(rest)[i].Reference?
        ensures g(Pieces(rest)[i].ref) == h(Pieces(rest)[i].ref)
      {
        assert Pieces(rest)[i] == Pieces(s)[i + 1];
      }
      SubstituteDependsOnRefs(rest, g, h);
    }
  }

  lemma {:induction false} SubstituteIdentity(s: string)
    ensures Substitute(s, r => r) == s
    decreases |s|
  {
    if s != "" {
      match MatchAt(s) {
        case Some(m) =>
          MatchIsPrinted(s);
          SubstituteIdentity(m.rest);
        case None => SubstituteIdentity(s[1..]);
      }
    }
  }

  // ---------------------------------------------------------------- JSON values

  datatype Json =
    | JText(text: string)
    | JList(items: seq<Json>)
    | JObject(entries: seq<(string, Json)>)
    | JOther(code: int)

  /** The recursion `rewrite_refs` and `ground_ref_fields` share. */
  function OnJson(v: Json, g: Ref -> Ref): Json
    decreases v
  {
    match v
    case JText(text) => JText(Substitute(text, g))
    case JList(items) => JList(seq(|items|, i requires 0 <= i < |items| => OnJson(items[i], g)))
    case JObject(entries) =>
      JObject(seq(|entries|, i requires 0 <= i < |entries| => (entries[i].0, OnJson(entries[i].1, g))))
    case JOther(_) => v
  }

  /** Every reference in every string of `v` satisfies `p`. */
  ghost predicate AllRefs(v: Json, p: Ref -> bool)
    decreases v
  {
    match v
    case JText(text) => forall i :: 0 <= i < |Pieces(text)| && Pieces(text)[i].Reference? ==> p(Pieces(text)[i].ref)
    case JList(items) => forall i :: 0 <= i < |items| ==> AllRefs(items[i], p)
    case JObject(entries) => forall i :: 0 <= i < |entries| ==> AllRefs(entries[i].1, p)
    case JOther(_) => true
  }

  /** The texts have the same characters outside references, and references at the same places. */
  ghost predicate SameOutside(s: string, t: string) {
    var ps, qs := Pieces(s), Pieces(t);
    && |ps| == |qs|
    && forall i :: 0 <= i < |ps| ==> ps[i] == qs[i] || (ps[i].Reference? && qs[i].Reference?)
  }

  /** The same tree of lists and keys, with the same text outside references at its leaves. */
  ghost predicate SameShape(v: Json, w: Json)
    decreases v
  {
    match v
    case JText(text) => w.JText? && SameOutside(text, w.text)
    case JList(items) =>
      w.JList? && |items| == |w.items| && forall i :: 0 <= i < |items| ==> SameShape(items[i], w.items[i])
    case JObject(entries) =>
      && w.JObject? && |entries| == |w.entries|
      && forall i :: 0 <= i < |entries| ==>
           entries[i].0 == w.entries[i].0 && SameShape(entries[i].1, w.entries[i].1)
    case JOther(_) => v == w
  }

  lemma {:induction false} OnJsonKeepsShape(v: Json, g: Ref -> Ref)
    requires KeepsGood(g)
    ensures SameShape(v, OnJson(v, g))
    decreases v
  {
    match v {
      case JText(text) => SubstitutionReadsBackAt(text, g);
      case JList(items) =>
        forall i | 0 <= i < |items| ensures SameShape(items[i], OnJson(items[i], g)) {
          OnJsonKeepsShape(items[i], g);
        }
      case JObject(entries) =>
        forall i | 0 <= i < |entries| ensures SameShape(entries[i].1, OnJson(entries[i].1, g)) {
          OnJsonKeepsShape(entries[i].1, g);
        }
      case JOther(_) =>
    }
  }

  /** Each replacement satisfies `p`, or its path is empty, so that it prints as no reference at all. */
  ghost predicate Lands(g: Ref -> Ref, p: Ref -> bool) {
    forall r :: Good(r) ==> GoodToken(g(r).token) && '}' !in g(r).path && (g(r).path == "" || p(g(r)))
  }

  lemma {:induction false} TextReaches(s: string, g: Ref -> Ref, p: Ref -> bool)
    requires Lands(g, p)
    ensures AllRefs(JText(Substitute(s, g)), p)
    decreases |s|
  {
    if s != "" {
      match MatchAt(s) {
        case Some(m) =>
          TextReaches(m.rest, g, p);
          PrintedReaches(g(m.ref), Substitute(m.rest, g), p);
        case None =>
          TextReaches(s[1..], g, p);
          PlainStaysPlain(s, g);
          PlainFirst(s[..1], Substitute(s[1..], g));
          RefsBehind([Plain(s[0])], Substitute(s[1..], g), s[..1] + Substitute(s[1..], g), p);
      }
    }
  }

  /** A text whose pieces are `front`, and the pieces of `after`. */
  lemma RefsBehind(front: seq<Piece>, after: string, s: string, p: Ref -> bool)
    requires Pieces(s) == front + Pieces(after) && AllRefs(JText(after), p)
    requires forall i :: 0 <= i < |front| && front[i].Reference? ==> p(front[i].ref)
    ensures AllRefs(JText(s), p)
  {
    forall i | 0 <= i < |Pieces(s)| && Pieces(s)[i].Reference? ensures p(Pieces(s)[i].ref) {
      if i >= |front| { assert Pieces(s)[i] == Pieces(after)[i - |front|]; }
    }
  }

  lemma PrintedReaches(r: Ref, after: string, p: Ref -> bool)
    requires GoodToken(r.token) && '}' !in r.path && (r.path == "" || p(r)) && AllRefs(JText(after), p)
    ensures AllRefs(JText(Print(r) + after), p)
  {
    if r.path == "" {
      NoneMatchBegins(r.token, after);
      QuietFront(Print(r), after, p);
    } else {
      PrintedMatches(r, after);
      assert Pieces(Print(r) + after) == [Reference(r)] + Pieces(after);
      RefsBehind([Reference(r)], after, Print(r) + after, p);
    }
  }

  lemma {:induction false} QuietFront(front: string, after: string, p: Ref -> bool)
    requires Unmatched(front, after) && AllRefs(JText(after), p)
    ensures AllRefs(JText(front + after), p)
    decreases |front|
  {
    if front == "" {
      assert front + after == after;
    } else {
      var first, more := front[..1], front[1..];
      assert front + after == first + (more + after) && (front + after)[0..] == front + after;
      forall k | 0 <= k < |more| ensures MatchAt((more + after)[k..]).None? {
        assert (more + after)[k..] == (front + after)[k + 1..];
      }
      QuietFront(more, after, p);
      PlainFirst(first, more + after);
      RefsBehind([Plain(first[0])], more + after, front + after, p);
    }
  }

  lemma {:induction false} OnJsonReaches(v: Json, g: Ref -> Ref, p: Ref -> bool)
    requires Lands(g, p)
    ensures AllRefs(OnJson(v, g), p)
    decreases v
  {
    match v {
      case JText(text) => TextReaches(text, g, p);
      case JList(items) =>
        forall i | 0 <= i < |items| ensures AllRefs(OnJson(items[i], g), p) { OnJsonReaches(items[i], g, p); }
      case JObject(entries) =>
        forall i | 0 <= i < |entries| ensures AllRefs(OnJson(entries[i].1, g), p) {
          OnJsonReaches(entries[i].1, g, p);
        }
      case JOther(_) =>
    }
  }

  lemma {:induction false} OnJsonAgain(v: Json, g: Ref -> Ref)
    requires forall s :: Substitute(Substitute(s, g), g) == Substitute(s, g)
    ensures OnJson(OnJson(v, g), g) == OnJson(v, g)
    decreases v
  {
    match v {
      case JText(_) =>
      case JList(items) =>
        forall i | 0 <= i < |items| ensures OnJson(OnJson(items[i], g), g) == OnJson(items[i], g) {
          OnJsonAgain(items[i], g);
        }
        assert OnJson(OnJson(v, g), g).items == OnJson(v, g).items;
      case JObject(entries) =>
        forall i | 0 <= i < |entries| ensures OnJson(OnJson(entries[i].1, g), g) == OnJson(entries[i].1, g) {
          OnJsonAgain(entries[i].1, g);
        }
        assert OnJson(OnJson(v, g), g).entries == OnJson(v, g).entries;
      case JOther(_) =>
    }
  }

  /** A pass that leaves each reference alone leaves the value alone. */
  lemma {:induction false} OnJsonIdle(v: Json, g: Ref -> Ref)
    requires AllRefs(v, Fixes(g))
    ensures OnJson(v, g) == v
    decreases v
  {
    match v {
      case JText(text) =>
        SubstituteDependsOnRefs(text, g, r => r);
        SubstituteIdentity(text);
      case JList(items) =>
        forall i | 0 <= i < |items| ensures OnJson(items[i], g) == items[i] { OnJsonIdle(items[i], g); }
        assert OnJson(v, g).items == items;
      case JObject(entries) =>
        forall i | 0 <= i < |entries| ensures (entries[i].0, OnJson(entries[i].1, g)) == entries[i] {
          OnJsonIdle(entries[i].1, g);
        }
        assert OnJson(v, g).entries == entries;
      case JOther(_) =>
    }
  }

  lemma FixedText(s: string, g: Ref -> Ref)
    requires KeepsGood(g)
    ensures Substitute(s, g) == s <==> AllRefs(JText(s), Fixes(g))
  {
    SubstitutionReadsBackAt(s, g);
    SubstituteIdentity(s);
    if AllRefs(JText(s), Fixes(g)) {
      SubstituteDependsOnRefs(s, g, r => r);
    }
    if Substitute(s, g) == s {
      forall i | 0 <= i < |Pieces(s)| && Pieces(s)[i].Reference? ensures g(Pieces(s)[i].ref) == Pieces(s)[i].ref {
        assert OnPieces(Pieces(s), g)[i] == Pieces(s)[i];
      }
    }
  }

  /** A pass leaves a value alone exactly when it leaves each of its references alone. */
  lemma {:induction false} OnJsonFixed(v: Json, g: Ref -> Ref)
    requires KeepsGood(g)
    ensures OnJson(v, g) == v <==> AllRefs(v, Fixes(g))
    decreases v
  {
    match v {
      case JText(text) => FixedText(text, g);
      case JList(items) =>
        forall i | 0 <= i < |items| ensures OnJson(items[i], g) == items[i] <==> AllRefs(items[i], Fixes(g)) {
          OnJsonFixed(items[i], g);
        }
        assert OnJson(v, g) == v <==> OnJson(v, g).items == items;
      case JObject(entries) =>
        forall i | 0 <= i < |entries|
          ensures OnJson(entries[i].1, g) == entries[i].1 <==> AllRefs(entries[i].1, Fixes(g))
        {
          OnJsonFixed(entries[i].1, g);
        }
        assert OnJson(v, g) == v <==> OnJson(v, g).entries == entries;
        assert forall i :: 0 <= i < |entries| ==> entries[i] == (entries[i].0, entries[i].1);
      case JOther(_) =>
    }
  }

  lemma {:induction false} OnJsonTwice(v: Json, g: Ref -> Ref, h: Ref -> Ref)
    requires KeepsGood(g)
    ensures OnJson(OnJson(v, g), h) == OnJson(v, Then(g, h))
    decreases v
  {
    match v {
      case JText(text) => SubstituteTwice(text, g, h);
      case JList(items) =>
        forall i | 0 <= i < |items|
          ensures OnJson(OnJson(items[i], g), h) == OnJson(items[i], Then(g, h))
        {
          OnJsonTwice(items[i], g, h);
        }
      case JObject(entries) =>
        forall i | 0 <= i < |entries|
          ensures OnJson(OnJson(entries[i].1, g), h) == OnJson(entries[i].1, Then(g, h))
        {
          OnJsonTwice(entries[i].1, g, h);
        }
      case JOther(_) =>
    }
  }

  // ---------------------------------------------------------------- rewriting tokens to instances

  datatype Uuid = Uuid(number: nat)

  function RewriteRef(r: Ref, ids: map<string, Uuid>, show: Uuid -> string): Ref {
    if r.token in ids then Ref(show(ids[r.token]), r.path) else r
  }

  function Rewriter(ids: map<string, Uuid>, show: Uuid -> string): Ref -> Ref {
    r => RewriteRef(r, ids, show)
  }

  function RewriteRefs(v: Json, ids: map<string, Uuid>, show: Uuid -> string): Json {
    OnJson(v, Rewriter(ids, show))
  }

  function AvoidsTokens(ids: map<string, Uuid>): Ref -> bool {
    (r: Ref) => r.token !in ids
  }

  /** `str` of a UUID has hexadecimal digits and dashes only. */
  ghost predicate Shows(show: Uuid -> string) {
    forall id :: GoodToken(show(id))
  }

  /** Rewriting keeps the value's shape and its text outside references. When no instance id is itself
      a token, no reference to a known token is left, and a second pass changes nothing. */
  lemma RewritingResolvesTokens(v: Json, ids: map<string, Uuid>, show: Uuid -> string)
    requires Shows(show)
    ensures SameShape(v, RewriteRefs(v, ids, show))
    ensures (forall t :: t in ids ==> show(ids[t]) !in ids) ==>
              && AllRefs(RewriteRefs(v, ids, show), AvoidsTokens(ids))
              && RewriteRefs(RewriteRefs(v, ids, show), ids, show) == RewriteRefs(v, ids, show)
  {
    var g := Rewriter(ids, show);
    assert KeepsGood(g);
    OnJsonKeepsShape(v, g);
    if forall t :: t in ids ==> show(ids[t]) !in ids {
      OnJsonReaches(v, g, AvoidsTokens(ids));
      OnJsonReaches(v, g, Fixes(g));
      OnJsonFixed(OnJson(v, g), g);
    }
  }

  /** A value without references, or none to a known token, is left as it is; and conversely, unless
      some token is its own instance id. */
  lemma RewritingIsIdleExactly(v: Json, ids: map<string, Uuid>, show: Uuid -> string)
    requires Shows(show) && forall t :: t in ids ==> show(ids[t]) != t
    ensures RewriteRefs(v, ids, show) == v <==> AllRefs(v, AvoidsTokens(ids))
  {
    var g := Rewriter(ids, show);
    assert KeepsGood(g);
    OnJsonFixed(v, g);
    AllRefsAgree(v, Fixes(g), AvoidsTokens(ids));
  }

  lemma {:induction false} AllRefsAgree(v: Json, p: Ref -> bool, q: Ref -> bool)
    requires forall r :: Good(r) ==> p(r) == q(r)
    ensures AllRefs(v, p) == AllRefs(v, q)
    decreases v
  {
    match v {
      case JText(text) =>
        assert forall i :: 0 <= i < |Pieces(text)| && Pieces(text)[i].Reference? ==> Good(Pieces(text)[i].ref);
      case JList(items) =>
        forall i | 0 <= i < |items| ensures AllRefs(items[i], p) == AllRefs(items[i], q) {
          AllRefsAgree(items[i], p, q);
        }
      case JObject(entries) =>
        forall i | 0 <= i < |entries| ensures AllRefs(entries[i].1, p) == AllRefs(entries[i].1, q) {
          AllRefsAgree(entries[i].1, p, q);
        }
      case JOther(_) =>
    }
  }

  // ---------------------------------------------------------------- grounding paths in output schemas

  datatype Field = Field(name: string, kind: string)

  /** `parse` is `UUID(token)`; `outputs` gives a node's output fields, as the items of a dictionary. */
  datatype Upstream = Upstream(parse: string -> Option<Uuid>, outputs: map<Uuid, seq<Field>>)

  const NON_OBJECT: set<string> := {"array", "string", "integer", "number", "boolean"}

  function OutputsOf(up: Upstream, token: string): Option<seq<Field>> {
    match up.parse(token)
    case Some(id) => if id in up.outputs then Some(up.outputs[id]) else None
    case None => None
  }

  function KindOf(fields: seq<Field>, name: string): Option<string> {
    if fields == [] then None
    else if fields[0].name == name then Some(fields[0].kind)
    else KindOf(fields[1..], name)
  }

  function Head(path: string): string {
    path[..IndexOf(path, '.')]
  }

  /** What `path.partition(".")` leaves behind the first dot; also empty when the dot comes last. */
  function Below(path: string): string {
    var i := IndexOf(path, '.');
    if i < |path| then path[i + 1..] else ""
  }

  predicate NonObject(fields: seq<Field>, name: string) {
    KindOf(fields, name).Some? && KindOf(fields, name).value in NON_OBJECT
  }

  function GroundRef(r: Ref, up: Upstream): Ref {
    match OutputsOf(up, r.token)
    case None => r
    case Some(fields) =>
      if KindOf(fields, Head(r.path)).Some? then
        if Below(r.path) != "" && NonObject(fields, Head(r.path)) then Ref(r.token, Head(r.path)) else r
      else if |fields| == 1 then Ref(r.token, fields[0].name)
      else r
  }

  function Grounder(up: Upstream): Ref -> Ref {
    r => GroundRef(r, up)
  }

  function GroundRefFields(v: Json, up: Upstream): Json {
    OnJson(v, Grounder(up))
  }

  /** A known reference goes below no array or primitive, and names the output of a node with one. */
  predicate Grounded(r: Ref, up: Upstream) {
    OutputsOf(up, r.token).Some? ==>
      var fields := OutputsOf(up, r.token).value;
      && (NonObject(fields, Head(r.path)) ==> Below(r.path) == "")
      && (|fields| == 1 ==> Head(r.path) == fields[0].name || r.path == fields[0].name)
  }

  function IsGrounded(up: Upstream): Ref -> bool {
    r => Grounded(r, up)
  }

  /** A node's only output can be written as a path, and no array or primitive output is nameless. */
  predicate WellNamed(fields: seq<Field>) {
    && (|fields| == 1 ==> GoodPath(fields[0].name))
    && !NonObject(fields, "")
  }

  ghost predicate AllWellNamed(up: Upstream) {
    forall token :: GoodToken(token) && OutputsOf(up, token).Some? ==> WellNamed(OutputsOf(up, token).value)
  }

  lemma GroundingKeepsGood(up: Upstream)
    ensures KeepsGood(Grounder(up)) <==> AllWellNamed(up)
  {
    var g := Grounder(up);
    if AllWellNamed(up) {
      forall r | Good(r) ensures Good(g(r)) {
        assert Head(r.path) == "" || GoodPath(Head(r.path)) by {
          assert forall i :: 0 <= i < |Head(r.path)| ==> Head(r.path)[i] == r.path[i];
        }
      }
    } else {
      var token :| GoodToken(token) && OutputsOf(up, token).Some? && !WellNamed(OutputsOf(up, token).value);
      var fields := OutputsOf(up, token).value;
      var r := if NonObject(fields, "") then Ref(token, ".x") else Ref(token, "x");
      assert Good(r);
      if NonObject(fields, "") {
        assert Head(r.path) == "" && Below(r.path) == "x";
      } else {
        IndexOfIs("x", '.', 1);
        assert Head("x") == "x";
        assert fields[0].name != "x";
        assert KindOf(fields, "x").None?;
      }
      assert !Good(g(r));
    }
  }

  /** Grounding replaces references one for one, on every text, exactly when the outputs in reach are
      well named. */
  lemma GroundingReadsBack(up: Upstream)
    ensures (forall s :: Pieces(Substitute(s, Grounder(up))) == OnPieces(Pieces(s), Grounder(up)))
       <==> AllWellNamed(up)
  {
    GroundingKeepsGood(up);
    SubstitutionReadsBack(Grounder(up));
  }

  /** What grounding leaves is grounded, or has no path; and what is well named stays put exactly when it
      was grounded already. */
  lemma GroundRefGrounds(r: Ref, up: Upstream)
    requires Good(r)
    ensures Grounded(GroundRef(r, up), up)
    ensures (OutputsOf(up, r.token).Some? ==> WellNamed(OutputsOf(up, r.token).value)) ==>
              (GroundRef(r, up) == r <==> Grounded(r, up))
  {
    if OutputsOf(up, r.token).Some? {
      var fields, head := OutputsOf(up, r.token).value, Head(r.path);
      assert '.' !in head;
      IndexOfIs(head, '.', |head|);
      assert Head(head) == head && Below(head) == "";
      if |fields| == 1 {
        assert fields[1..] == [];
        var only := fields[0].name;
        assert KindOf(fields, head).Some? <==> head == only;
        assert KindOf(fields, Head(only)).Some? <==> Head(only) == only;
        if Head(only) == only {
          assert only == r.path[..0] || IndexOf(only, '.') == |only|;
        }
      }
    }
  }

  /** On well-named outputs grounding keeps the shape and everything outside references, and changes nothing
      exactly when every reference is grounded already. */
  lemma GroundingKeepsShape(v: Json, up: Upstream)
    requires AllWellNamed(up)
    ensures SameShape(v, GroundRefFields(v, up))
    ensures GroundRefFields(v, up) == v <==> AllRefs(v, IsGrounded(up))
  {
    var g, grounded := Grounder(up), IsGrounded(up);
    GroundingKeepsGood(up);
    forall r | Good(r) ensures g(r) == r <==> grounded(r) { GroundRefGrounds(r, up); }
    OnJsonKeepsShape(v, g);
    OnJsonFixed(v, g);
    AllRefsAgree(v, Fixes(g), grounded);
  }

  /** A name that a second pass leaves alone: without a closing brace, or one that opens with it and goes on
      with text the pass leaves alone. */
  predicate StableName(name: string, up: Upstream) {
    '}' !in name || (name[0] == '}' && Substitute(name[1..] + ['}'], Grounder(up)) == name[1..] + ['}'])
  }

  predicate OnlyOutput(up: Upstream, token: string, name: string) {
    OutputsOf(up, token).Some? && |OutputsOf(up, token).value| == 1 && OutputsOf(up, token).value[0].name == name
  }

  ghost predicate AllStable(up: Upstream) {
    forall token, name :: GoodToken(token) && OnlyOutput(up, token, name) ==> StableName(name, up)
  }

  lemma GroundedPathIsFixed(r: Ref, up: Upstream)
    requires Good(r) && Good(GroundRef(r, up))
    ensures GroundRef(GroundRef(r, up), up) == GroundRef(r, up)
  {
    if OutputsOf(up, r.token).Some? {
      var fields, head := OutputsOf(up, r.token).value, Head(r.path);
      IndexOfIs(head, '.', |head|);
      assert Head(head) == head && Below(head) == "";
      if |fields| == 1 {
        assert fields[1..] == [];
        var only := fields[0].name;
        assert KindOf(fields, head).Some? <==> head == only;
        assert KindOf(fields, Head(only)).Some? <==> Head(only) == only;
        assert Head(only) == only ==> IndexOf(only, '.') == |only|;
      }
    }
  }

  /** Where a grounded path comes from: the path itself, its first part, or the only output's name. */
  lemma GroundedPath(r: Ref, up: Upstream)
    requires Good(r)
    ensures var p := GroundRef(r, up);
            p.token == r.token && ('}' in p.path ==> OnlyOutput(up, r.token, p.path))
  {
    assert '}' !in Head(r.path);
  }

  lemma GroundRefSettles(r: Ref, up: Upstream)
    requires Good(r) && AllStable(up)
    ensures Settled(GroundRef(r, up), Grounder(up))
  {
    var p, g := GroundRef(r, up), Grounder(up);
    GroundedPath(r, up);
    if Good(p) {
      GroundedPathIsFixed(r, up);
      SettledIfFixed(p, g);
    } else if p.path == "" {
      assert Print(p) == Print(Ref(p.token, "")) + "";
      SettledIfBroken(p, "", g);
    } else {
      var tail := p.path[1..] + ['}'];
      assert StableName(p.path, up);
      assert p.path == [] + ['}'] + p.path[1..];
      PrintWithBrace(p.token, [], p.path[1..]);
      SettledIfBroken(p, tail, g);
    }
  }

  lemma BraceInsideGrows(token: string, before: string, after: string, up: Upstream)
    requires GoodToken(token) && GoodPath(before) && OnlyOutput(up, token, before + ['}'] + after)
    ensures var p := Print(Ref(token, before + ['}'] + after)); Substitute(p, Grounder(up)) != p
  {
    OnlyOutputIsTaken(token, before, before + ['}'] + after, up);
    PrintWithBrace(token, before, after);
    GrowsAgain(Ref(token, before), after + ['}'], Grounder(up));
  }

  lemma BraceFirstMoves(token: string, after: string, g: Ref -> Ref)
    requires GoodToken(token) && Substitute(after + ['}'], g) != after + ['}']
    ensures var p := Print(Ref(token, ['}'] + after)); Substitute(p, g) != p
  {
    PrintWithBrace(token, [], after);
    assert [] + ['}'] + after == ['}'] + after;
    NoneMatchBegins(token, after + ['}']);
    FrontMoves(Print(Ref(token, ['}'] + after)), Print(Ref(token, "")), after + ['}'], g);
  }

  lemma FrontMoves(p: string, front: string, more: string, g: Ref -> Ref)
    requires p == front + more && Unmatched(front, more) && Substitute(more, g) != more
    ensures Substitute(p, g) != p
  {
    CopiesFront(front, more, g);
    assert (front + more)[|front|..] == more;
    assert (front + Substitute(more, g))[|front|..] == Substitute(more, g);
  }

  /** A second pass changes what a first pass made of a reference to the only output. */
  lemma UnstableNameMoves(token: string, name: string, up: Upstream)
    requires GoodToken(token) && OnlyOutput(up, token, name) && !StableName(name, up)
    ensures var s, g := Print(Ref(token, "x")), Grounder(up); Substitute(Substitute(s, g), g) != Substitute(s, g)
  {
    OnlyOutputIsTaken(token, "x", name, up);
    SubstituteAlone(Ref(token, "x"), Grounder(up));
    var before, after := SplitAtBrace(name);
    if before == "" {
      assert name == ['}'] + after && name[1..] == after;
      BraceFirstMoves(token, after, Grounder(up));
    } else {
      BraceInsideGrows(token, before, after, up);
    }
  }

  lemma SplitAtBrace(name: string) returns (before: string, after: string)
    requires '}' in name
    ensures name == before + ['}'] + after && '}' !in before
  {
    var i := IndexOf(name, '}');
    assert name[..|name|] == name;
    before, after := name[..i], name[i + 1..];
  }

  lemma SubstituteAlone(r: Ref, g: Ref -> Ref)
    requires Good(r)
    ensures Substitute(Print(r), g) == Print(g(r))
  {
    SubstitutePrinted(r, "", g);
    assert Print(r) + "" == Print(r) && Print(g(r)) + "" == Print(g(r));
  }

  lemma GrowsAgain(r: Ref, more: string, g: Ref -> Ref)
    requires Good(r) && more != "" && Print(g(r)) == Print(r) + more
    ensures |Substitute(Print(r) + more, g)| > |Print(r) + more|
  {
    SubstitutePrinted(r, more, g);
    assert |Substitute(more, g)| > 0;
  }

  /** An only output with a brace in its name takes over every path without one. */
  lemma OnlyOutputIsTaken(token: string, path: string, name: string, up: Upstream)
    requires OnlyOutput(up, token, name) && '}' in name && '}' !in path
    ensures GroundRef(Ref(token, path), up) == Ref(token, name)
  {
    var fields := OutputsOf(up, token).value;
    assert fields[1..] == [];
    assert '}' !in Head(path);
    assert KindOf(fields, Head(path)) == KindOf([], Head(path)) == None;
  }

  /** Grounding twice is grounding once, on every value, exactly when the names in reach are stable. */
  lemma GroundingIsIdempotentExactly(up: Upstream)
    ensures (forall v :: GroundRefFields(GroundRefFields(v, up), up) == GroundRefFields(v, up)) <==> AllStable(up)
  {
    var g := Grounder(up);
    if AllStable(up) {
      forall r | Good(r) ensures Settled(g(r), g) { GroundRefSettles(r, up); }
      forall s ensures Substitute(Substitute(s, g), g) == Substitute(s, g) { SettlesEverywhere(s, g); }
      forall v ensures GroundRefFields(GroundRefFields(v, up), up) == GroundRefFields(v, up) { OnJsonAgain(v, g); }
    } else {
      var token, name :| GoodToken(token) && OnlyOutput(up, token, name) && !StableName(name, up);
      UnstableNameMoves(token, name, up);
      var v := JText(Print(Ref(token, "x")));
      assert GroundRefFields(GroundRefFields(v, up), up) != GroundRefFields(v, up);
    }
  }

  ghost predicate NoBraceInReach(up: Upstream) {
    forall token, name :: GoodToken(token) && OnlyOutput(up, token, name) ==> '}' !in name
  }

  /** With names free of closing braces: afterwards every reference is grounded, and a second pass changes
      nothing. */
  lemma GroundingGrounds(v: Json, up: Upstream)
    requires NoBraceInReach(up)
    ensures AllRefs(GroundRefFields(v, up), IsGrounded(up))
    ensures GroundRefFields(GroundRefFields(v, up), up) == GroundRefFields(v, up)
  {
    var g, grounded := Grounder(up), IsGrounded(up);
    forall r | Good(r) ensures g(r).token == r.token && '}' !in g(r).path && grounded(g(r)) {
      GroundedPath(r, up);
      GroundRefGrounds(r, up);
    }
    OnJsonReaches(v, g, grounded);
    assert AllStable(up);
    GroundingIsIdempotentExactly(up);
  }

  /** A drafted value is rewritten and then grounded; the two passes act as one on each reference. */
  lemma RewriteThenGround(v: Json, ids: map<string, Uuid>, show: Uuid -> string, up: Upstream)
    requires Shows(show)
    ensures GroundRefFields(RewriteRefs(v, ids, show), up) == OnJson(v, Then(Rewriter(ids, show), Grounder(up)))
  {
    var g, h := Rewriter(ids, show), Grounder(up);
    assert KeepsGood(g);
    OnJsonTwice(v, g, h);
  }

  lemma NoDollarNoChange(s: string, g: Ref -> Ref)
    requires '$' !in s
    ensures Substitute(s, g) == s
  {
    forall k | 0 <= k < |s| ensures MatchAt(s[k..]).None? {
      assert s[k..][0] == s[k];
    }
    CopiesUnmatched(s, |s|, g);
    assert s[..|s|] + "" == s;
  }

  lemma SubstitutePrinted(r: Ref, after: string, g: Ref -> Ref)
    requires Good(r)
    ensures Substitute(Print(r) + after, g) == Print(g(r)) + Substitute(after, g)
  {
    PrintedMatches(r, after);
  }

  lemma PrintWithBrace(token: string, before: string, after: string)
    ensures Print(Ref(token, before + ['}'] + after)) == Print(Ref(token, before)) + (after + ['}'])
  {
    var name, more := before + ['}'] + after, after + ['}'];
    assert name + ['}'] == (before + ['}']) + more;
    assert ['.'] + (name + ['}']) == (['.'] + (before + ['}'])) + more;
    assert token + (['.'] + (name + ['}'])) == (token + (['.'] + (before + ['}']))) + more;
  }

  /** The condition on names matters: a node whose only output is called `before}after` makes every pass
      lengthen the same reference. */
  lemma BraceInNameGrowsForever(token: string, before: string, after: string, kind: string, up: Upstream)
    requires GoodToken(token) && GoodPath(before) && '$' !in after
    requires OutputsOf(up, token) == Some([Field(before + ['}'] + after, kind)])
    ensures var start := Print(Ref(token, before));
            var once := Substitute(start, Grounder(up));
            && once == start + (after + ['}'])
            && Substitute(once, Grounder(up)) == once + (after + ['}'])
  {
    var g, r, more := Grounder(up), Ref(token, before), after + ['}'];
    assert g(r) == Ref(token, before + ['}'] + after) by {
      var fields := [Field(before + ['}'] + after, kind)];
      assert |Head(before)| < |fields[0].name|;
      assert fields[1..] == [];
      assert KindOf(fields, Head(before)).None?;
    }
    PrintWithBrace(token, before, after);
    SubstitutePrinted(r, "", g);
    assert Print(r) + "" == Print(r);
    SubstitutePrinted(r, more, g);
    NoDollarNoChange(more, g);
  }
}
