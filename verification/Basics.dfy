/** Shared vocabulary: an optional value and small facts about sequences. */
module Basics {
  datatype Option<+T> = None | Some(value: T)

  ghost predicate Distinct<T>(s: seq<T>) {
    forall i, j :: 0 <= i < j < |s| ==> s[i] != s[j]
  }

  lemma DistinctAppend<T>(s: seq<T>, x: T)
    requires Distinct(s) && x !in s
    ensures Distinct(s + [x])
  {}

  /** A list comprehension with a condition. */
  function Filter<T>(p: T -> bool, s: seq<T>): seq<T> {
    if s == [] then []
    else Filter(p, s[..|s| - 1]) + if p(s[|s| - 1]) then [s[|s| - 1]] else []
  }

  lemma {:induction false} FilterMember<T>(p: T -> bool, s: seq<T>, x: T)
    ensures x in Filter(p, s) <==> x in s && p(x)
  {
    if s != [] {
      var n := |s| - 1;
      FilterMember(p, s[..n], x);
      assert s == s[..n] + [s[n]];
    }
  }

  lemma {:induction false} FilterAll<T>(p: T -> bool, s: seq<T>)
    requires forall x :: x in s ==> p(x)
    ensures Filter(p, s) == s
  {
    if s != [] {
      var n := |s| - 1;
      FilterAll(p, s[..n]);
      assert s[n] in s;
      assert s == s[..n] + [s[n]];
    }
  }

  lemma {:induction false} FilterDistinct<T>(p: T -> bool, s: seq<T>)
    requires Distinct(s)
    ensures Distinct(Filter(p, s))
  {
    if s != [] {
      var n := |s| - 1;
      FilterDistinct(p, s[..n]);
      FilterMember(p, s[..n], s[n]);
      assert s[n] !in s[..n];
    }
  }

  lemma {:induction false} FilterAppend<T>(p: T -> bool, a: seq<T>, b: seq<T>)
    ensures Filter(p, a + b) == Filter(p, a) + Filter(p, b)
    decreases |b|
  {
    if b == [] {
      assert a + b == a;
    } else {
      var n := |b| - 1;
      assert (a + b)[..|a + b| - 1] == a + b[..n];
      FilterAppend(p, a, b[..n]);
    }
  }

  lemma {:induction false} FilterAgree<T>(p: T -> bool, q: T -> bool, s: seq<T>)
    requires forall x :: x in s ==> p(x) == q(x)
    ensures Filter(p, s) == Filter(q, s)
  {
    if s != [] {
      assert s[|s| - 1] in s;
      FilterAgree(p, q, s[..|s| - 1]);
    }
  }

  lemma FilterKeeps<T(!new)>(p: T -> bool, s: seq<T>)
    ensures forall x :: x in Filter(p, s) <==> x in s && p(x)
  {
    forall x ensures x in Filter(p, s) <==> x in s && p(x) { FilterMember(p, s, x); }
  }

  // ---------------------------------------------------------------- runs of a machine

  /** Where these moves lead. */
  function Iterate<S, M>(next: (S, M) -> S, s: S, moves: seq<M>): S
    decreases |moves|
  {
    if moves == [] then s else next(Iterate(next, s, moves[..|moves| - 1]), moves[|moves| - 1])
  }

  lemma {:induction false} IterateBoth<S, M>(next: (S, M) -> S, s: S, first: seq<M>, rest: seq<M>)
    ensures Iterate(next, s, first + rest) == Iterate(next, Iterate(next, s, first), rest)
    decreases |rest|
  {
    if rest == [] {
      assert first + rest == first;
    } else {
      assert (first + rest)[..|first + rest| - 1] == first + rest[..|rest| - 1];
      IterateBoth(next, s, first, rest[..|rest| - 1]);
    }
  }

  ghost predicate Keeps<S(!new), M(!new)>(next: (S, M) -> S, p: S -> bool) {
    forall s: S, m: M :: p(s) ==> p(next(s, m))
  }

  lemma {:induction false} KeptForever<S(!new), M(!new)>(next: (S, M) -> S, p: S -> bool, s: S, moves: seq<M>)
    requires Keeps(next, p) && p(s)
    ensures p(Iterate(next, s, moves))
    decreases |moves|
  {
    if moves != [] { KeptForever(next, p, s, moves[..|moves| - 1]); }
  }
}
