/** The model ordering of the TypeScript generator
    (packages/common_schemas/scripts/generate_ts.py, `_topo_sort_models` and
    `_extract_model_deps`): a depth-first visitor that marks classes by *name*, mutates a shared
    `visited` set and `result` list, and must cope with cyclic references. */
module ModelSort {
  import opened Basics

  /** A Python class object; two classes may carry the same `__name__`. */
  type ClassId = nat

  datatype Annotation =
    | Model(id: ClassId)              // a BaseModel subclass
    | Generic(args: seq<Annotation>)  // list[...], dict[...], Union[...]: `get_args` is not empty
    | Plain                           // anything without type arguments

  datatype Schema = Schema(name: ClassId -> string, fields: ClassId -> seq<Annotation>)

  // ---------------------------------------------------------------- dependencies of an annotation

  ghost predicate Mentions(a: Annotation, c: ClassId) {
    match a
    case Model(id) => id == c
    case Generic(args) => exists k :: 0 <= k < |args| && Mentions(args[k], c)
    case Plain => false
  }

  /** The references of one annotation in reading order, restricted to known model names. */
  method ExtractModelDeps(schema: Schema, a: Annotation, known: set<string>) returns (deps: seq<ClassId>)
    ensures forall c :: c in deps <==> Mentions(a, c) && schema.name(c) in known
    decreases a
  {
    deps := [];
    match a {
      case Model(id) =>
        if schema.name(id) in known {
          deps := [id];
        }
      case Generic(args) =>
        for k := 0 to |args|
          invariant forall c :: c in deps <==>
                      schema.name(c) in known && exists j :: 0 <= j < k && Mentions(args[j], c)
        {
          var more := ExtractModelDeps(schema, args[k], known);
          deps := deps + more;
        }
      case Plain =>
    }
  }

  /** `u` has a field whose annotation mentions `v`, and `v`'s name is a known model name. */
  ghost predicate DependsOn(schema: Schema, known: set<string>, u: ClassId, v: ClassId) {
    && schema.name(v) in known
    && exists f :: 0 <= f < |schema.fields(u)| && Mentions(schema.fields(u)[f], v)
  }

  ghost predicate IsPath(schema: Schema, known: set<string>, p: seq<ClassId>) {
    && |p| > 0
    && forall i :: 0 <= i < |p| - 1 ==> DependsOn(schema, known, p[i], p[i + 1])
  }

  ghost predicate Reaches(schema: Schema, known: set<string>, u: ClassId, v: ClassId) {
    exists p :: IsPath(schema, known, p) && p[0] == u && p[|p| - 1] == v
  }

  lemma ReachesSelf(schema: Schema, known: set<string>, u: ClassId)
    ensures Reaches(schema, known, u, u)
  {
    assert IsPath(schema, known, [u]);
  }

  lemma ReachesStep(schema: Schema, known: set<string>, u: ClassId, v: ClassId, w: ClassId)
    requires Reaches(schema, known, u, v) && DependsOn(schema, known, v, w)
    ensures Reaches(schema, known, u, w)
  {
    var p :| IsPath(schema, known, p) && p[0] == u && p[|p| - 1] == v;
    var q := p + [w];
    assert q[|q| - 2] == v;
    assert IsPath(schema, known, q) && q[0] == u && q[|q| - 1] == w;
  }

  // ---------------------------------------------------------------- what an ordering promises

  ghost predicate NameOccurs(schema: Schema, s: seq<ClassId>, n: string) {
    exists j :: 0 <= j < |s| && schema.name(s[j]) == n
  }

  /** Some class called like `v` depends, through any number of steps, on `u`. */
  ghost predicate NamesakeReaches(schema: Schema, known: set<string>, v: ClassId, u: ClassId) {
    exists w :: schema.name(w) == schema.name(v) && Reaches(schema, known, w, u)
  }

  /** Each dependency of `s[i]` was emitted earlier, or sits on a cycle back to `s[i]`. */
  ghost predicate Ordered(schema: Schema, known: set<string>, s: seq<ClassId>) {
    forall i, v :: 0 <= i < |s| && DependsOn(schema, known, s[i], v) ==>
      NameOccurs(schema, s[..i], schema.name(v)) || NamesakeReaches(schema, known, v, s[i])
  }

  ghost predicate DistinctNames(schema: Schema, s: seq<ClassId>) {
    forall i, j :: 0 <= i < j < |s| ==> schema.name(s[i]) != schema.name(s[j])
  }

  ghost function NamesOf(schema: Schema, s: seq<ClassId>): set<string> {
    set i | 0 <= i < |s| :: schema.name(s[i])
  }

  ghost predicate AllMarked(schema: Schema, models: seq<ClassId>, k: nat, visited: set<string>)
    requires k <= |models|
  {
    forall j :: 0 <= j < k ==> schema.name(models[j]) in visited
  }

  class Sorter {
    const schema: Schema
    const known: set<string>
    var visited: set<string>
    var result: seq<ClassId>

    constructor (schema: Schema, known: set<string>)
      ensures this.schema == schema && this.known == known
      ensures visited == {} && result == []
    {
      this.schema := schema;
      this.known := known;
      visited, result := {}, [];
    }

    /** `open` are the classes whose visit has begun and not ended (the call stack). */
    ghost predicate Valid(open: set<ClassId>)
      reads this
    {
      && visited <= known
      && DistinctNames(schema, result)
      && Ordered(schema, known, result)
      && NamesOf(schema, result) <= visited
      && (forall n :: n in visited ==>
            NameOccurs(schema, result, n) || exists g :: g in open && schema.name(g) == n)
      && (forall g :: g in open ==> schema.name(g) in visited && !NameOccurs(schema, result, schema.name(g)))
    }

    method Visit(model: ClassId, ghost open: set<ClassId>)
      requires Valid(open)
      requires schema.name(model) in known
      requires forall g :: g in open ==> Reaches(schema, known, g, model)
      modifies this
      ensures Valid(open)
      ensures old(visited) <= visited && schema.name(model) in visited
      ensures old(result) <= result
      ensures forall i :: |old(result)| <= i < |result| ==> Reaches(schema, known, model, result[i])
      decreases known - visited, 0
    {
      var name := schema.name(model);
      if name in visited {
        return;
      }
      visited := visited + {name};
      ghost var inner := open + {model};
      ReachesSelf(schema, known, model);
      MarkOpen(model, open, old(visited));
      var fields := schema.fields(model);
      for f := 0 to |fields|
        invariant Valid(inner)
        invariant old(visited) + {name} <= visited
        invariant old(result) <= result
        invariant forall i :: |old(result)| <= i < |result| ==> Reaches(schema, known, model, result[i])
        invariant forall c, j :: 0 <= j < f && Mentions(fields[j], c) && schema.name(c) in known ==>
                    schema.name(c) in visited
      {
        VisitAnnotation(model, fields[f], inner);
      }
      Emit(model, open);
    }

    /** Outside any visit, what is marked has been placed. */
    lemma MarkedIsPlaced(models: seq<ClassId>, k: nat)
      requires Valid({}) && k <= |models| && AllMarked(schema, models, k, visited)
      ensures forall j :: 0 <= j < k ==> NameOccurs(schema, result, schema.name(models[j]))
    {}

    /** Marking a class visited, with an empty contribution so far, keeps the invariant. */
    lemma MarkOpen(model: ClassId, open: set<ClassId>, before: set<string>)
      requires visited == before + {schema.name(model)} && visited <= known
      requires schema.name(model) !in before
      requires DistinctNames(schema, result) && Ordered(schema, known, result)
      requires NamesOf(schema, result) <= before
      requires forall n :: n in before ==>
                 NameOccurs(schema, result, n) || exists g :: g in open && schema.name(g) == n
      requires forall g :: g in open ==> schema.name(g) in before && !NameOccurs(schema, result, schema.name(g))
      ensures Valid(open + {model})
    {
      forall n | n in visited
        ensures NameOccurs(schema, result, n) || exists g :: g in open + {model} && schema.name(g) == n
      {
        if n == schema.name(model) {
          assert model in open + {model};
        } else if !NameOccurs(schema, result, n) {
          var g :| g in open && schema.name(g) == n;
          assert g in open + {model};
        }
      }
      assert NameOccurs(schema, result, schema.name(model)) ==> schema.name(model) in NamesOf(schema, result);
    }

    /** The inner loop of the visitor: all dependencies found in one field's annotation. */
    method VisitAnnotation(model: ClassId, annotation: Annotation, ghost open: set<ClassId>)
      requires Valid(open) && model in open
      requires forall c :: Mentions(annotation, c) && schema.name(c) in known ==> DependsOn(schema, known, model, c)
      requires forall g :: g in open ==> Reaches(schema, known, g, model)
      modifies this
      ensures Valid(open)
      ensures old(visited) <= visited && old(result) <= result
      ensures forall i :: |old(result)| <= i < |result| ==> Reaches(schema, known, model, result[i])
      ensures forall c :: Mentions(annotation, c) && schema.name(c) in known ==> schema.name(c) in visited
      decreases known - visited, 2
    {
      var deps := ExtractModelDeps(schema, annotation, known);
      for d := 0 to |deps|
        invariant Valid(open)
        invariant old(visited) <= visited && old(result) <= result
        invariant forall i :: |old(result)| <= i < |result| ==> Reaches(schema, known, model, result[i])
        invariant forall k :: 0 <= k < d ==> schema.name(deps[k]) in visited
      {
        VisitDependency(model, deps[d], open);
      }
    }

    /** The recursive call of the visitor, on a dependency of the class being visited. */
    method VisitDependency(model: ClassId, dep: ClassId, ghost open: set<ClassId>)
      requires Valid(open) && model in open
      requires DependsOn(schema, known, model, dep)
      requires forall g :: g in open ==> Reaches(schema, known, g, model)
      modifies this
      ensures Valid(open)
      ensures old(visited) <= visited && schema.name(dep) in visited
      ensures old(result) <= result
      ensures forall i :: |old(result)| <= i < |result| ==> Reaches(schema, known, model, result[i])
      decreases known - visited, 1
    {
      forall g | g in open ensures Reaches(schema, known, g, dep) {
        ReachesStep(schema, known, g, model, dep);
      }
      Visit(dep, open);
      forall i | |old(result)| <= i < |result| ensures Reaches(schema, known, model, result[i]) {
        ReachesThrough(schema, known, model, dep, result[i]);
      }
    }

    /** All dependencies have been visited: append the class itself. */
    method Emit(model: ClassId, ghost open: set<ClassId>)
      requires Valid(open + {model}) && model !in open
      requires forall g :: g in open + {model} ==> Reaches(schema, known, g, model)
      requires forall v :: DependsOn(schema, known, model, v) ==> schema.name(v) in visited
      requires forall g :: g in open ==> schema.name(g) != schema.name(model)
      modifies this`result
      ensures Valid(open) && result == old(result) + [model]
    {
      result := result + [model];
      ghost var before := old(result);
      assert result[|before|] == model && result[..|before|] == before;
      forall i, v | 0 <= i < |result| && DependsOn(schema, known, result[i], v)
        ensures NameOccurs(schema, result[..i], schema.name(v)) || NamesakeReaches(schema, known, v, result[i])
      {
        if i < |before| {
          assert result[..i] == before[..i];
        }
      }
      assert forall n :: NameOccurs(schema, before, n) ==> NameOccurs(schema, result, n) by {
        forall n | NameOccurs(schema, before, n) ensures NameOccurs(schema, result, n) {
          var j :| 0 <= j < |before| && schema.name(before[j]) == n;
          assert result[j] == before[j];
        }
      }
      assert NameOccurs(schema, result, schema.name(model));
    }
  }

  lemma ReachesThrough(schema: Schema, known: set<string>, u: ClassId, v: ClassId, w: ClassId)
    requires DependsOn(schema, known, u, v) && Reaches(schema, known, v, w)
    ensures Reaches(schema, known, u, w)
  {
    var p :| IsPath(schema, known, p) && p[0] == v && p[|p| - 1] == w;
    var q := [u] + p;
    forall i | 0 <= i < |q| - 1 ensures DependsOn(schema, known, q[i], q[i + 1]) {
      if i > 0 { assert q[i] == p[i - 1] && q[i + 1] == p[i]; }
    }
    assert IsPath(schema, known, q) && q[0] == u && q[|q| - 1] == w;
  }

  // ---------------------------------------------------------------- the whole sort

  /** One of the first `k` models leads to it. */
  ghost predicate NeededBy(schema: Schema, known: set<string>, models: seq<ClassId>, k: nat, c: ClassId)
    requires k <= |models|
  {
    exists j :: 0 <= j < k && Reaches(schema, known, models[j], c)
  }

  /** Within `p` places the first `k` models have their names, and nothing stands there that none of them needs. */
  ghost predicate Covers(schema: Schema, known: set<string>, models: seq<ClassId>, k: nat, result: seq<ClassId>, p: nat)
    requires k <= |models| && p <= |result|
  {
    && (forall j :: 0 <= j < k ==> NameOccurs(schema, result[..p], schema.name(models[j])))
    && forall i :: 0 <= i < p ==> NeededBy(schema, known, models, k, result[i])
  }

  /** The models that come first in the list, with what they need, come first in the result. */
  ghost predicate CoversPrefix(schema: Schema, known: set<string>, models: seq<ClassId>, k: nat, result: seq<ClassId>)
    requires k <= |models|
  {
    exists p :: 0 <= p <= |result| && Covers(schema, known, models, k, result, p)
  }

  /** Every class of the result is needed by some model, and by one of the first where it stands among the first. */
  ghost predicate InListOrder(schema: Schema, known: set<string>, models: seq<ClassId>, k: nat, result: seq<ClassId>)
    requires k <= |models|
  {
    && (forall i :: 0 <= i < |result| ==> NeededBy(schema, known, models, k, result[i]))
    && forall j :: 0 <= j <= k ==> CoversPrefix(schema, known, models, j, result)
  }

  /** What the sort delivers on any input: duplicate names, foreign classes and cycles included. */
  ghost predicate SortsModels(schema: Schema, models: seq<ClassId>, result: seq<ClassId>) {
    var known := NamesOf(schema, models);
    && DistinctNames(schema, result)
    && NamesOf(schema, result) == known
    && Ordered(schema, known, result)
    && InListOrder(schema, known, models, |models|, result)
  }

  lemma CoveredStays(schema: Schema, known: set<string>, models: seq<ClassId>, k: nat, before: seq<ClassId>,
                     result: seq<ClassId>)
    requires k <= |models| && before <= result && CoversPrefix(schema, known, models, k, before)
    ensures CoversPrefix(schema, known, models, k, result)
  {
    var p :| 0 <= p <= |before| && Covers(schema, known, models, k, before, p);
    assert result[..p] == before[..p];
    assert Covers(schema, known, models, k, result, p);
  }

  lemma NowCovered(schema: Schema, known: set<string>, models: seq<ClassId>, k: nat, result: seq<ClassId>)
    requires k <= |models|
    requires forall j :: 0 <= j < k ==> NameOccurs(schema, result, schema.name(models[j]))
    requires forall i :: 0 <= i < |result| ==> NeededBy(schema, known, models, k, result[i])
    ensures CoversPrefix(schema, known, models, k, result)
  {
    assert result[..|result|] == result;
    assert Covers(schema, known, models, k, result, |result|);
  }

  /** One more model has been visited. */
  lemma CoversOneMore(schema: Schema, known: set<string>, models: seq<ClassId>, k: nat, before: seq<ClassId>,
                      result: seq<ClassId>)
    requires k < |models| && before <= result
    requires InListOrder(schema, known, models, k, before)
    requires forall j :: 0 <= j < k + 1 ==> NameOccurs(schema, result, schema.name(models[j]))
    requires forall i :: |before| <= i < |result| ==> Reaches(schema, known, models[k], result[i])
    ensures InListOrder(schema, known, models, k + 1, result)
  {
    assert forall i :: 0 <= i < |before| ==> result[i] == before[i];
    forall j | 0 <= j <= k ensures CoversPrefix(schema, known, models, j, result) {
      CoveredStays(schema, known, models, j, before, result);
    }
    NowCovered(schema, known, models, k + 1, result);
  }

  /** All models have been visited. */
  lemma AllCovered(schema: Schema, models: seq<ClassId>, result: seq<ClassId>)
    requires var known := NamesOf(schema, models);
             && DistinctNames(schema, result) && Ordered(schema, known, result) && NamesOf(schema, result) <= known
             && InListOrder(schema, known, models, |models|, result)
    ensures SortsModels(schema, models, result)
  {
    var known := NamesOf(schema, models);
    assert CoversPrefix(schema, known, models, |models|, result);
    var p :| 0 <= p <= |result| && Covers(schema, known, models, |models|, result, p);
    forall n | n in known ensures n in NamesOf(schema, result) {
      var k :| 0 <= k < |models| && schema.name(models[k]) == n;
      assert NameOccurs(schema, result[..p], n);
    }
  }

  /** The first `k` models have been visited, from outside any visit. */
  ghost predicate Listed(sorter: Sorter, models: seq<ClassId>, k: nat)
    requires k <= |models|
    reads sorter
  {
    && sorter.Valid({})
    && AllMarked(sorter.schema, models, k, sorter.visited)
    && InListOrder(sorter.schema, sorter.known, models, k, sorter.result)
  }

  lemma MarkedOneMore(schema: Schema, models: seq<ClassId>, k: nat, before: set<string>, visited: set<string>)
    requires k < |models| && AllMarked(schema, models, k, before)
    requires before <= visited && schema.name(models[k]) in visited
    ensures AllMarked(schema, models, k + 1, visited)
  {}

  /** One round of the outer loop. */
  method VisitListed(sorter: Sorter, models: seq<ClassId>, k: nat)
    requires k < |models| && Listed(sorter, models, k) && sorter.schema.name(models[k]) in sorter.known
    modifies sorter
    ensures Listed(sorter, models, k + 1)
  {
    ghost var before, marked := sorter.result, sorter.visited;
    sorter.Visit(models[k], {});
    MarkedOneMore(sorter.schema, models, k, marked, sorter.visited);
    sorter.MarkedIsPlaced(models, k + 1);
    CoversOneMore(sorter.schema, sorter.known, models, k, before, sorter.result);
  }

  method TopoSortModels(schema: Schema, models: seq<ClassId>) returns (result: seq<ClassId>)
    ensures SortsModels(schema, models, result)
  {
    var known := set i | 0 <= i < |models| :: schema.name(models[i]);
    assert known == NamesOf(schema, models);
    var sorter := new Sorter(schema, known);
    NowCovered(schema, known, models, 0, []);
    for k := 0 to |models|
      invariant sorter.schema == schema && sorter.known == known && Listed(sorter, models, k)
    {
      VisitListed(sorter, models, k);
    }
    result := sorter.result;
    AllCovered(schema, models, result);
  }

  /** The order of the list is kept as far as dependencies allow: a model comes before another one listed later, unless
      it or a model listed before it leads to a class of that name. */
  lemma ListOrderIsKept(schema: Schema, models: seq<ClassId>, result: seq<ClassId>, i: nat, j: nat)
    returns (a: nat, b: nat)
    requires SortsModels(schema, models, result) && i < j < |models|
    requires forall k, c :: 0 <= k <= i && Reaches(schema, NamesOf(schema, models), models[k], c) ==>
               schema.name(c) != schema.name(models[j])
    ensures a < b < |result| && schema.name(result[a]) == schema.name(models[i])
    ensures schema.name(result[b]) == schema.name(models[j])
  {
    var known := NamesOf(schema, models);
    assert CoversPrefix(schema, known, models, i + 1, result);
    var p :| 0 <= p <= |result| && Covers(schema, known, models, i + 1, result, p);
    a :| 0 <= a < |result[..p]| && schema.name(result[..p][a]) == schema.name(models[i]);
    assert forall q :: 0 <= q < p ==> schema.name(result[q]) != schema.name(models[j]);
    assert schema.name(models[j]) in known;
    b :| 0 <= b < |result| && schema.name(result[b]) == schema.name(models[j]);
  }

  /** Only listed models are reached. */
  ghost predicate StaysWithin(schema: Schema, models: seq<ClassId>) {
    forall m, c :: m in models && Reaches(schema, NamesOf(schema, models), m, c) ==> c in models
  }

  lemma {:induction false} DistinctCount(s: seq<ClassId>, x: ClassId)
    requires Distinct(s)
    ensures multiset(s)[x] == if x in s then 1 else 0
    decreases |s|
  {
    if s != [] {
      var n := |s| - 1;
      DistinctCount(s[..n], x);
      assert s == s[..n] + [s[n]];
      assert s[n] !in s[..n];
    }
  }

  lemma SameElementsSameMultiset(a: seq<ClassId>, b: seq<ClassId>)
    requires Distinct(a) && Distinct(b)
    requires forall x :: x in a <==> x in b
    ensures multiset(a) == multiset(b)
  {
    forall x ensures multiset(a)[x] == multiset(b)[x] {
      DistinctCount(a, x);
      DistinctCount(b, x);
    }
  }

  lemma DistinctNamesGivePermutation(schema: Schema, models: seq<ClassId>, result: seq<ClassId>)
    requires SortsModels(schema, models, result)
    requires DistinctNames(schema, models) && forall c :: c in result ==> c in models
    ensures multiset(result) == multiset(models)
  {
    forall m | m in models ensures m in result {
      assert schema.name(m) in NamesOf(schema, models);
      var i :| 0 <= i < |result| && schema.name(result[i]) == schema.name(m);
      assert result[i] in models;
    }
    SameElementsSameMultiset(result, models);
  }

  lemma PermutationHasDistinctNames(schema: Schema, models: seq<ClassId>, result: seq<ClassId>)
    requires DistinctNames(schema, result)
    requires multiset(result) == multiset(models)
    ensures DistinctNames(schema, models)
  {
    forall i, j | 0 <= i < j < |models| ensures schema.name(models[i]) != schema.name(models[j]) {
      if models[i] == models[j] {
        RepeatedOccursTwice(models, i, j);
        DistinctOccursOnce(result, models[i]);
      } else {
        assert models[i] in multiset(result) && models[j] in multiset(result);
      }
    }
  }

  /** The output is a permutation of the input exactly when no two listed models share a name and no other class
      has taken the place of one; which none can when only listed models are reached. */
  lemma PermutationIffNamesDistinct(schema: Schema, models: seq<ClassId>, result: seq<ClassId>)
    requires SortsModels(schema, models, result)
    ensures multiset(result) == multiset(models)
       <==> DistinctNames(schema, models) && forall c :: c in result ==> c in models
    ensures StaysWithin(schema, models) ==> (multiset(result) == multiset(models) <==> DistinctNames(schema, models))
  {
    if StaysWithin(schema, models) {
      forall c | c in result ensures c in models {
        var i :| 0 <= i < |result| && result[i] == c;
        assert NeededBy(schema, NamesOf(schema, models), models, |models|, result[i]);
      }
    }
    if DistinctNames(schema, models) && forall c :: c in result ==> c in models {
      DistinctNamesGivePermutation(schema, models, result);
    }
    if multiset(result) == multiset(models) {
      PermutationHasDistinctNames(schema, models, result);
      forall c | c in result ensures c in models { assert c in multiset(result); }
    }
  }

  lemma RepeatedOccursTwice(a: seq<ClassId>, i: nat, j: nat)
    requires i < j < |a| && a[i] == a[j]
    ensures multiset(a)[a[i]] >= 2
  {
    assert a == a[..j] + a[j..];
    assert a[i] == a[..j][i] && a[j] == a[j..][0];
    assert a[i] in multiset(a[..j]) && a[i] in multiset(a[j..]);
  }

  lemma {:induction false} DistinctOccursOnce(s: seq<ClassId>, x: ClassId)
    requires Distinct(s)
    ensures multiset(s)[x] <= 1
    decreases |s|
  {
    if |s| > 0 {
      assert s == [s[0]] + s[1..];
      DistinctOccursOnce(s[1..], x);
      if x == s[0] {
        assert x !in s[1..];
        assert multiset(s[1..])[x] == 0;
      }
    }
  }

  /** Names tell the listed models from all other classes. */
  ghost predicate NamesIdentify(schema: Schema, models: seq<ClassId>) {
    forall c, m :: m in models && schema.name(c) == schema.name(m) ==> c == m
  }

  lemma IdentifiedByName(schema: Schema, models: seq<ClassId>, result: seq<ClassId>, u: ClassId, v: ClassId)
    requires SortsModels(schema, models, result) && NamesIdentify(schema, models)
    requires DependsOn(schema, NamesOf(schema, models), u, v)
    ensures v in result
    ensures NamesakeReaches(schema, NamesOf(schema, models), v, u) ==> Reaches(schema, NamesOf(schema, models), v, u)
  {
    assert schema.name(v) in NamesOf(schema, models);
    var k :| 0 <= k < |models| && schema.name(models[k]) == schema.name(v);
    assert models[k] == v;
    var i :| 0 <= i < |result| && schema.name(result[i]) == schema.name(v);
    assert result[i] == v;
  }

  /** `result[i]` depends on `v`, and no class called like `v` leads back to it: `v`, or the class that is listed under
      its name, comes before. When names identify classes, that is: if `v` does not lead back, `v` comes before. */
  lemma DependencyComesFirst(schema: Schema, models: seq<ClassId>, result: seq<ClassId>, i: nat, v: ClassId)
    requires SortsModels(schema, models, result)
    requires i < |result| && DependsOn(schema, NamesOf(schema, models), result[i], v)
    ensures !NamesakeReaches(schema, NamesOf(schema, models), v, result[i]) ==>
              NameOccurs(schema, result[..i], schema.name(v)) && (v in result ==> v in result[..i])
    ensures NamesIdentify(schema, models) && !Reaches(schema, NamesOf(schema, models), v, result[i]) ==> v in result[..i]
  {
    var known := NamesOf(schema, models);
    if !NamesakeReaches(schema, known, v, result[i]) && v in result {
      var j :| 0 <= j < |result[..i]| && schema.name(result[..i][j]) == schema.name(v);
      var k :| 0 <= k < |result| && result[k] == v;
      assert result[..i][j] == result[j];
      assert j == k;
    }
    if NamesIdentify(schema, models) { IdentifiedByName(schema, models, result, result[i], v); }
  }

  ghost predicate LeadsBack(schema: Schema, models: seq<ClassId>, u: ClassId, v: ClassId) {
    if NamesIdentify(schema, models) then Reaches(schema, NamesOf(schema, models), v, u)
    else NamesakeReaches(schema, NamesOf(schema, models), v, u)
  }

  /** Before place `i` stands `v` itself, or the class that is listed under its name. */
  ghost predicate Precedes(schema: Schema, models: seq<ClassId>, result: seq<ClassId>, v: ClassId, i: nat)
    requires i < |result|
  {
    && NameOccurs(schema, result[..i], schema.name(v)) && (v in result ==> v in result[..i])
    && (NamesIdentify(schema, models) ==> v in result[..i])
  }

  lemma PlacedBefore(schema: Schema, models: seq<ClassId>, result: seq<ClassId>, v: ClassId, i: nat)
    requires SortsModels(schema, models, result)
    requires i < |result| && DependsOn(schema, NamesOf(schema, models), result[i], v)
    requires !LeadsBack(schema, models, result[i], v)
    ensures Precedes(schema, models, result, v, i)
  {
    DependencyComesFirst(schema, models, result, i, v);
    if NamesIdentify(schema, models) { IdentifiedByName(schema, models, result, result[i], v); }
  }

  /** When no dependency leads back, not even by way of a class of the same name, the output is a topological order. */
  lemma AcyclicGivesTopologicalOrder(schema: Schema, models: seq<ClassId>, result: seq<ClassId>)
    requires SortsModels(schema, models, result)
    requires forall u, v :: DependsOn(schema, NamesOf(schema, models), u, v) ==> !LeadsBack(schema, models, u, v)
    ensures forall i, v :: 0 <= i < |result| && DependsOn(schema, NamesOf(schema, models), result[i], v) ==>
              Precedes(schema, models, result, v, i)
  {
    forall i, v | 0 <= i < |result| && DependsOn(schema, NamesOf(schema, models), result[i], v)
      ensures Precedes(schema, models, result, v, i)
    {
      PlacedBefore(schema, models, result, v, i);
    }
  }
}
