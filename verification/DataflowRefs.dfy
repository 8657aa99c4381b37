/** What rewriting and grounding do to each single reference of a value
    (modules/ai_agent/domain/services/dataflow_grounding.py). */
module DataflowRefs {
  import opened Basics
  import opened Text
  import opened Dataflow

  // ---------------------------------------------------------------- values that correspond

  /** The same text outside references, and references at the same places that are so related. */
  ghost predicate TextsCorrespond(s: string, t: string, rel: (Ref, Ref) -> bool) {
    var ps, qs := Pieces(s), Pieces(t);
    && |ps| == |qs|
    && forall i :: 0 <= i < |ps| ==>
         if ps[i].Reference? then qs[i].Reference? && rel(ps[i].ref, qs[i].ref) else qs[i] == ps[i]
  }

  /** The same tree of lists and keys, with corresponding texts at its leaves. */
  ghost predicate Corresponds(v: Json, w: Json, rel: (Ref, Ref) -> bool)
    decreases v
  {
    match v
    case JText(text) => w.JText? && TextsCorrespond(text, w.text, rel)
    case JList(items) =>
      w.JList? && |items| == |w.items| && forall i :: 0 <= i < |items| ==> Corresponds(items[i], w.items[i], rel)
    case JObject(entries) =>
      && w.JObject? && |entries| == |w.entries|
      && forall i :: 0 <= i < |entries| ==>
           entries[i].0 == w.entries[i].0 && Corresponds(entries[i].1, w.entries[i].1, rel)
    case JOther(_) => w == v
  }

  ghost predicate Does(g: Ref -> Ref, rel: (Ref, Ref) -> bool) {
    forall r :: Good(r) ==> rel(r, g(r))
  }

  lemma {:induction false} OnJsonCorresponds(v: Json, g: Ref -> Ref, rel: (Ref, Ref) -> bool)
    requires KeepsGood(g) && Does(g, rel)
    ensures Corresponds(v, OnJson(v, g), rel)
    decreases v
  {
    match v {
      case JText(text) => SubstitutionReadsBackAt(text, g);
      case JList(items) =>
        forall i | 0 <= i < |items| ensures Corresponds(items[i], OnJson(items[i], g), rel) {
          OnJsonCorresponds(items[i], g, rel);
        }
      case JObject(entries) =>
        forall i | 0 <= i < |entries| ensures Corresponds(entries[i].1, OnJson(entries[i].1, g), rel) {
          OnJsonCorresponds(entries[i].1, g, rel);
        }
      case JOther(_) =>
    }
  }

  // ---------------------------------------------------------------- rewriting

  /** A known token becomes the id of its instance; the path stays. */
  function TokenMapped(ids: map<string, Uuid>, show: Uuid -> string): (Ref, Ref) -> bool {
    (r: Ref, s: Ref) => s.path == r.path && s.token == if r.token in ids then show(ids[r.token]) else r.token
  }

  lemma RewritingMapsTokens(v: Json, ids: map<string, Uuid>, show: Uuid -> string)
    requires Shows(show)
    ensures Corresponds(v, RewriteRefs(v, ids, show), TokenMapped(ids, show))
  {
    assert KeepsGood(Rewriter(ids, show));
    OnJsonCorresponds(v, Rewriter(ids, show), TokenMapped(ids, show));
  }

  // ---------------------------------------------------------------- grounding

  /** The path is `head` alone, or goes on behind a dot with `rest`. */
  predicate SplitsAt(path: string, head: string, rest: string) {
    '.' !in head && ((path == head && rest == "") || path == head + ['.'] + rest)
  }

  lemma SplitIsHead(path: string, head: string, rest: string)
    requires SplitsAt(path, head, rest)
    ensures Head(path) == head && Below(path) == rest
  {
    assert path[..|head|] == head;
    if path == head && rest == "" {
      IndexOfIs(path, '.', |path|);
    } else {
      IndexOfIs(path, '.', |head|);
      assert path[|head| + 1..] == rest;
    }
  }

  /** The first of these fields has this name. */
  predicate Names(fields: seq<Field>, k: int, name: string) {
    0 <= k < |fields| && fields[k].name == name && forall j :: 0 <= j < k ==> fields[j].name != name
  }

  lemma {:induction false} KindExactly(fields: seq<Field>, name: string)
    ensures KindOf(fields, name).None? <==> forall k :: 0 <= k < |fields| ==> fields[k].name != name
    ensures forall k :: Names(fields, k, name) ==> KindOf(fields, name) == Some(fields[k].kind)
  {
    if fields != [] {
      KindExactly(fields[1..], name);
      assert forall k :: 1 <= k < |fields| ==> fields[k] == fields[1..][k - 1];
      forall k | Names(fields, k, name) ensures KindOf(fields, name) == Some(fields[k].kind) {
        if k > 0 {
          assert fields[0].name != name;
          assert Names(fields[1..], k - 1, name);
        }
      }
    }
  }

  /** Where a path into a node with these outputs is led. Below an output that is a list or a scalar it is cut to the
      output; with no output for its head it is led to the only output, if there is but one; else it stays. */
  ghost predicate LedTo(fields: seq<Field>, path: string, target: string) {
    forall head, rest :: SplitsAt(path, head, rest) ==>
      && (forall k :: Names(fields, k, head) ==>
            target == if rest != "" && fields[k].kind in ["array", "string", "integer", "number", "boolean"] then head else path)
      && ((forall k :: 0 <= k < |fields| ==> fields[k].name != head) ==>
            target == if |fields| == 1 then fields[0].name else path)
  }

  /** The token stays, and so does the path unless the token is the id of a node with known outputs. */
  ghost predicate PathLed(up: Upstream, r: Ref, s: Ref) {
    && s.token == r.token
    && match OutputsOf(up, r.token)
       case None => s.path == r.path
       case Some(fields) => LedTo(fields, r.path, s.path)
  }

  lemma GroundRefLeads(r: Ref, up: Upstream)
    ensures PathLed(up, r, GroundRef(r, up))
  {
    if OutputsOf(up, r.token).Some? {
      var fields := OutputsOf(up, r.token).value;
      forall head, rest | SplitsAt(r.path, head, rest)
        ensures (forall k :: Names(fields, k, head) ==>
                   GroundRef(r, up).path
                   == if rest != "" && fields[k].kind in ["array", "string", "integer", "number", "boolean"] then head else r.path)
        ensures (forall k :: 0 <= k < |fields| ==> fields[k].name != head) ==>
                  GroundRef(r, up).path == if |fields| == 1 then fields[0].name else r.path
      {
        SplitIsHead(r.path, head, rest);
        KindExactly(fields, head);
      }
    }
  }

  ghost function IsPathLed(up: Upstream): (Ref, Ref) -> bool {
    (r: Ref, s: Ref) => PathLed(up, r, s)
  }

  /** On well-named outputs grounding changes nothing of a value but the paths of its references, each as said. */
  lemma GroundingLeadsPaths(v: Json, up: Upstream)
    requires AllWellNamed(up)
    ensures Corresponds(v, GroundRefFields(v, up), IsPathLed(up))
  {
    GroundingKeepsGood(up);
    forall r | Good(r) ensures IsPathLed(up)(r, Grounder(up)(r)) { GroundRefLeads(r, up); }
    OnJsonCorresponds(v, Grounder(up), IsPathLed(up));
  }

  // ---------------------------------------------------------------- both

  /** First the token, then the path. */
  ghost predicate Resolved(ids: map<string, Uuid>, show: Uuid -> string, up: Upstream, r: Ref, s: Ref) {
    PathLed(up, Ref(if r.token in ids then show(ids[r.token]) else r.token, r.path), s)
  }

  ghost function IsResolved(ids: map<string, Uuid>, show: Uuid -> string, up: Upstream): (Ref, Ref) -> bool {
    (r: Ref, s: Ref) => Resolved(ids, show, up, r, s)
  }

  lemma BothResolve(v: Json, ids: map<string, Uuid>, show: Uuid -> string, up: Upstream)
    requires Shows(show) && AllWellNamed(up)
    ensures Corresponds(v, GroundRefFields(RewriteRefs(v, ids, show), up), IsResolved(ids, show, up))
  {
    var g, h, rel := Rewriter(ids, show), Grounder(up), IsResolved(ids, show, up);
    RewriteThenGround(v, ids, show, up);
    GroundingKeepsGood(up);
    forall r | Good(r) ensures Good(Then(g, h)(r)) && rel(r, Then(g, h)(r)) {
      assert Good(g(r));
      GroundRefLeads(g(r), up);
    }
    OnJsonCorresponds(v, Then(g, h), rel);
  }
}
