/** Showing a workflow to the model for editing, and building workflows from its answers
    (modules/ai_agent/domain/services/drafter_service.py: `_serialize_for_edit`, `_build_from_edit`,
    `_build`). */
module WorkflowEdit {
  import opened Basics
  import opened Text
  import opened Dataflow
  import opened Graph

  // ---------------------------------------------------------------- data

  datatype Candidate = Candidate(nodeId: Uuid, nodeType: string, outputs: seq<Field>)

  /** The credentials and the skill bound to a node. */
  datatype Bindings = Bindings(credential: Option<Uuid>, credentials: map<string, Uuid>, skill: Option<Uuid>)
  datatype Node = Node(instance: Uuid, nodeId: Uuid, params: Json, bound: Bindings)
  datatype Workflow = Workflow(name: string, nodes: seq<Node>, edges: seq<Link<Uuid>>)

  datatype EditNode = EditNode(ref: string, nodeType: string, params: Json)
  datatype EditDoc = EditDoc(name: string, nodes: seq<EditNode>, edges: seq<Link<string>>)

  datatype DraftNode = DraftNode(nodeType: string, params: Json)
  datatype DraftDoc = DraftDoc(name: string, nodes: seq<DraftNode>, edges: seq<Link<string>>)

  /** The candidates, the UUIDs that `uuid4` will return, and `str` and `UUID` on them. */
  datatype Env = Env(
    candidates: seq<Candidate>, supply: nat -> Uuid, show: Uuid -> string, parse: string -> Option<Uuid>)

  datatype BuildError = UnknownNodeType(nodeType: string) | DuplicateRef(ref: string) | DuplicateNodeType(nodeType: string)
  datatype Built = Built(workflow: Workflow) | Failed(error: BuildError)

  const UNBOUND: Bindings := Bindings(None, map[], None)

  // ---------------------------------------------------------------- dictionaries

  /** A dictionary comprehension: the last item wins. */
  function Index<C, K, V>(items: seq<C>, key: C -> K, value: C -> V): map<K, V>
    decreases |items|
  {
    if items == [] then map[]
    else
      var last := items[|items| - 1];
      Index(items[..|items| - 1], key, value)[key(last) := value(last)]
  }

  function TypeById(candidates: seq<Candidate>): map<Uuid, string> {
    Index(candidates, (c: Candidate) => c.nodeId, (c: Candidate) => c.nodeType)
  }

  function ByType(candidates: seq<Candidate>): map<string, Candidate> {
    Index(candidates, (c: Candidate) => c.nodeType, (c: Candidate) => c)
  }

  lemma {:induction false} IndexedItem<C, K, V>(items: seq<C>, key: C -> K, value: C -> V, k: K)
    ensures k in Index(items, key, value) <==> exists i :: 0 <= i < |items| && key(items[i]) == k
    ensures k in Index(items, key, value) ==>
              exists i :: 0 <= i < |items| && key(items[i]) == k && Index(items, key, value)[k] == value(items[i])
    decreases |items|
  {
    if items != [] {
      var n := |items| - 1;
      IndexedItem(items[..n], key, value, k);
      if key(items[n]) != k && k in Index(items, key, value) {
        var i :| 0 <= i < n && key(items[..n][i]) == k && Index(items[..n], key, value)[k] == value(items[..n][i]);
        assert items[..n][i] == items[i];
      }
      if j :| 0 <= j < |items| && key(items[j]) == k {
        assert j < n ==> items[..n][j] == items[j];
      }
    }
  }

  // ---------------------------------------------------------------- serialising for the editor

  function Digits(n: nat): string {
    if n < 10 then ['0' + n as char] else Digits(n / 10) + ['0' + (n % 10) as char]
  }

  function RefName(i: nat): string {
    ['n'] + Digits(i)
  }

  function RefByInstance(nodes: seq<Node>): map<Uuid, string>
    decreases |nodes|
  {
    if nodes == [] then map[]
    else
      var n := |nodes| - 1;
      RefByInstance(nodes[..n])[nodes[n].instance := RefName(n)]
  }

  predicate AllKnown(nodes: seq<Node>, types: map<Uuid, string>) {
    forall i :: 0 <= i < |nodes| ==> nodes[i].nodeId in types
  }

  function Shown(nodes: seq<Node>, types: map<Uuid, string>): (shown: seq<EditNode>)
    requires AllKnown(nodes, types)
    ensures |shown| == |nodes|
    ensures forall i :: 0 <= i < |nodes| ==> shown[i] == EditNode(RefName(i), types[nodes[i].nodeId], nodes[i].params)
  {
    seq(|nodes|, i requires 0 <= i < |nodes| => EditNode(RefName(i), types[nodes[i].nodeId], nodes[i].params))
  }

  function Serialized(w: Workflow, candidates: seq<Candidate>): Option<EditDoc> {
    var types := TypeById(candidates);
    if AllKnown(w.nodes, types) then
      Some(EditDoc(w.name, Shown(w.nodes, types), Relink(w.edges, RefByInstance(w.nodes))))
    else None
  }

  method SerializeForEdit(w: Workflow, candidates: seq<Candidate>) returns (doc: Option<EditDoc>)
    ensures doc == Serialized(w, candidates)
  {
    var types := TypeById(candidates);
    var refs: map<Uuid, string> := map[];
    var nodes: seq<EditNode> := [];
    for i := 0 to |w.nodes|
      invariant AllKnown(w.nodes[..i], types)
      invariant refs == RefByInstance(w.nodes[..i])
      invariant nodes == Shown(w.nodes[..i], types)
    {
      var n := w.nodes[i];
      assert w.nodes[..i + 1][..i] == w.nodes[..i];
      if n.nodeId !in types {
        return None;
      }
      refs := refs[n.instance := RefName(i)];
      nodes := nodes + [EditNode(RefName(i), types[n.nodeId], n.params)];
    }
    assert w.nodes[..|w.nodes|] == w.nodes;
    var edges := RelinkEdges(w.edges, refs);
    doc := Some(EditDoc(w.name, nodes, edges));
  }

  // ---------------------------------------------------------------- building from an edit answer

  function InstanceByRef(nodes: seq<EditNode>, supply: nat -> Uuid): map<string, Uuid>
    decreases |nodes|
  {
    if nodes == [] then map[]
    else
      var n := |nodes| - 1;
      InstanceByRef(nodes[..n], supply)[nodes[n].ref := supply(n)]
  }

  /** The error at the first bad node, if there is one. */
  function Problem(nodes: seq<EditNode>, types: map<string, Candidate>): (e: Option<BuildError>)
    ensures e.None? ==> forall i :: 0 <= i < |nodes| ==> nodes[i].nodeType in types
    decreases |nodes|
  {
    if nodes == [] then None
    else
      var n := |nodes| - 1;
      match Problem(nodes[..n], types)
      case Some(e) => Some(e)
      case None =>
        if nodes[n].nodeType !in types then Some(UnknownNodeType(nodes[n].nodeType))
        else if exists j :: 0 <= j < n && nodes[j].ref == nodes[n].ref then Some(DuplicateRef(nodes[n].ref))
        else None
  }

  function OutputsByInstance(nodes: seq<EditNode>, types: map<string, Candidate>, supply: nat -> Uuid)
    : map<Uuid, seq<Field>>
    requires forall i :: 0 <= i < |nodes| ==> nodes[i].nodeType in types
    decreases |nodes|
  {
    if nodes == [] then map[]
    else
      var n := |nodes| - 1;
      OutputsByInstance(nodes[..n], types, supply)[supply(n) := types[nodes[n].nodeType].outputs]
  }

  function Resolve(params: Json, refs: map<string, Uuid>, outputs: map<Uuid, seq<Field>>, env: Env): Json {
    GroundRefFields(RewriteRefs(params, refs, env.show), Upstream(env.parse, outputs))
  }

  function BuiltNodes(nodes: seq<EditNode>, env: Env): (built: seq<Node>)
    requires Problem(nodes, ByType(env.candidates)).None?
    ensures |built| == |nodes|
    ensures forall i :: 0 <= i < |nodes| ==> built[i].instance == env.supply(i)
  {
    var types := ByType(env.candidates);
    var refs, outputs := InstanceByRef(nodes, env.supply), OutputsByInstance(nodes, types, env.supply);
    seq(|nodes|, i requires 0 <= i < |nodes| =>
      Node(env.supply(i), types[nodes[i].nodeType].nodeId, Resolve(nodes[i].params, refs, outputs, env), UNBOUND))
  }

  function BuiltFrom(doc: EditDoc, env: Env): Built {
    match Problem(doc.nodes, ByType(env.candidates))
    case Some(e) => Failed(e)
    case None =>
      Built(Workflow(doc.name, BuiltNodes(doc.nodes, env), Relink(doc.edges, InstanceByRef(doc.nodes, env.supply))))
  }

  lemma {:induction false} RefsSoFar(nodes: seq<EditNode>, supply: nat -> Uuid, ref: string)
    ensures ref in InstanceByRef(nodes, supply) <==> exists j :: 0 <= j < |nodes| && nodes[j].ref == ref
    decreases |nodes|
  {
    if nodes != [] {
      var n := |nodes| - 1;
      RefsSoFar(nodes[..n], supply, ref);
      if j :| 0 <= j < |nodes| && nodes[j].ref == ref {
        assert j < n ==> nodes[..n][j].ref == ref;
      }
      if j :| 0 <= j < n && nodes[..n][j].ref == ref {
        assert nodes[j].ref == ref;
      }
    }
  }

  lemma {:induction false} ProblemPersists(nodes: seq<EditNode>, k: nat, types: map<string, Candidate>)
    requires k <= |nodes| && Problem(nodes[..k], types).Some?
    ensures Problem(nodes, types) == Problem(nodes[..k], types)
    decreases |nodes|
  {
    if k == |nodes| {
      assert nodes[..k] == nodes;
    } else {
      var shorter := nodes[..|nodes| - 1];
      assert shorter[..k] == nodes[..k];
      ProblemPersists(shorter, k, types);
    }
  }

  /** What the node loop learns about one more node. */
  lemma ProblemStep(nodes: seq<EditNode>, k: nat, types: map<string, Candidate>, supply: nat -> Uuid)
    requires k < |nodes| && Problem(nodes[..k], types).None?
    ensures var raw, refs := nodes[k], InstanceByRef(nodes[..k], supply);
            var problem := if raw.nodeType !in types then Some(UnknownNodeType(raw.nodeType))
                           else if raw.ref in refs then Some(DuplicateRef(raw.ref))
                           else None;
            && Problem(nodes[..k + 1], types) == problem
            && (problem.Some? ==> Problem(nodes, types) == problem)
            && InstanceByRef(nodes[..k + 1], supply) == refs[raw.ref := supply(k)]
  {
    var raw, upTo := nodes[k], nodes[..k + 1];
    assert upTo[..k] == nodes[..k];
    RefsSoFar(nodes[..k], supply, raw.ref);
    assert forall j :: 0 <= j < k ==> upTo[j] == nodes[..k][j];
    if Problem(upTo, types).Some? {
      ProblemPersists(nodes, k + 1, types);
    }
  }

  method BuildNodes(docNodes: seq<EditNode>, env: Env)
    returns (problem: Option<BuildError>, nodes: seq<Node>, refs: map<string, Uuid>)
    ensures problem == Problem(docNodes, ByType(env.candidates))
    ensures problem.None? ==> refs == InstanceByRef(docNodes, env.supply) && |nodes| == |docNodes|
    ensures problem.None? ==> forall i :: 0 <= i < |docNodes| ==>
              nodes[i] == Node(env.supply(i), ByType(env.candidates)[docNodes[i].nodeType].nodeId, docNodes[i].params, UNBOUND)
  {
    var types := ByType(env.candidates);
    nodes, refs, problem := [], map[], None;
    for k := 0 to |docNodes|
      invariant Problem(docNodes[..k], types).None? && problem.None?
      invariant refs == InstanceByRef(docNodes[..k], env.supply)
      invariant |nodes| == k
      invariant forall i :: 0 <= i < k ==> docNodes[i].nodeType in types
      invariant forall i :: 0 <= i < k ==>
                  nodes[i] == Node(env.supply(i), types[docNodes[i].nodeType].nodeId, docNodes[i].params, UNBOUND)
    {
      var raw := docNodes[k];
      ProblemStep(docNodes, k, types, env.supply);
      if raw.nodeType !in types {
        problem := Some(UnknownNodeType(raw.nodeType));
        return;
      }
      if raw.ref in refs {
        problem := Some(DuplicateRef(raw.ref));
        return;
      }
      refs := refs[raw.ref := env.supply(k)];
      nodes := nodes + [Node(env.supply(k), types[raw.nodeType].nodeId, raw.params, UNBOUND)];
    }
    assert docNodes[..|docNodes|] == docNodes;
  }

  method CollectOutputs(nodes: seq<EditNode>, types: map<string, Candidate>, refs: map<string, Uuid>, supply: nat -> Uuid)
    returns (outputs: map<Uuid, seq<Field>>)
    requires Problem(nodes, types).None? && refs == InstanceByRef(nodes, supply)
    ensures outputs == OutputsByInstance(nodes, types, supply)
  {
    outputs := map[];
    for k := 0 to |nodes|
      invariant outputs == OutputsByInstance(nodes[..k], types, supply)
    {
      assert nodes[..k + 1][..k] == nodes[..k];
      InstanceIsSupplied(nodes, types, k, supply);
      outputs := outputs[refs[nodes[k].ref] := types[nodes[k].nodeType].outputs];
    }
    assert nodes[..|nodes|] == nodes;
  }

  method BuildFromEdit(doc: EditDoc, env: Env) returns (r: Built)
    ensures r == BuiltFrom(doc, env)
  {
    var types := ByType(env.candidates);
    var problem, nodes, refs := BuildNodes(doc.nodes, env);
    if problem.Some? {
      return Failed(problem.value);
    }
    var outputs := CollectOutputs(doc.nodes, types, refs, env.supply);
    nodes := seq(|nodes|, i requires 0 <= i < |nodes| =>
      nodes[i].(params := Resolve(nodes[i].params, refs, outputs, env)));
    var edges := RelinkEdges(doc.edges, refs);
    assert nodes == BuiltNodes(doc.nodes, env);
    r := Built(Workflow(doc.name, nodes, edges));
  }

  /** Without duplicate refs, each ref names the instance of its own node. */
  lemma {:induction false} InstanceIsSupplied(nodes: seq<EditNode>, types: map<string, Candidate>, k: nat, supply: nat -> Uuid)
    requires k < |nodes| && Problem(nodes, types).None?
    ensures nodes[k].ref in InstanceByRef(nodes, supply) && InstanceByRef(nodes, supply)[nodes[k].ref] == supply(k)
    decreases |nodes|
  {
    var n := |nodes| - 1;
    if k < n {
      InstanceIsSupplied(nodes[..n], types, k, supply);
      assert nodes[k].ref != nodes[n].ref;
    }
  }

  // ---------------------------------------------------------------- building from a fresh draft

  /** The nodes of known type, each known by its type. */
  function KeptNodes(nodes: seq<DraftNode>, types: map<string, Candidate>): seq<EditNode>
    decreases |nodes|
  {
    if nodes == [] then []
    else
      var n := nodes[|nodes| - 1];
      KeptNodes(nodes[..|nodes| - 1], types) +
      (if n.nodeType in types then [EditNode(n.nodeType, n.nodeType, n.params)] else [])
  }

  function DroppedTypes(nodes: seq<DraftNode>, types: map<string, Candidate>): seq<string>
    decreases |nodes|
  {
    if nodes == [] then []
    else
      var n := nodes[|nodes| - 1];
      DroppedTypes(nodes[..|nodes| - 1], types) + if n.nodeType in types then [] else [n.nodeType]
  }

  /** A draft is built like the edit answer made of its known nodes, each with its type for a ref. */
  function DraftBuilt(draft: DraftDoc, env: Env): Built {
    var doc := EditDoc(draft.name, KeptNodes(draft.nodes, ByType(env.candidates)), draft.edges);
    match BuiltFrom(doc, env)
    case Failed(DuplicateRef(t)) => Failed(DuplicateNodeType(t))
    case other => other
  }

  lemma {:induction false} KeptPrefix(nodes: seq<DraftNode>, k: nat, types: map<string, Candidate>)
    requires k <= |nodes|
    ensures KeptNodes(nodes[..k], types) <= KeptNodes(nodes, types)
    decreases |nodes|
  {
    if k == |nodes| {
      assert nodes[..k] == nodes;
    } else {
      var shorter := nodes[..|nodes| - 1];
      assert shorter[..k] == nodes[..k];
      KeptPrefix(shorter, k, types);
    }
  }

  /** `nodes` and `refs` are what the node loop has made of `kept`. */
  ghost predicate BuiltUpTo(kept: seq<EditNode>, nodes: seq<Node>, refs: map<string, Uuid>,
                            types: map<string, Candidate>, supply: nat -> Uuid) {
    && Problem(kept, types).None?
    && refs == InstanceByRef(kept, supply)
    && |nodes| == |kept|
    && forall i :: 0 <= i < |kept| ==>
         nodes[i] == Node(supply(i), types[kept[i].nodeType].nodeId, kept[i].params, UNBOUND)
  }

  lemma BuiltOneMore(kept: seq<EditNode>, nodes: seq<Node>, refs: map<string, Uuid>, raw: EditNode,
                     types: map<string, Candidate>, supply: nat -> Uuid)
    requires BuiltUpTo(kept, nodes, refs, types, supply) && raw.nodeType in types
    ensures if raw.ref in refs then
              Problem(kept + [raw], types) == Some(DuplicateRef(raw.ref))
            else
              BuiltUpTo(kept + [raw], nodes + [Node(supply(|kept|), types[raw.nodeType].nodeId, raw.params, UNBOUND)],
                        refs[raw.ref := supply(|kept|)], types, supply)
  {
    ProblemAppend(kept, raw, types, supply);
  }

  lemma ProblemAppend(kept: seq<EditNode>, raw: EditNode, types: map<string, Candidate>, supply: nat -> Uuid)
    requires Problem(kept, types).None? && raw.nodeType in types
    ensures var refs := InstanceByRef(kept, supply);
            && Problem(kept + [raw], types) == (if raw.ref in refs then Some(DuplicateRef(raw.ref)) else None)
            && InstanceByRef(kept + [raw], supply) == refs[raw.ref := supply(|kept|)]
  {
    var all := kept + [raw];
    assert all[..|kept|] == kept && all[..|kept| + 1] == all;
    ProblemStep(all, |kept|, types, supply);
  }

  /** The node loop of `_build`; `kept` is the key order of `instance_id_map`. */
  method BuildDraftNodes(draftNodes: seq<DraftNode>, env: Env)
    returns (duplicate: Option<string>, nodes: seq<Node>, byType: map<string, Uuid>, dropped: seq<string>,
             kept: seq<EditNode>)
    ensures duplicate.Some? ==>
              Problem(KeptNodes(draftNodes, ByType(env.candidates)), ByType(env.candidates))
                == Some(DuplicateRef(duplicate.value))
    ensures duplicate.None? ==>
              && kept == KeptNodes(draftNodes, ByType(env.candidates))
              && dropped == DroppedTypes(draftNodes, ByType(env.candidates))
              && BuiltUpTo(kept, nodes, byType, ByType(env.candidates), env.supply)
  {
    var types := ByType(env.candidates);
    nodes, byType, dropped, kept, duplicate := [], map[], [], [], None;
    for k := 0 to |draftNodes|
      invariant duplicate.None?
      invariant kept == KeptNodes(draftNodes[..k], types) && dropped == DroppedTypes(draftNodes[..k], types)
      invariant BuiltUpTo(kept, nodes, byType, types, env.supply)
    {
      var raw := draftNodes[k];
      assert draftNodes[..k + 1][..k] == draftNodes[..k];
      if raw.nodeType !in types {
        dropped := dropped + [raw.nodeType];
        continue;
      }
      var known := EditNode(raw.nodeType, raw.nodeType, raw.params);
      BuiltOneMore(kept, nodes, byType, known, types, env.supply);
      if raw.nodeType in byType {
        DuplicateIsFinal(draftNodes, k + 1, types);
        duplicate := Some(raw.nodeType);
        return;
      }
      nodes := nodes + [Node(env.supply(|nodes|), types[raw.nodeType].nodeId, raw.params, UNBOUND)];
      byType := byType[raw.nodeType := env.supply(|kept|)];
      kept := kept + [known];
    }
    assert draftNodes[..|draftNodes|] == draftNodes;
  }

  lemma DuplicateIsFinal(nodes: seq<DraftNode>, k: nat, types: map<string, Candidate>)
    requires k <= |nodes| && Problem(KeptNodes(nodes[..k], types), types).Some?
    ensures Problem(KeptNodes(nodes, types), types) == Problem(KeptNodes(nodes[..k], types), types)
  {
    KeptPrefix(nodes, k, types);
    assert KeptNodes(nodes, types)[..|KeptNodes(nodes[..k], types)|] == KeptNodes(nodes[..k], types);
    ProblemPersists(KeptNodes(nodes, types), |KeptNodes(nodes[..k], types)|, types);
  }

  method BuildDraft(draft: DraftDoc, env: Env) returns (r: Built, dropped: seq<string>)
    ensures r == DraftBuilt(draft, env)
    ensures r.Built? ==> dropped == DroppedTypes(draft.nodes, ByType(env.candidates))
  {
    var types := ByType(env.candidates);
    var duplicate, nodes, byType, dropped', kept := BuildDraftNodes(draft.nodes, env);
    dropped := dropped';
    if duplicate.Some? {
      return Failed(DuplicateNodeType(duplicate.value)), dropped;
    }
    var outputs := CollectOutputs(kept, types, byType, env.supply);
    nodes := seq(|nodes|, i requires 0 <= i < |nodes| =>
      nodes[i].(params := Resolve(nodes[i].params, byType, outputs, env)));
    var edges := RelinkEdges(draft.edges, byType);
    assert nodes == BuiltNodes(kept, env);
    r := Built(Workflow(draft.name, nodes, edges));
  }

  // ---------------------------------------------------------------- what building guarantees

  ghost predicate Injective(supply: nat -> Uuid) {
    forall i, j :: supply(i) == supply(j) ==> i == j
  }

  function Instances(nodes: seq<Node>): set<Uuid> {
    set i | 0 <= i < |nodes| :: nodes[i].instance
  }

  ghost predicate Closed(w: Workflow) {
    forall k :: 0 <= k < |w.edges| ==> w.edges[k].from in Instances(w.nodes) && w.edges[k].to in Instances(w.nodes)
  }

  ghost predicate DistinctInstances(nodes: seq<Node>) {
    forall i, j :: 0 <= i < j < |nodes| ==> nodes[i].instance != nodes[j].instance
  }

  lemma {:induction false} RefsNameInstances(nodes: seq<EditNode>, supply: nat -> Uuid, ref: string)
    requires ref in InstanceByRef(nodes, supply)
    ensures exists i :: 0 <= i < |nodes| && InstanceByRef(nodes, supply)[ref] == supply(i)
    decreases |nodes|
  {
    var n := |nodes| - 1;
    if nodes[n].ref != ref {
      RefsNameInstances(nodes[..n], supply, ref);
    }
  }

  /** Whatever the model answers, a built workflow has distinct instances and no dangling connection. */
  lemma BuiltIsClosed(doc: EditDoc, env: Env)
    requires Injective(env.supply) && BuiltFrom(doc, env).Built?
    ensures var w := BuiltFrom(doc, env).workflow; DistinctInstances(w.nodes) && Closed(w)
  {
    var w, refs := BuiltFrom(doc, env).workflow, InstanceByRef(doc.nodes, env.supply);
    forall ref | ref in refs ensures refs[ref] in Instances(w.nodes) {
      RefsNameInstances(doc.nodes, env.supply, ref);
      var i :| 0 <= i < |doc.nodes| && refs[ref] == env.supply(i);
      assert w.nodes[i].instance == refs[ref];
    }
    forall k | 0 <= k < |w.edges| ensures w.edges[k].from in Instances(w.nodes) && w.edges[k].to in Instances(w.nodes) {
      RelinkIntoValues(doc.edges, refs, k);
    }
  }

  function ResolvedIn(refs: map<string, Uuid>, up: Upstream): Ref -> bool {
    (r: Ref) => r.token !in refs && Grounded(r, up)
  }

  /** What the nodes of a document put out, as grounding sees it. */
  function UpstreamOf(doc: EditDoc, env: Env): Upstream
    requires Problem(doc.nodes, ByType(env.candidates)).None?
  {
    Upstream(env.parse, OutputsByInstance(doc.nodes, ByType(env.candidates), env.supply))
  }

  /** In every parameter of a built workflow every reference to one of the new instances is grounded in that node's
      output schema, as long as single outputs have no brace in their names; no reference still carries a ref of
      the document, unless the id of a new instance reads as one; and well-named outputs keep the shape. */
  lemma BuiltReferencesResolve(doc: EditDoc, env: Env, i: nat)
    requires BuiltFrom(doc, env).Built? && i < |doc.nodes| && Shows(env.show)
    ensures var refs, up := InstanceByRef(doc.nodes, env.supply), UpstreamOf(doc, env);
            var params := BuiltFrom(doc, env).workflow.nodes[i].params;
            && (NoBraceInReach(up) ==> AllRefs(params, IsGrounded(up)))
            && (NoBraceInReach(up) && (forall j :: 0 <= j < |doc.nodes| ==> env.show(env.supply(j)) !in refs) ==>
                  AllRefs(params, ResolvedIn(refs, up)))
            && (AllWellNamed(up) ==> SameShape(doc.nodes[i].params, params))
  {
    var refs, up := InstanceByRef(doc.nodes, env.supply), UpstreamOf(doc, env);
    var g, h, v := Rewriter(refs, env.show), Grounder(up), doc.nodes[i].params;
    RewriteThenGround(v, refs, env.show, up);
    if AllWellNamed(up) {
      GroundingKeepsGood(up);
      forall r | Good(r) ensures Good(h(g(r))) { assert Good(g(r)); }
      OnJsonKeepsShape(v, Then(g, h));
    }
    if NoBraceInReach(up) {
      ReferencesLand(doc, env, refs, up);
      OnJsonReaches(v, Then(g, h), IsGrounded(up));
      if forall j :: 0 <= j < |doc.nodes| ==> env.show(env.supply(j)) !in refs {
        OnJsonReaches(v, Then(g, h), ResolvedIn(refs, up));
      }
    }
  }

  lemma ReferencesLand(doc: EditDoc, env: Env, refs: map<string, Uuid>, up: Upstream)
    requires refs == InstanceByRef(doc.nodes, env.supply) && Shows(env.show) && NoBraceInReach(up)
    ensures Lands(Then(Rewriter(refs, env.show), Grounder(up)), IsGrounded(up))
    ensures (forall j :: 0 <= j < |doc.nodes| ==> env.show(env.supply(j)) !in refs) ==>
              Lands(Then(Rewriter(refs, env.show), Grounder(up)), ResolvedIn(refs, up))
  {
    forall r | Good(r)
      ensures var t := GroundRef(RewriteRef(r, refs, env.show), up);
              && GoodToken(t.token) && '}' !in t.path && Grounded(t, up)
              && ((forall j :: 0 <= j < |doc.nodes| ==> env.show(env.supply(j)) !in refs) ==> t.token !in refs)
    {
      var s := RewriteRef(r, refs, env.show);
      GroundedPath(s, up);
      GroundRefGrounds(s, up);
      if r.token in refs { RefsNameInstances(doc.nodes, env.supply, r.token); }
    }
  }

  // ---------------------------------------------------------------- echoing a workflow

  lemma {:induction false} DigitsInjective(a: nat, b: nat)
    requires Digits(a) == Digits(b)
    ensures a == b
  {
    var s, t := Digits(a), Digits(b);
    assert a >= 10 ==> |Digits(a / 10)| >= 1;
    assert b >= 10 ==> |Digits(b / 10)| >= 1;
    if a >= 10 && b >= 10 {
      assert s[..|s| - 1] == Digits(a / 10) && t[..|t| - 1] == Digits(b / 10);
      assert s[|s| - 1] == t[|t| - 1];
      DigitsInjective(a / 10, b / 10);
    } else if a < 10 && b < 10 {
      assert s[0] == t[0];
    }
  }

  lemma RefNameInjective(i: nat, j: nat)
    requires RefName(i) == RefName(j)
    ensures i == j
  {
    assert RefName(i)[1..] == Digits(i) && RefName(j)[1..] == Digits(j);
    DigitsInjective(i, j);
  }

  /** From an old instance to the new one at the same place. */
  function Renaming(nodes: seq<Node>, supply: nat -> Uuid): map<Uuid, Uuid>
    decreases |nodes|
  {
    if nodes == [] then map[]
    else
      var n := |nodes| - 1;
      Renaming(nodes[..n], supply)[nodes[n].instance := supply(n)]
  }

  lemma {:induction false} NewInstanceOf(nodes: seq<Node>, supply: nat -> Uuid, i: nat)
    requires i < |nodes| && DistinctInstances(nodes)
    ensures nodes[i].instance in Renaming(nodes, supply) && Renaming(nodes, supply)[nodes[i].instance] == supply(i)
    decreases |nodes|
  {
    if i < |nodes| - 1 {
      NewInstanceOf(nodes[..|nodes| - 1], supply, i);
    }
  }

  lemma ShownPrefix(nodes: seq<Node>, types: map<Uuid, string>)
    requires nodes != [] && AllKnown(nodes, types)
    ensures Shown(nodes, types)[..|nodes| - 1] == Shown(nodes[..|nodes| - 1], types)
  {}

  lemma {:induction false} ShownHasNoProblem(nodes: seq<Node>, types: map<Uuid, string>, byType: map<string, Candidate>)
    requires AllKnown(nodes, types) && forall id :: id in types ==> types[id] in byType
    ensures Problem(Shown(nodes, types), byType).None?
    decreases |nodes|
  {
    if nodes != [] {
      var n := |nodes| - 1;
      ShownPrefix(nodes, types);
      ShownHasNoProblem(nodes[..n], types, byType);
      forall j | 0 <= j < n ensures Shown(nodes, types)[j].ref != Shown(nodes, types)[n].ref {
        if RefName(j) == RefName(n) { RefNameInjective(j, n); }
      }
    }
  }

  lemma {:induction false} RefsInUse(nodes: seq<Node>, id: Uuid)
    requires id in RefByInstance(nodes)
    ensures exists j :: 0 <= j < |nodes| && RefByInstance(nodes)[id] == RefName(j)
    decreases |nodes|
  {
    var n := |nodes| - 1;
    if nodes[n].instance != id {
      RefsInUse(nodes[..n], id);
    }
  }

  lemma NextRefIsNew(nodes: seq<Node>)
    ensures forall id :: id in RefByInstance(nodes) ==> RefByInstance(nodes)[id] != RefName(|nodes|)
  {
    forall id | id in RefByInstance(nodes) ensures RefByInstance(nodes)[id] != RefName(|nodes|) {
      RefsInUse(nodes, id);
      var j :| 0 <= j < |nodes| && RefByInstance(nodes)[id] == RefName(j);
      if RefName(j) == RefName(|nodes|) { RefNameInjective(j, |nodes|); }
    }
  }

  lemma ComposeUpdate<A, B, C>(f: map<A, B>, g: map<B, C>, a: A, b: B, c: C)
    requires forall x :: x in f ==> f[x] != b
    ensures Compose(f[a := b], g[b := c]) == Compose(f, g)[a := c]
  {}

  /** Old instance to ref to new instance is the renaming. */
  lemma {:induction false} RefsComposeToRenaming(nodes: seq<Node>, types: map<Uuid, string>, supply: nat -> Uuid)
    requires AllKnown(nodes, types)
    ensures Compose(RefByInstance(nodes), InstanceByRef(Shown(nodes, types), supply)) == Renaming(nodes, supply)
    decreases |nodes|
  {
    if nodes != [] {
      var n := |nodes| - 1;
      ShownPrefix(nodes, types);
      RefsComposeToRenaming(nodes[..n], types, supply);
      NextRefIsNew(nodes[..n]);
      ComposeUpdate(RefByInstance(nodes[..n]), InstanceByRef(Shown(nodes[..n], types), supply),
                    nodes[n].instance, RefName(n), supply(n));
    }
  }

  /** The type shown for a node leads back to the node's own candidate. */
  predicate LeadsBack(nodeId: Uuid, candidates: seq<Candidate>) {
    var types, byType := TypeById(candidates), ByType(candidates);
    nodeId in types && types[nodeId] in byType && byType[types[nodeId]].nodeId == nodeId
  }

  lemma ShownTypesAreKnown(candidates: seq<Candidate>)
    ensures forall id :: id in TypeById(candidates) ==> TypeById(candidates)[id] in ByType(candidates)
  {
    forall id | id in TypeById(candidates) ensures TypeById(candidates)[id] in ByType(candidates) {
      var t := TypeById(candidates)[id];
      IndexedItem(candidates, (c: Candidate) => c.nodeId, (c: Candidate) => c.nodeType, id);
      IndexedItem(candidates, (c: Candidate) => c.nodeType, (c: Candidate) => c, t);
    }
  }

  lemma UniqueTypesLeadBack(candidates: seq<Candidate>, nodeId: Uuid)
    requires forall i, j :: 0 <= i < j < |candidates| ==> candidates[i].nodeType != candidates[j].nodeType
    requires nodeId in TypeById(candidates)
    ensures LeadsBack(nodeId, candidates)
  {
    var t := TypeById(candidates)[nodeId];
    IndexedItem(candidates, (c: Candidate) => c.nodeId, (c: Candidate) => c.nodeType, nodeId);
    IndexedItem(candidates, (c: Candidate) => c.nodeType, (c: Candidate) => c, t);
  }

  /** Echoing the shown workflow builds an isomorphic one: node for node and connection for connection,
      with handles, under the renaming of instances. The node ids agree exactly when every type shown
      leads back to its candidate. */
  lemma EchoIsIsomorphic(w: Workflow, env: Env)
    requires AllKnown(w.nodes, TypeById(env.candidates))
    ensures var doc := Serialized(w, env.candidates).value;
            && BuiltFrom(doc, env).Built?
            && var w' := BuiltFrom(doc, env).workflow;
               && w'.name == w.name
               && |w'.nodes| == |w.nodes|
               && w'.edges == Relink(w.edges, Renaming(w.nodes, env.supply))
               && ((forall i :: 0 <= i < |w.nodes| ==> w'.nodes[i].nodeId == w.nodes[i].nodeId)
                   <==> (forall i :: 0 <= i < |w.nodes| ==> LeadsBack(w.nodes[i].nodeId, env.candidates)))
  {
    var types, byType := TypeById(env.candidates), ByType(env.candidates);
    var doc := Serialized(w, env.candidates).value;
    ShownTypesAreKnown(env.candidates);
    ShownHasNoProblem(w.nodes, types, byType);
    var w' := BuiltFrom(doc, env).workflow;
    RelinkTwice(w.edges, RefByInstance(w.nodes), InstanceByRef(doc.nodes, env.supply));
    RefsComposeToRenaming(w.nodes, types, env.supply);
    forall i | 0 <= i < |w.nodes|
      ensures w'.nodes[i].nodeId == w.nodes[i].nodeId <==> LeadsBack(w.nodes[i].nodeId, env.candidates)
    {
      assert w'.nodes[i].nodeId == byType[doc.nodes[i].nodeType].nodeId;
    }
  }

  /** Neither credentials nor skills are shown, so an echo keeps what is bound to a node only where nothing is. */
  lemma EchoUnbinds(w: Workflow, env: Env, i: nat)
    requires AllKnown(w.nodes, TypeById(env.candidates)) && i < |w.nodes|
    ensures BuiltFrom(Serialized(w, env.candidates).value, env).Built?
    ensures var w' := BuiltFrom(Serialized(w, env.candidates).value, env).workflow;
            w'.nodes[i].bound == w.nodes[i].bound <==> w.nodes[i].bound == UNBOUND
  {
    EchoIsIsomorphic(w, env);
  }

  /** On a workflow without dangling connections, none is lost. */
  lemma EchoKeepsEveryConnection(w: Workflow, env: Env)
    requires AllKnown(w.nodes, TypeById(env.candidates)) && DistinctInstances(w.nodes) && Closed(w)
    ensures var edges := Relink(w.edges, Renaming(w.nodes, env.supply));
            && |edges| == |w.edges|
            && forall k, i, j :: 0 <= k < |edges| && 0 <= i < |w.nodes| && 0 <= j < |w.nodes|
                 && w.edges[k].from == w.nodes[i].instance && w.edges[k].to == w.nodes[j].instance
                 ==> edges[k] == Link(env.supply(i), env.supply(j), w.edges[k].fromHandle, w.edges[k].toHandle)
  {
    var renaming := Renaming(w.nodes, env.supply);
    forall i | 0 <= i < |w.nodes|
      ensures w.nodes[i].instance in renaming && renaming[w.nodes[i].instance] == env.supply(i)
    {
      NewInstanceOf(w.nodes, env.supply, i);
    }
    RelinkAll(w.edges, renaming);
  }

  // ---------------------------------------------------------------- parameters in an echo

  /** Neither a ref of the edit document nor an instance of the new workflow. */
  ghost predicate Foreign(r: Ref, n: nat, env: Env) {
    && (forall j :: 0 <= j < n ==> r.token != RefName(j))
    && (env.parse(r.token).Some? ==> forall j :: 0 <= j < n ==> env.parse(r.token).value != env.supply(j))
  }

  ghost function IsForeign(n: nat, env: Env): Ref -> bool {
    r => Foreign(r, n, env)
  }

  lemma {:induction false} OutputsOnlyOfNew(
    nodes: seq<EditNode>, types: map<string, Candidate>, supply: nat -> Uuid, id: Uuid)
    requires forall i :: 0 <= i < |nodes| ==> nodes[i].nodeType in types
    requires id in OutputsByInstance(nodes, types, supply)
    ensures exists i :: 0 <= i < |nodes| && id == supply(i)
    decreases |nodes|
  {
    var n := |nodes| - 1;
    if id != supply(n) {
      OutputsOnlyOfNew(nodes[..n], types, supply, id);
    }
  }

  lemma ForeignIsFixed(r: Ref, nodes: seq<EditNode>, byType: map<string, Candidate>, env: Env)
    requires forall i :: 0 <= i < |nodes| ==> nodes[i].nodeType in byType && nodes[i].ref == RefName(i)
    requires Foreign(r, |nodes|, env)
    ensures r.token !in InstanceByRef(nodes, env.supply)
    ensures OutputsOf(Upstream(env.parse, OutputsByInstance(nodes, byType, env.supply)), r.token).None?
  {
    RefsSoFar(nodes, env.supply, r.token);
    if env.parse(r.token).Some? && env.parse(r.token).value in OutputsByInstance(nodes, byType, env.supply) {
      OutputsOnlyOfNew(nodes, byType, env.supply, env.parse(r.token).value);
    }
  }

  lemma {:induction false} AllRefsWeaken(v: Json, p: Ref -> bool, q: Ref -> bool)
    requires AllRefs(v, p) && forall r :: p(r) ==> q(r)
    ensures AllRefs(v, q)
    decreases v
  {
    match v {
      case JText(_) =>
      case JList(items) =>
        forall i | 0 <= i < |items| ensures AllRefs(items[i], q) { AllRefsWeaken(items[i], p, q); }
      case JObject(entries) =>
        forall i | 0 <= i < |entries| ensures AllRefs(entries[i].1, q) { AllRefsWeaken(entries[i].1, p, q); }
      case JOther(_) =>
    }
  }

  /** Parameters come back unchanged when their references are foreign; in particular when there are none. */
  lemma EchoKeepsForeignParameters(w: Workflow, env: Env, i: nat)
    requires AllKnown(w.nodes, TypeById(env.candidates)) && i < |w.nodes|
    requires AllRefs(w.nodes[i].params, IsForeign(|w.nodes|, env))
    ensures BuiltFrom(Serialized(w, env.candidates).value, env).Built?
    ensures BuiltFrom(Serialized(w, env.candidates).value, env).workflow.nodes[i].params == w.nodes[i].params
  {
    EchoIsIsomorphic(w, env);
    var doc, byType := Serialized(w, env.candidates).value, ByType(env.candidates);
    var refs := InstanceByRef(doc.nodes, env.supply);
    var up := Upstream(env.parse, OutputsByInstance(doc.nodes, byType, env.supply));
    var v, foreign := w.nodes[i].params, IsForeign(|w.nodes|, env);
    forall r | foreign(r) ensures Fixes(Rewriter(refs, env.show))(r) && Fixes(Grounder(up))(r) {
      ForeignIsFixed(r, doc.nodes, byType, env);
    }
    AllRefsWeaken(v, foreign, Fixes(Rewriter(refs, env.show)));
    AllRefsWeaken(v, foreign, Fixes(Grounder(up)));
    OnJsonIdle(v, Rewriter(refs, env.show));
    OnJsonIdle(v, Grounder(up));
  }

  /** The reference names one of these instances. */
  function NamesOneOf(instances: set<Uuid>, env: Env): Ref -> bool {
    (r: Ref) => env.parse(r.token).Some? && env.parse(r.token).value in instances
  }

  function Never(): Ref -> bool {
    r => false
  }

  /** A stored workflow refers to its nodes by instance. The echo gives every node a new instance but
      copies those references as they are, so they resolve in the new workflow exactly when there are
      none. */
  lemma EchoDetachesDataFlow(w: Workflow, env: Env, i: nat)
    requires AllKnown(w.nodes, TypeById(env.candidates)) && i < |w.nodes|
    requires AllRefs(w.nodes[i].params, NamesOneOf(Instances(w.nodes), env))
    requires forall j :: env.supply(j) !in Instances(w.nodes)
    requires forall j :: env.parse(RefName(j)).None?
    ensures BuiltFrom(Serialized(w, env.candidates).value, env).Built?
    ensures var w' := BuiltFrom(Serialized(w, env.candidates).value, env).workflow;
            && w'.nodes[i].params == w.nodes[i].params
            && (AllRefs(w'.nodes[i].params, NamesOneOf(Instances(w'.nodes), env)) <==> AllRefs(w.nodes[i].params, Never()))
  {
    var v, mine := w.nodes[i].params, NamesOneOf(Instances(w.nodes), env);
    forall r | mine(r) ensures IsForeign(|w.nodes|, env)(r) {
      assert forall j :: 0 <= j < |w.nodes| ==> r.token != RefName(j);
      assert forall j :: 0 <= j < |w.nodes| ==> env.parse(r.token).value != env.supply(j);
    }
    AllRefsWeaken(v, mine, IsForeign(|w.nodes|, env));
    EchoKeepsForeignParameters(w, env, i);
    var w' := BuiltFrom(Serialized(w, env.candidates).value, env).workflow;
    var new' := NamesOneOf(Instances(w'.nodes), env);
    assert forall id :: id in Instances(w'.nodes) ==> id !in Instances(w.nodes);
    if AllRefs(v, new') {
      AllRefsBoth(v, mine, new');
    }
    if AllRefs(v, Never()) {
      AllRefsWeaken(v, Never(), new');
    }
  }

  lemma {:induction false} AllRefsBoth(v: Json, p: Ref -> bool, q: Ref -> bool)
    requires AllRefs(v, p) && AllRefs(v, q) && forall r :: !(p(r) && q(r))
    ensures AllRefs(v, Never())
    decreases v
  {
    match v {
      case JText(_) =>
      case JList(items) =>
        forall i | 0 <= i < |items| ensures AllRefs(items[i], Never()) { AllRefsBoth(items[i], p, q); }
      case JObject(entries) =>
        forall i | 0 <= i < |entries| ensures AllRefs(entries[i].1, Never()) { AllRefsBoth(entries[i].1, p, q); }
      case JOther(_) =>
    }
  }
}
