/** What a build makes of the model's answer, node by node, connection by connection and reference by reference
    (modules/ai_agent/domain/services/drafter_service.py: `_build_from_edit`, `_build`). */
module WorkflowDrafts {
  import opened Basics
  import opened Dataflow
  import opened DataflowRefs
  import opened Graph
  import opened WorkflowEdit

  // ---------------------------------------------------------------- the candidate of a type

  predicate Known(candidates: seq<Candidate>, nodeType: string) {
    exists i :: 0 <= i < |candidates| && candidates[i].nodeType == nodeType
  }

  /** Of several candidates of one type the last one counts. */
  predicate Chosen(candidates: seq<Candidate>, i: int, nodeType: string) {
    && 0 <= i < |candidates| && candidates[i].nodeType == nodeType
    && forall j :: i < j < |candidates| ==> candidates[j].nodeType != nodeType
  }

  lemma {:induction false} ByTypeExactly(candidates: seq<Candidate>, nodeType: string)
    ensures nodeType in ByType(candidates) <==> Known(candidates, nodeType)
    ensures forall i :: Chosen(candidates, i, nodeType) ==>
              nodeType in ByType(candidates) && ByType(candidates)[nodeType] == candidates[i]
    decreases |candidates|
  {
    if candidates != [] {
      var n := |candidates| - 1;
      var shorter := candidates[..n];
      ByTypeExactly(shorter, nodeType);
      if candidates[n].nodeType != nodeType {
        assert forall i :: 0 <= i < n ==> shorter[i] == candidates[i];
        forall i | Chosen(candidates, i, nodeType)
          ensures nodeType in ByType(candidates) && ByType(candidates)[nodeType] == candidates[i]
        {
          assert Chosen(shorter, i, nodeType);
        }
      }
    }
  }

  lemma {:induction false} SomeChosen(candidates: seq<Candidate>, nodeType: string) returns (i: int)
    requires Known(candidates, nodeType)
    ensures Chosen(candidates, i, nodeType)
    decreases |candidates|
  {
    var n := |candidates| - 1;
    i := n;
    if candidates[n].nodeType != nodeType {
      var shorter := candidates[..n];
      assert Known(shorter, nodeType) by {
        var j :| 0 <= j < |candidates| && candidates[j].nodeType == nodeType;
        assert shorter[j] == candidates[j];
      }
      i := SomeChosen(shorter, nodeType);
      assert forall j :: 0 <= j < n ==> shorter[j] == candidates[j];
    }
  }

  // ---------------------------------------------------------------- refs as they are shown

  function Value(digits: string): int
    decreases |digits|
  {
    if digits == "" then 0
    else Value(digits[..|digits| - 1]) * 10 + (digits[|digits| - 1] as int - '0' as int)
  }

  lemma {:induction false} DigitsHaveValue(n: nat)
    ensures Digits(n) != "" && Value(Digits(n)) == n
    ensures forall i :: 0 <= i < |Digits(n)| ==> '0' <= Digits(n)[i] <= '9'
  {
    if n < 10 {
      assert Digits(n)[..0] == "";
    } else {
      DigitsHaveValue(n / 10);
      assert Digits(n)[..|Digits(n)| - 1] == Digits(n / 10);
    }
  }

  /** Node `i` is shown to the model as "n" and the number `i` in decimal digits. */
  lemma RefsAreNumbered(i: nat)
    ensures |RefName(i)| >= 2 && RefName(i)[0] == 'n' && Value(RefName(i)[1..]) == i
    ensures forall k :: 1 <= k < |RefName(i)| ==> '0' <= RefName(i)[k] <= '9'
  {
    DigitsHaveValue(i);
    assert RefName(i)[1..] == Digits(i);
  }

  // ---------------------------------------------------------------- when a build fails

  predicate RefTaken(nodes: seq<EditNode>, k: nat)
    requires k < |nodes|
  {
    exists j :: 0 <= j < k && nodes[j].ref == nodes[k].ref
  }

  predicate Bad(nodes: seq<EditNode>, k: nat, candidates: seq<Candidate>)
    requires k < |nodes|
  {
    !Known(candidates, nodes[k].nodeType) || RefTaken(nodes, k)
  }

  predicate FirstBad(nodes: seq<EditNode>, k: nat, candidates: seq<Candidate>) {
    k < |nodes| && Bad(nodes, k, candidates) && forall j :: 0 <= j < k ==> !Bad(nodes, j, candidates)
  }

  lemma BadSoFar(nodes: seq<EditNode>, n: nat, candidates: seq<Candidate>)
    requires n <= |nodes|
    ensures forall k :: 0 <= k < n ==> (Bad(nodes[..n], k, candidates) <==> Bad(nodes, k, candidates))
  {
    var shorter := nodes[..n];
    assert forall j :: 0 <= j < n ==> shorter[j] == nodes[j];
    forall k | 0 <= k < n ensures RefTaken(shorter, k) <==> RefTaken(nodes, k) {}
  }

  lemma {:induction false} NoProblemExactly(nodes: seq<EditNode>, candidates: seq<Candidate>)
    ensures Problem(nodes, ByType(candidates)).None? <==> forall k :: 0 <= k < |nodes| ==> !Bad(nodes, k, candidates)
    decreases |nodes|
  {
    if nodes != [] {
      var n := |nodes| - 1;
      NoProblemExactly(nodes[..n], candidates);
      ByTypeExactly(candidates, nodes[n].nodeType);
      BadSoFar(nodes, n, candidates);
      assert (forall k :: 0 <= k < |nodes| ==> !Bad(nodes, k, candidates))
        <==> (forall k :: 0 <= k < n ==> !Bad(nodes[..n], k, candidates)) && !Bad(nodes, n, candidates);
    }
  }

  lemma FirstProblem(nodes: seq<EditNode>, k: nat, candidates: seq<Candidate>)
    requires FirstBad(nodes, k, candidates)
    ensures Problem(nodes, ByType(candidates))
         == Some(if Known(candidates, nodes[k].nodeType) then DuplicateRef(nodes[k].ref)
                 else UnknownNodeType(nodes[k].nodeType))
  {
    BadSoFar(nodes, k, candidates);
    NoProblemExactly(nodes[..k], candidates);
    ByTypeExactly(candidates, nodes[k].nodeType);
    assert nodes[..k + 1][..k] == nodes[..k];
    ProblemPersists(nodes, k + 1, ByType(candidates));
  }

  /** An edit answer is built if and only if every node has a known type and a ref of its own; otherwise the error is
      about the first node that has not, and about its type before its ref. */
  lemma EditFailsExactly(doc: EditDoc, env: Env, k: nat)
    ensures BuiltFrom(doc, env).Built? <==> forall j :: 0 <= j < |doc.nodes| ==> !Bad(doc.nodes, j, env.candidates)
    ensures FirstBad(doc.nodes, k, env.candidates) ==>
              BuiltFrom(doc, env)
              == Failed(if Known(env.candidates, doc.nodes[k].nodeType) then DuplicateRef(doc.nodes[k].ref)
                        else UnknownNodeType(doc.nodes[k].nodeType))
  {
    NoProblemExactly(doc.nodes, env.candidates);
    if FirstBad(doc.nodes, k, env.candidates) { FirstProblem(doc.nodes, k, env.candidates); }
  }

  lemma BuiltHasRefs(doc: EditDoc, env: Env)
    requires BuiltFrom(doc, env).Built?
    ensures forall k :: 0 <= k < |doc.nodes| ==> !RefTaken(doc.nodes, k) && Known(env.candidates, doc.nodes[k].nodeType)
  {
    EditFailsExactly(doc, env, 0);
    forall k | 0 <= k < |doc.nodes|
      ensures !RefTaken(doc.nodes, k) && Known(env.candidates, doc.nodes[k].nodeType)
    {
      assert !Bad(doc.nodes, k, env.candidates);
    }
  }

  // ---------------------------------------------------------------- the nodes and connections built

  /** The nodes of the built workflow: in order, each with the next new instance, the id of its candidate, and nothing
      bound. */
  lemma EditNodesExactly(doc: EditDoc, env: Env)
    requires BuiltFrom(doc, env).Built?
    ensures var w := BuiltFrom(doc, env).workflow;
            && w.name == doc.name && |w.nodes| == |doc.nodes|
            && forall i, c :: 0 <= i < |doc.nodes| && Chosen(env.candidates, c, doc.nodes[i].nodeType) ==>
                 && w.nodes[i].instance == env.supply(i) && w.nodes[i].bound == UNBOUND
                 && w.nodes[i].nodeId == env.candidates[c].nodeId
  {
    var w := BuiltFrom(doc, env).workflow;
    forall i, c | 0 <= i < |doc.nodes| && Chosen(env.candidates, c, doc.nodes[i].nodeType)
      ensures w.nodes[i].nodeId == env.candidates[c].nodeId
    {
      ByTypeExactly(env.candidates, doc.nodes[i].nodeType);
    }
  }

  function BothIn<A(==)>(ends: set<A>): Link<A> -> bool {
    (e: Link<A>) => e.from in ends && e.to in ends
  }

  lemma {:induction false} RelinkExactly<A, B>(edges: seq<Link<A>>, at: map<A, B>)
    ensures |Relink(edges, at)| == |Filter(BothIn(at.Keys), edges)|
    ensures forall k :: 0 <= k < |Relink(edges, at)| ==>
              var e := Filter(BothIn(at.Keys), edges)[k];
              && e.from in at && e.to in at
              && Relink(edges, at)[k] == Link(at[e.from], at[e.to], e.fromHandle, e.toHandle)
    decreases |edges|
  {
    if edges != [] { RelinkExactly(edges[..|edges| - 1], at); }
  }

  function RefsOf(nodes: seq<EditNode>): set<string> {
    set i | 0 <= i < |nodes| :: nodes[i].ref
  }

  lemma {:induction false} LastOfRef(nodes: seq<EditNode>, supply: nat -> Uuid, i: nat)
    requires i < |nodes| && forall j :: i < j < |nodes| ==> nodes[j].ref != nodes[i].ref
    ensures nodes[i].ref in InstanceByRef(nodes, supply) && InstanceByRef(nodes, supply)[nodes[i].ref] == supply(i)
    decreases |nodes|
  {
    if i < |nodes| - 1 { LastOfRef(nodes[..|nodes| - 1], supply, i); }
  }

  /** With distinct refs, each names its own node's new instance and there are no others. */
  lemma InstancesByRef(nodes: seq<EditNode>, supply: nat -> Uuid)
    requires forall k :: 0 <= k < |nodes| ==> !RefTaken(nodes, k)
    ensures InstanceByRef(nodes, supply).Keys == RefsOf(nodes)
    ensures forall i :: 0 <= i < |nodes| ==> InstanceByRef(nodes, supply)[nodes[i].ref] == supply(i)
  {
    forall ref ensures ref in InstanceByRef(nodes, supply) <==> ref in RefsOf(nodes) { RefsSoFar(nodes, supply, ref); }
    forall i | 0 <= i < |nodes| ensures InstanceByRef(nodes, supply)[nodes[i].ref] == supply(i) {
      forall j | i < j < |nodes| ensures nodes[j].ref != nodes[i].ref { assert !RefTaken(nodes, j); }
      LastOfRef(nodes, supply, i);
    }
  }

  /** `l` is `e` with its ends replaced by the new instances of the nodes they name. */
  ghost predicate Joins(nodes: seq<EditNode>, supply: nat -> Uuid, e: Link<string>, l: Link<Uuid>) {
    && l.fromHandle == e.fromHandle && l.toHandle == e.toHandle
    && (exists i :: 0 <= i < |nodes| && nodes[i].ref == e.from && supply(i) == l.from)
    && (exists j :: 0 <= j < |nodes| && nodes[j].ref == e.to && supply(j) == l.to)
  }

  /** The connections of the built workflow: exactly those of the answer whose both ends are refs of it, in order,
      between the instances of the nodes they name, with their handles. */
  lemma EditLinksExactly(doc: EditDoc, env: Env)
    requires BuiltFrom(doc, env).Built?
    ensures var w, said := BuiltFrom(doc, env).workflow, Filter(BothIn(RefsOf(doc.nodes)), doc.edges);
            |w.edges| == |said| && forall k :: 0 <= k < |said| ==> Joins(doc.nodes, env.supply, said[k], w.edges[k])
  {
    BuiltHasRefs(doc, env);
    InstancesByRef(doc.nodes, env.supply);
    RelinkExactly(doc.edges, InstanceByRef(doc.nodes, env.supply));
    var w, said := BuiltFrom(doc, env).workflow, Filter(BothIn(RefsOf(doc.nodes)), doc.edges);
    forall k | 0 <= k < |said| ensures Joins(doc.nodes, env.supply, said[k], w.edges[k]) {
      assert said[k].from in RefsOf(doc.nodes) && said[k].to in RefsOf(doc.nodes);
    }
  }

  // ---------------------------------------------------------------- the parameters built

  /** What is known of the outputs of the new instances: those of each node's candidate. */
  ghost predicate OutputsKnown(nodes: seq<EditNode>, env: Env, up: Upstream) {
    && up.parse == env.parse
    && (forall id :: id in up.outputs ==> exists i :: 0 <= i < |nodes| && id == env.supply(i))
    && forall i, c :: 0 <= i < |nodes| && Chosen(env.candidates, c, nodes[i].nodeType) ==>
         env.supply(i) in up.outputs && up.outputs[env.supply(i)] == env.candidates[c].outputs
  }

  lemma {:induction false} OutputsAt(nodes: seq<EditNode>, types: map<string, Candidate>, supply: nat -> Uuid, i: nat)
    requires Injective(supply) && (forall j :: 0 <= j < |nodes| ==> nodes[j].nodeType in types) && i < |nodes|
    ensures supply(i) in OutputsByInstance(nodes, types, supply)
    ensures OutputsByInstance(nodes, types, supply)[supply(i)] == types[nodes[i].nodeType].outputs
    decreases |nodes|
  {
    if i < |nodes| - 1 { OutputsAt(nodes[..|nodes| - 1], types, supply, i); }
  }

  /** The dictionary of the candidates by type, as said above. */
  ghost predicate IsByType(types: map<string, Candidate>, candidates: seq<Candidate>) {
    forall t, c :: Chosen(candidates, c, t) ==> t in types && types[t] == candidates[c]
  }

  lemma OutputsExactly(nodes: seq<EditNode>, types: map<string, Candidate>, env: Env)
    requires IsByType(types, env.candidates)
    requires Injective(env.supply) && forall i :: 0 <= i < |nodes| ==> nodes[i].nodeType in types
    ensures OutputsKnown(nodes, env, Upstream(env.parse, OutputsByInstance(nodes, types, env.supply)))
  {
    var outputs := OutputsByInstance(nodes, types, env.supply);
    forall i, c | 0 <= i < |nodes| && Chosen(env.candidates, c, nodes[i].nodeType)
      ensures env.supply(i) in outputs && outputs[env.supply(i)] == env.candidates[c].outputs
    {
      OutputsAt(nodes, types, env.supply, i);
    }
    forall id | id in outputs ensures exists i :: 0 <= i < |nodes| && id == env.supply(i) {
      OutputsOnlyOfNew(nodes, types, env.supply, id);
    }
  }

  /** Each ref of the answer becomes the id of its node's new instance, and each path into a new instance is led to
      what the node's candidate puts out. */
  ghost predicate ParamsResolved(nodes: seq<EditNode>, env: Env, v: Json, built: Json) {
    exists ids: map<string, Uuid>, up ::
      && ids.Keys == RefsOf(nodes) && (forall i :: 0 <= i < |nodes| ==> ids[nodes[i].ref] == env.supply(i))
      && OutputsKnown(nodes, env, up)
      && Corresponds(v, built, IsResolved(ids, env.show, up))
  }

  ghost predicate OutputsWellNamed(candidates: seq<Candidate>) {
    forall i :: 0 <= i < |candidates| ==> WellNamed(candidates[i].outputs)
  }

  lemma ReachIsWellNamed(nodes: seq<EditNode>, env: Env, up: Upstream)
    requires OutputsKnown(nodes, env, up) && OutputsWellNamed(env.candidates)
    requires forall i :: 0 <= i < |nodes| ==> Known(env.candidates, nodes[i].nodeType)
    ensures AllWellNamed(up)
  {
    forall token | GoodToken(token) && OutputsOf(up, token).Some? ensures WellNamed(OutputsOf(up, token).value) {
      var id := up.parse(token).value;
      var i :| 0 <= i < |nodes| && id == env.supply(i);
      var c := SomeChosen(env.candidates, nodes[i].nodeType);
      assert up.outputs[id] == env.candidates[c].outputs;
    }
  }

  /** The parameters of each node are its own: the same tree, keys and text, with each reference resolved. */
  lemma EditParamsExactly(doc: EditDoc, env: Env, i: nat)
    requires BuiltFrom(doc, env).Built? && i < |doc.nodes|
    requires Injective(env.supply) && Shows(env.show) && OutputsWellNamed(env.candidates)
    ensures ParamsResolved(doc.nodes, env, doc.nodes[i].params, BuiltFrom(doc, env).workflow.nodes[i].params)
  {
    BuiltHasRefs(doc, env);
    InstancesByRef(doc.nodes, env.supply);
    forall t, c | Chosen(env.candidates, c, t)
      ensures t in ByType(env.candidates) && ByType(env.candidates)[t] == env.candidates[c]
    {
      ByTypeExactly(env.candidates, t);
    }
    OutputsExactly(doc.nodes, ByType(env.candidates), env);
    var refs, up := InstanceByRef(doc.nodes, env.supply), UpstreamOf(doc, env);
    ReachIsWellNamed(doc.nodes, env, up);
    BothResolve(doc.nodes[i].params, refs, env.show, up);
  }

  /** Neither a ref of the answer nor the id of a new instance. */
  ghost function Elsewhere(nodes: seq<EditNode>, env: Env): Ref -> bool {
    (r: Ref) => r.token !in RefsOf(nodes)
                && (env.parse(r.token).Some? ==> forall j :: 0 <= j < |nodes| ==> env.parse(r.token).value != env.supply(j))
  }

  lemma OtherIsFixed(nodes: seq<EditNode>, types: map<string, Candidate>, env: Env, r: Ref)
    requires forall i :: 0 <= i < |nodes| ==> nodes[i].nodeType in types
    requires Elsewhere(nodes, env)(r)
    ensures r.token !in InstanceByRef(nodes, env.supply)
    ensures OutputsOf(Upstream(env.parse, OutputsByInstance(nodes, types, env.supply)), r.token).None?
  {
    RefsSoFar(nodes, env.supply, r.token);
    if env.parse(r.token).Some? && env.parse(r.token).value in OutputsByInstance(nodes, types, env.supply) {
      OutputsOnlyOfNew(nodes, types, env.supply, env.parse(r.token).value);
    }
  }

  lemma IdleBoth(v: Json, other: Ref -> bool, refs: map<string, Uuid>, show: Uuid -> string, up: Upstream)
    requires AllRefs(v, other) && forall r :: other(r) ==> r.token !in refs && OutputsOf(up, r.token).None?
    ensures GroundRefFields(RewriteRefs(v, refs, show), up) == v
  {
    AllRefsWeaken(v, other, Fixes(Rewriter(refs, show)));
    AllRefsWeaken(v, other, Fixes(Grounder(up)));
    OnJsonIdle(v, Rewriter(refs, show));
    OnJsonIdle(v, Grounder(up));
  }

  /** Parameters whose references all point elsewhere, in particular those without references, come out unchanged. */
  lemma EditKeepsOtherParams(doc: EditDoc, env: Env, i: nat)
    requires BuiltFrom(doc, env).Built? && i < |doc.nodes|
    requires AllRefs(doc.nodes[i].params, Elsewhere(doc.nodes, env))
    ensures BuiltFrom(doc, env).workflow.nodes[i].params == doc.nodes[i].params
  {
    var other := Elsewhere(doc.nodes, env);
    forall r | other(r)
      ensures r.token !in InstanceByRef(doc.nodes, env.supply) && OutputsOf(UpstreamOf(doc, env), r.token).None?
    {
      OtherIsFixed(doc.nodes, ByType(env.candidates), env, r);
    }
    IdleBoth(doc.nodes[i].params, other, InstanceByRef(doc.nodes, env.supply), env.show, UpstreamOf(doc, env));
  }

  // ---------------------------------------------------------------- a fresh draft

  function HasCandidate(candidates: seq<Candidate>): DraftNode -> bool {
    (n: DraftNode) => Known(candidates, n.nodeType)
  }

  /** The nodes of a draft that there is a candidate for. */
  function KeptOf(draft: DraftDoc, env: Env): seq<DraftNode> {
    Filter(HasCandidate(env.candidates), draft.nodes)
  }

  /** Each node known by its type. */
  function ByTheirTypes(nodes: seq<DraftNode>): (shown: seq<EditNode>)
    ensures |shown| == |nodes|
    ensures forall i :: 0 <= i < |nodes| ==> shown[i] == EditNode(nodes[i].nodeType, nodes[i].nodeType, nodes[i].params)
  {
    seq(|nodes|, i requires 0 <= i < |nodes| => EditNode(nodes[i].nodeType, nodes[i].nodeType, nodes[i].params))
  }

  lemma {:induction false} KeptExactly(nodes: seq<DraftNode>, candidates: seq<Candidate>)
    ensures KeptNodes(nodes, ByType(candidates)) == ByTheirTypes(Filter(HasCandidate(candidates), nodes))
    decreases |nodes|
  {
    if nodes != [] {
      var n := |nodes| - 1;
      KeptExactly(nodes[..n], candidates);
      ByTypeExactly(candidates, nodes[n].nodeType);
    }
  }

  /** What is reported as dropped are the types of the other nodes, in order. */
  lemma {:induction false} DroppedExactly(nodes: seq<DraftNode>, candidates: seq<Candidate>)
    ensures var others, dropped := Filter((n: DraftNode) => !Known(candidates, n.nodeType), nodes),
                                   DroppedTypes(nodes, ByType(candidates));
            |dropped| == |others| && forall i :: 0 <= i < |others| ==> dropped[i] == others[i].nodeType
    decreases |nodes|
  {
    if nodes != [] {
      var n := |nodes| - 1;
      DroppedExactly(nodes[..n], candidates);
      ByTypeExactly(candidates, nodes[n].nodeType);
    }
  }

  function AsEdit(draft: DraftDoc, env: Env): EditDoc {
    EditDoc(draft.name, ByTheirTypes(KeptOf(draft, env)), draft.edges)
  }

  lemma DraftIsEdit(draft: DraftDoc, env: Env)
    ensures DraftBuilt(draft, env).Built? <==> BuiltFrom(AsEdit(draft, env), env).Built?
    ensures DraftBuilt(draft, env).Built? ==> DraftBuilt(draft, env) == BuiltFrom(AsEdit(draft, env), env)
    ensures forall t :: BuiltFrom(AsEdit(draft, env), env) == Failed(DuplicateRef(t)) ==>
              DraftBuilt(draft, env) == Failed(DuplicateNodeType(t))
  {
    KeptExactly(draft.nodes, env.candidates);
  }

  predicate TypeTaken(kept: seq<DraftNode>, k: nat)
    requires k < |kept|
  {
    exists j :: 0 <= j < k && kept[j].nodeType == kept[k].nodeType
  }

  lemma KeptAreKnown(draft: DraftDoc, env: Env)
    ensures forall i :: 0 <= i < |KeptOf(draft, env)| ==> Known(env.candidates, KeptOf(draft, env)[i].nodeType)
  {
    var kept := KeptOf(draft, env);
    forall i | 0 <= i < |kept| ensures Known(env.candidates, kept[i].nodeType) {
      assert kept[i] in kept;
      FilterMember(HasCandidate(env.candidates), draft.nodes, kept[i]);
    }
  }

  /** A draft fails exactly when a type that there is a candidate for occurs twice, and names the first type that
      occurs again. */
  lemma DraftFailsExactly(draft: DraftDoc, env: Env, k: nat)
    ensures var kept := KeptOf(draft, env);
            && (DraftBuilt(draft, env).Built? <==> forall j :: 0 <= j < |kept| ==> !TypeTaken(kept, j))
            && (k < |kept| && TypeTaken(kept, k) && (forall j :: 0 <= j < k ==> !TypeTaken(kept, j)) ==>
                  DraftBuilt(draft, env) == Failed(DuplicateNodeType(kept[k].nodeType)))
  {
    var kept, doc := KeptOf(draft, env), AsEdit(draft, env);
    DraftIsEdit(draft, env);
    EditFailsExactly(doc, env, k);
    KeptAreKnown(draft, env);
    forall j | 0 <= j < |kept| ensures Bad(doc.nodes, j, env.candidates) <==> TypeTaken(kept, j) {
      assert RefTaken(doc.nodes, j) <==> TypeTaken(kept, j);
    }
  }

  /** The nodes built of a draft are those there is a candidate for, in order: each with the next new instance, its
      candidate's id, and nothing bound. */
  lemma DraftNodesExactly(draft: DraftDoc, env: Env)
    requires DraftBuilt(draft, env).Built?
    ensures var w, kept := DraftBuilt(draft, env).workflow, KeptOf(draft, env);
            && w.name == draft.name && |w.nodes| == |kept|
            && forall i, c :: 0 <= i < |kept| && Chosen(env.candidates, c, kept[i].nodeType) ==>
                 && w.nodes[i].instance == env.supply(i) && w.nodes[i].bound == UNBOUND
                 && w.nodes[i].nodeId == env.candidates[c].nodeId
  {
    DraftIsEdit(draft, env);
    var doc := AsEdit(draft, env);
    EditNodesExactly(doc, env);
  }

  /** `l` is `e` with its ends replaced by the new instances of the nodes of these types. */
  ghost predicate JoinsTypes(kept: seq<DraftNode>, supply: nat -> Uuid, e: Link<string>, l: Link<Uuid>) {
    && l.fromHandle == e.fromHandle && l.toHandle == e.toHandle
    && (exists i :: 0 <= i < |kept| && kept[i].nodeType == e.from && supply(i) == l.from)
    && (exists j :: 0 <= j < |kept| && kept[j].nodeType == e.to && supply(j) == l.to)
  }

  function TypesOf(kept: seq<DraftNode>): set<string> {
    set i | 0 <= i < |kept| :: kept[i].nodeType
  }

  /** Its connections are exactly those between two types of such nodes, in order, with their handles. */
  lemma DraftLinksExactly(draft: DraftDoc, env: Env)
    requires DraftBuilt(draft, env).Built?
    ensures var w, kept := DraftBuilt(draft, env).workflow, KeptOf(draft, env);
            var said := Filter(BothIn(TypesOf(kept)), draft.edges);
            |w.edges| == |said| && forall k :: 0 <= k < |said| ==> JoinsTypes(kept, env.supply, said[k], w.edges[k])
  {
    DraftIsEdit(draft, env);
    var w, doc, kept := DraftBuilt(draft, env).workflow, AsEdit(draft, env), KeptOf(draft, env);
    EditLinksExactly(doc, env);
    assert RefsOf(doc.nodes) == TypesOf(kept) by {
      assert forall i :: 0 <= i < |kept| ==> doc.nodes[i].ref == kept[i].nodeType;
      forall t | t in TypesOf(kept) ensures t in RefsOf(doc.nodes) {
        var i :| 0 <= i < |kept| && kept[i].nodeType == t;
        assert doc.nodes[i].ref == t;
      }
    }
    var said := Filter(BothIn(TypesOf(kept)), draft.edges);
    forall k | 0 <= k < |said| ensures JoinsTypes(kept, env.supply, said[k], w.edges[k]) {
      JoinedTypes(kept, env.supply, said[k], w.edges[k]);
    }
  }

  lemma JoinedTypes(kept: seq<DraftNode>, supply: nat -> Uuid, e: Link<string>, l: Link<Uuid>)
    requires Joins(ByTheirTypes(kept), supply, e, l)
    ensures JoinsTypes(kept, supply, e, l)
  {
    var nodes := ByTheirTypes(kept);
    var i :| 0 <= i < |nodes| && nodes[i].ref == e.from && supply(i) == l.from;
    var j :| 0 <= j < |nodes| && nodes[j].ref == e.to && supply(j) == l.to;
    assert kept[i].nodeType == e.from && kept[j].nodeType == e.to;
  }

  /** Its parameters are the draft's own: with well-named outputs the same tree, keys and text, in which each type of
      such a node has become the id of the node's new instance and each path into it is led to an output; and, with
      any outputs, nothing has changed where no reference is to such a type or to a new instance. */
  lemma DraftParamsExactly(draft: DraftDoc, env: Env, i: nat)
    requires DraftBuilt(draft, env).Built? && i < |KeptOf(draft, env)|
    ensures i < |DraftBuilt(draft, env).workflow.nodes|
    ensures var v, built := KeptOf(draft, env)[i].params, DraftBuilt(draft, env).workflow.nodes[i].params;
            var nodes := ByTheirTypes(KeptOf(draft, env));
            && (Injective(env.supply) && Shows(env.show) && OutputsWellNamed(env.candidates) ==>
                  ParamsResolved(nodes, env, v, built))
            && (AllRefs(v, Elsewhere(nodes, env)) ==> built == v)
  {
    DraftIsEdit(draft, env);
    var doc := AsEdit(draft, env);
    EditNodesExactly(doc, env);
    if Injective(env.supply) && Shows(env.show) && OutputsWellNamed(env.candidates) { EditParamsExactly(doc, env, i); }
    if AllRefs(doc.nodes[i].params, Elsewhere(doc.nodes, env)) { EditKeepsOtherParams(doc, env, i); }
  }

  /** With any outputs: references to the new instances are grounded when single outputs have no brace in their
      names. */
  lemma DraftReferencesResolve(draft: DraftDoc, env: Env, i: nat)
    requires DraftBuilt(draft, env).Built? && i < |KeptOf(draft, env)| && Shows(env.show)
    ensures BuiltFrom(AsEdit(draft, env), env).Built? && i < |DraftBuilt(draft, env).workflow.nodes|
    ensures var up := UpstreamOf(AsEdit(draft, env), env);
            var params := DraftBuilt(draft, env).workflow.nodes[i].params;
            && (NoBraceInReach(up) ==> AllRefs(params, IsGrounded(up)))
            && (AllWellNamed(up) ==> SameShape(KeptOf(draft, env)[i].params, params))
  {
    DraftIsEdit(draft, env);
    EditNodesExactly(AsEdit(draft, env), env);
    BuiltReferencesResolve(AsEdit(draft, env), env, i);
  }
}
