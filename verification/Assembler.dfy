/** Deterministic assembly of a workflow skeleton from extracted entities
    (modules/ai_agent/domain/services/skeleton_assembler.py). */
module Assembler {
  import opened Basics
  import opened Graph
  import opened Library

  // ---------------------------------------------------------------- data

  /** `source_3`, or `artifact_0` in a content delivery. */
  datatype Ref = At(role: Role, index: nat) | Artifact(index: nat)

  datatype Node = Node(ref: Ref, nodeType: string, role: Role)
  datatype Warning = Unfilled(role: Role) | GateIgnored
  datatype Draft = Draft(name: Name, nodes: seq<Node>, edges: seq<Link<Ref>>, warnings: seq<Warning>)

  datatype Entities = Entities(
    trigger: Option<string>, sources: seq<string>, transforms: seq<string>, sinks: seq<string>,
    needsGate: bool, hasBranch: bool, hasFanout: bool, hasRetry: bool, hasApproval: bool, hasGuard: bool)

  /** The other inputs of an assembly: how many intent keywords of each template the utterance has, the
      ranked retrieval candidates, and the picks of the ensemble for each role. */
  datatype Signals = Signals(score: Name -> nat, grounding: seq<string>, resolved: map<Role, seq<string>>)

  /** What the extractor can yield: members of the role pools, each sink once. */
  ghost predicate Extracted(e: Entities) {
    && (forall x :: x in e.sources ==> x in SOURCES)
    && (forall x :: x in e.transforms ==> x in AI)
    && (forall x :: x in e.sinks ==> x in SINKS)
    && Distinct(e.sinks)
  }

  const PDF: string := "pdf_generate"
  const FILE_WRITE: string := "file_write"
  const DEFAULT_CONTENT_SINK: string := "google_docs_write"

  predicate IsArtifactSink(nodeType: string) {
    nodeType == PDF || nodeType == FILE_WRITE
  }

  function Refs(nodes: seq<Node>): (refs: seq<Ref>)
    ensures |refs| == |nodes|
  {
    if nodes == [] then [] else Refs(nodes[..|nodes| - 1]) + [nodes[|nodes| - 1].ref]
  }

  lemma {:induction false} RefAt(nodes: seq<Node>, i: nat)
    requires i < |nodes|
    ensures Refs(nodes)[i] == nodes[i].ref
  {
    if i < |nodes| - 1 { RefAt(nodes[..|nodes| - 1], i); }
  }

  function NodesFor(role: Role, types: seq<string>): (nodes: seq<Node>)
    ensures |nodes| == |types|
    ensures forall i :: 0 <= i < |types| ==> nodes[i] == Node(At(role, i), types[i], role)
  {
    seq(|types|, i requires 0 <= i < |types| => Node(At(role, i), types[i], role))
  }

  // ---------------------------------------------------------------- filling slots

  function Materials(role: Role, e: Entities): seq<string> {
    match role
    case Trigger => if e.trigger.Some? then [e.trigger.value] else []
    case Source => e.sources
    case Transform => e.transforms
    case Sink => e.sinks
    case Gate => if e.needsGate then [CONDITION] else []
    case _ => []
  }

  function Among(types: seq<string>, pool: seq<string>): seq<string> {
    Filter((t: string) => t in pool, types)
  }

  function Besides(types: seq<string>, taken: seq<string>): seq<string> {
    Filter((t: string) => t !in taken, types)
  }

  function AtMostOne<T>(s: seq<T>): seq<T> {
    if s == [] then [] else s[..1]
  }

  /** The ensemble's picks that the slot admits. */
  function Picks(s: Slot, sig: Signals): seq<string> {
    if s.role in sig.resolved then Among(sig.resolved[s.role], s.candidates) else []
  }

  /** The ensemble before the words of the utterance; a sink named there is kept beside the picks. */
  function Voiced(s: Slot, e: Entities, sig: Signals): seq<string> {
    var said, picks := Among(Materials(s.role, e), s.candidates), Picks(s, sig);
    if picks == [] then said
    else if s.role == Sink then picks + Besides(said, picks)
    else picks
  }

  function Groundable(role: Role): bool {
    role == Source || role == Sink
  }

  function Fill(s: Slot, e: Entities, sig: Signals): seq<string> {
    var voiced := Voiced(s, e, sig);
    var grounded :=
      if voiced == [] && Groundable(s.role) then AtMostOne(Among(sig.grounding, s.candidates)) else voiced;
    var cut := if s.one then AtMostOne(grounded) else grounded;
    if cut == [] && s.required && s.fallback.Some? then [s.fallback.value] else cut
  }

  method FillSlot(s: Slot, e: Entities, sig: Signals) returns (mats: seq<string>)
    ensures mats == Fill(s, e, sig)
  {
    mats := Among(Materials(s.role, e), s.candidates);
    if s.role in sig.resolved && sig.resolved[s.role] != [] {
      var ens := Among(sig.resolved[s.role], s.candidates);
      if ens != [] {
        if s.role == Sink {
          mats := ens + Besides(mats, ens);
        } else {
          mats := ens;
        }
      }
    }
    if mats == [] && sig.grounding != [] && Groundable(s.role) {
      mats := AtMostOne(Among(sig.grounding, s.candidates));
    }
    if s.one {
      mats := AtMostOne(mats);
    }
    if mats == [] && s.required {
      if s.fallback.Some? {
        mats := [s.fallback.value];
      }
    }
  }

  /** `by_role` after these slots. */
  function Collected(slots: seq<Slot>, e: Entities, sig: Signals): map<Role, seq<Node>>
    decreases |slots|
  {
    if slots == [] then map[]
    else
      var s := slots[|slots| - 1];
      var before := Collected(slots[..|slots| - 1], e, sig);
      if Fill(s, e, sig) == [] then before else before[s.role := NodesFor(s.role, Fill(s, e, sig))]
  }

  function Missing(slots: seq<Slot>, e: Entities, sig: Signals): seq<Warning>
    decreases |slots|
  {
    if slots == [] then []
    else
      var s := slots[|slots| - 1];
      Missing(slots[..|slots| - 1], e, sig) + if s.required && Fill(s, e, sig) == [] then [Unfilled(s.role)] else []
  }

  method Collect(slots: seq<Slot>, e: Entities, sig: Signals)
    returns (byRole: map<Role, seq<Node>>, warnings: seq<Warning>)
    ensures byRole == Collected(slots, e, sig) && warnings == Missing(slots, e, sig)
  {
    byRole, warnings := map[], [];
    for k := 0 to |slots|
      invariant byRole == Collected(slots[..k], e, sig) && warnings == Missing(slots[..k], e, sig)
    {
      var s := slots[k];
      assert slots[..k + 1][..k] == slots[..k];
      var mats := FillSlot(s, e, sig);
      if mats == [] && s.required {
        warnings := warnings + [Unfilled(s.role)];
        continue;
      }
      if mats != [] {
        byRole := byRole[s.role := NodesFor(s.role, mats)];
      }
    }
    assert slots[..|slots|] == slots;
  }

  /** `by_role.get(role, [])`. */
  function Got(byRole: map<Role, seq<Node>>, role: Role): seq<Node> {
    if role in byRole then byRole[role] else []
  }

  /** The nodes a template gets for a role. */
  function Filled(name: Name, role: Role, e: Entities, sig: Signals): seq<Node> {
    Got(Collected(SlotsOf(name), e, sig), role)
  }

  lemma {:induction false} GotSlot(slots: seq<Slot>, i: nat, e: Entities, sig: Signals)
    requires DistinctRoles(slots) && i < |slots|
    ensures Got(Collected(slots, e, sig), slots[i].role) == NodesFor(slots[i].role, Fill(slots[i], e, sig))
    decreases |slots|
  {
    var n := |slots| - 1;
    if i < n {
      assert slots[..n][i] == slots[i] && slots[n].role != slots[i].role;
      GotSlot(slots[..n], i, e, sig);
    } else {
      GotNothing(slots[..n], slots[n].role, e, sig);
    }
  }

  lemma {:induction false} GotNothing(slots: seq<Slot>, role: Role, e: Entities, sig: Signals)
    requires forall i :: 0 <= i < |slots| ==> slots[i].role != role
    ensures role !in Collected(slots, e, sig)
    decreases |slots|
  {
    if slots != [] { GotNothing(slots[..|slots| - 1], role, e, sig); }
  }

  /** What a template's slot is filled with. */
  lemma FilledSlot(name: Name, i: nat, e: Entities, sig: Signals)
    requires i < |SlotsOf(name)|
    ensures var s := SlotsOf(name)[i];
            && Filled(name, s.role, e, sig) == NodesFor(s.role, Fill(s, e, sig))
            && (s.required && s.fallback.Some? ==> Fill(s, e, sig) != [])
            && (s.one ==> |Fill(s, e, sig)| <= 1)
  {
    RolesAreDistinct(name);
    GotSlot(SlotsOf(name), i, e, sig);
  }

  lemma AmongAll(types: seq<string>, pool: seq<string>)
    requires forall t :: t in types ==> t in pool
    ensures Among(types, pool) == types
  {
    FilterAll((t: string) => t in pool, types);
  }

  /** Every sink the extractor found is collected, whatever the ensemble picked or retrieval ranked. */
  lemma SinksAreCollected(required: bool, e: Entities, sig: Signals)
    requires Extracted(e)
    ensures forall x :: x in e.sinks ==> x in Fill(SinkSlot(required), e, sig)
  {
    var s := SinkSlot(required);
    var said, picks := Among(e.sinks, SINKS), Picks(s, sig);
    FilterKeeps((t: string) => t in SINKS, e.sinks);
    FilterKeeps((t: string) => t !in picks, said);
  }

  lemma TwoSinksAreCollected(required: bool, e: Entities, sig: Signals)
    requires Extracted(e) && |e.sinks| == 2
    ensures |Fill(SinkSlot(required), e, sig)| >= 2
  {
    SinksAreCollected(required, e, sig);
    TwoMembers(Fill(SinkSlot(required), e, sig), e.sinks[0], e.sinks[1]);
  }

  lemma TwoMembers(s: seq<string>, x: string, y: string)
    requires x in s && y in s && x != y
    ensures |s| >= 2
  {}

  // ---------------------------------------------------------------- wiring

  /** A list of nodes in a row. */
  function Chain(nodes: seq<Node>): seq<Link<Ref>> {
    var n := |nodes| - 1;
    if n <= 0 then [] else Chain(nodes[..n]) + [Plain(nodes[n - 1].ref, nodes[n].ref)]
  }

  /** One node to each of several. */
  function Fan(from: Ref, nodes: seq<Node>, handle: Handle): seq<Link<Ref>> {
    var n := |nodes| - 1;
    if n < 0 then [] else Fan(from, nodes[..n], handle) + [Link(from, nodes[n].ref, handle, Input)]
  }

  function Upstream(from: Ref, row: seq<Node>, k: nat): Ref
    requires k <= |row|
  {
    if k == 0 then from else row[k - 1].ref
  }

  /** From `from` through the nodes in a row; only the first connection leaves by `handle`. */
  function RowFrom(from: Ref, handle: Handle, row: seq<Node>): seq<Link<Ref>> {
    var n := |row| - 1;
    if n < 0 then []
    else
      RowFrom(from, handle, row[..n])
      + [Link(Upstream(from, row, n), row[n].ref, if n == 0 then handle else Output, Input)]
  }

  /** From `from` through the artifact sinks in a row, then from the last to each delivery sink; without
      artifacts, to every sink. */
  function SinkLinks(from: Ref, handle: Handle, sinks: seq<Node>): seq<Link<Ref>> {
    var artifacts := Artifacts(sinks);
    if artifacts == [] then Fan(from, sinks, handle)
    else RowFrom(from, handle, artifacts) + Fan(Last(artifacts), Deliveries(sinks), Output)
  }

  function Artifacts(sinks: seq<Node>): seq<Node> {
    Filter((s: Node) => IsArtifactSink(s.nodeType), sinks)
  }

  function Deliveries(sinks: seq<Node>): seq<Node> {
    Filter((s: Node) => !IsArtifactSink(s.nodeType), sinks)
  }

  function Last(nodes: seq<Node>): Ref
    requires nodes != []
  {
    nodes[|nodes| - 1].ref
  }

  /** The list of edges that the assembly methods append to. */
  class Wiring {
    var edges: seq<Link<Ref>>

    constructor ()
      ensures edges == []
    {
      edges := [];
    }

    method Connect(from: Ref, to: Ref, handle: Handle)
      modifies this
      ensures edges == old(edges) + [Link(from, to, handle, Input)]
    {
      edges := edges + [Link(from, to, handle, Input)];
    }

    /** `_chain`. */
    method Row(nodes: seq<Node>)
      modifies this
      ensures edges == old(edges) + Chain(nodes)
    {
      var k := 1;
      while k < |nodes|
        invariant |nodes| > 0 ==> 1 <= k <= |nodes| && edges == old(edges) + Chain(nodes[..k])
        invariant |nodes| == 0 ==> edges == old(edges)
      {
        assert nodes[..k + 1][..k] == nodes[..k];
        Connect(nodes[k - 1].ref, nodes[k].ref, Output);
        k := k + 1;
      }
      assert nodes[..|nodes|] == nodes;
    }

    method Each(from: Ref, nodes: seq<Node>, handle: Handle)
      modifies this
      ensures edges == old(edges) + Fan(from, nodes, handle)
    {
      for k := 0 to |nodes|
        invariant edges == old(edges) + Fan(from, nodes[..k], handle)
      {
        assert nodes[..k + 1][..k] == nodes[..k];
        Connect(from, nodes[k].ref, handle);
      }
      assert nodes[..|nodes|] == nodes;
    }

    method Through(from: Ref, handle: Handle, row: seq<Node>) returns (last: Ref)
      requires row != []
      modifies this
      ensures edges == old(edges) + RowFrom(from, handle, row) && last == Last(row)
    {
      last := from;
      var upHandle := handle;
      for k := 0 to |row|
        invariant last == Upstream(from, row, k) && upHandle == if k == 0 then handle else Output
        invariant edges == old(edges) + RowFrom(from, handle, row[..k])
      {
        assert row[..k + 1][..k] == row[..k];
        Connect(last, row[k].ref, upHandle);
        last, upHandle := row[k].ref, Output;
      }
      assert row[..|row|] == row;
    }

    /** `fan_sinks`. */
    method FanSinks(from: Ref, handle: Handle, sinks: seq<Node>)
      modifies this
      ensures edges == old(edges) + SinkLinks(from, handle, sinks)
    {
      var artifacts, deliveries := Artifacts(sinks), Deliveries(sinks);
      if artifacts == [] {
        Each(from, sinks, handle);
        return;
      }
      var last := Through(from, handle, artifacts);
      Each(last, deliveries, Output);
    }

    /** The edges from the generator to the evaluator. */
    method Judge(gen: Ref, scorer: seq<Node>, evaluator: Ref)
      modifies this
      ensures edges == old(edges) + Judging(gen, scorer, evaluator)
    {
      if scorer != [] {
        var judge := scorer[0].ref;
        Connect(gen, judge, Output);
        Connect(judge, evaluator, Output);
      } else {
        Connect(gen, evaluator, Output);
      }
    }
  }

  // ---------------------------------------------------------------- linear and quality loop

  datatype Lists = Lists(
    trigger: seq<Node>, sources: seq<Node>, transforms: seq<Node>, scorer: seq<Node>, gate: seq<Node>,
    sinks: seq<Node>)

  /** A content producer without an output channel gets a default document sink. */
  function LinearSinks(transforms: seq<Node>, gate: seq<Node>, sinks: seq<Node>): seq<Node> {
    if transforms != [] && sinks == [] && gate == [] then NodesFor(Sink, [DEFAULT_CONTENT_SINK]) else sinks
  }

  function LinearLists(name: Name, e: Entities, sig: Signals): Lists {
    var transforms, gate := Filled(name, Transform, e, sig), Filled(name, Gate, e, sig);
    Lists(Filled(name, Trigger, e, sig), Filled(name, Source, e, sig), transforms, Filled(name, Scorer, e, sig), gate,
          LinearSinks(transforms, gate, Filled(name, Sink, e, sig)))
  }

  predicate Loops(l: Lists) {
    l.gate != [] && l.transforms != []
  }

  /** From the generator to the evaluator, through the scorer if there is one. */
  function Judging(gen: Ref, scorer: seq<Node>, evaluator: Ref): seq<Link<Ref>> {
    if scorer == [] then [Plain(gen, evaluator)]
    else [Plain(gen, scorer[0].ref), Plain(scorer[0].ref, evaluator)]
  }

  function LinearEdges(l: Lists): seq<Link<Ref>> {
    var spine := l.trigger + l.sources + l.transforms;
    if Loops(l) then
      var gen, evaluator := Last(l.transforms), l.gate[0].ref;
      Chain(spine) + Judging(gen, l.scorer, evaluator) + [Link(evaluator, gen, IfFalse, Input)]
      + SinkLinks(evaluator, IfTrue, l.sinks)
    else if spine != [] then Chain(spine) + SinkLinks(Last(spine), Output, l.sinks)
    else Chain(l.sinks)
  }

  function LinearNodes(l: Lists): seq<Node> {
    if l.gate != [] && l.transforms == [] then l.trigger + l.sources + l.transforms + l.sinks
    else l.trigger + l.sources + l.transforms + l.scorer + l.sinks + l.gate
  }

  function LinearDraft(name: Name, e: Entities, sig: Signals): Draft {
    var l := LinearLists(name, e, sig);
    var ignored := if l.gate != [] && l.transforms == [] then [GateIgnored] else [];
    Draft(name, LinearNodes(l), LinearEdges(l), Missing(SlotsOf(name), e, sig) + ignored)
  }

  method WireLinear(l: Lists) returns (edges: seq<Link<Ref>>)
    ensures edges == LinearEdges(l)
  {
    var wiring := new Wiring();
    var spine := l.trigger + l.sources + l.transforms;
    wiring.Row(spine);
    assert wiring.edges == Chain(spine);
    if l.gate != [] && l.transforms != [] {
      var gen, evaluator := Last(l.transforms), l.gate[0].ref;
      wiring.Judge(gen, l.scorer, evaluator);
      wiring.Connect(evaluator, gen, IfFalse);
      wiring.FanSinks(evaluator, IfTrue, l.sinks);
    } else if spine != [] {
      wiring.FanSinks(Last(spine), Output, l.sinks);
    } else {
      wiring.Row(l.sinks);
    }
    edges := wiring.edges;
  }

  method FillLinear(name: Name, e: Entities, sig: Signals) returns (l: Lists, warnings: seq<Warning>)
    ensures l == LinearLists(name, e, sig) && warnings == Missing(SlotsOf(name), e, sig)
  {
    var found;
    found, warnings := Collect(SlotsOf(name), e, sig);
    var transforms, gate, sinks := Got(found, Transform), Got(found, Gate), Got(found, Sink);
    if transforms != [] && sinks == [] && gate == [] {
      sinks := NodesFor(Sink, [DEFAULT_CONTENT_SINK]);
    }
    l := Lists(Got(found, Trigger), Got(found, Source), transforms, Got(found, Scorer), gate, sinks);
  }

  method AssembleLinear(name: Name, e: Entities, sig: Signals) returns (d: Draft)
    ensures d == LinearDraft(name, e, sig)
  {
    var l, warnings := FillLinear(name, e, sig);
    var nodes := l.trigger + l.sources + l.transforms + l.scorer + l.sinks + l.gate;
    if l.gate != [] && l.transforms == [] {
      warnings := warnings + [GateIgnored];
      nodes := l.trigger + l.sources + l.transforms + l.sinks;
    }
    var edges := WireLinear(l);
    d := Draft(name, nodes, edges, warnings);
  }

  // ---------------------------------------------------------------- content delivery

  function ArtifactNodes(types: seq<string>): (nodes: seq<Node>)
    ensures |nodes| == |types| && forall i :: 0 <= i < |types| ==> nodes[i] == Node(Artifact(i), types[i], Sink)
  {
    seq(|types|, i requires 0 <= i < |types| => Node(Artifact(i), types[i], Sink))
  }

  const PRODUCER: Node := Node(At(Transform, 0), GEMMA, Transform)

  function DeliveryDraft(e: Entities): Draft {
    var artifacts := ArtifactNodes(Filter((t: string) => IsArtifactSink(t), e.sinks));
    var deliveries := NodesFor(Sink, Filter((t: string) => !IsArtifactSink(t), e.sinks));
    var row := [PRODUCER] + artifacts;
    Draft(ContentDelivery, row + deliveries, Chain(row) + Fan(Last(row), deliveries, Output), [])
  }

  method PlaceArtifacts(types: seq<string>) returns (nodes: seq<Node>, edges: seq<Link<Ref>>, upstream: Node)
    ensures nodes == [PRODUCER] + ArtifactNodes(types) && upstream == nodes[|types|]
    ensures edges == Chain(nodes)
  {
    nodes, edges, upstream := [PRODUCER], [], PRODUCER;
    for i := 0 to |types|
      invariant nodes == [PRODUCER] + ArtifactNodes(types[..i]) && upstream == nodes[i]
      invariant edges == Chain(nodes)
    {
      var node := Node(Artifact(i), types[i], Sink);
      ghost var before := nodes;
      nodes := nodes + [node];
      assert nodes[..i + 1] == before;
      edges := edges + [Plain(upstream.ref, node.ref)];
      upstream := node;
    }
    assert types[..|types|] == types;
  }

  method PlaceDeliveries(upstream: Node, types: seq<string>) returns (nodes: seq<Node>, edges: seq<Link<Ref>>)
    ensures nodes == NodesFor(Sink, types) && edges == Fan(upstream.ref, nodes, Output)
  {
    nodes, edges := [], [];
    for i := 0 to |types|
      invariant nodes == NodesFor(Sink, types[..i]) && edges == Fan(upstream.ref, nodes, Output)
    {
      var node := Node(At(Sink, i), types[i], Sink);
      ghost var before := nodes;
      nodes := nodes + [node];
      assert nodes[..i] == before;
      edges := edges + [Plain(upstream.ref, node.ref)];
    }
    assert types[..|types|] == types;
  }

  method AssembleContentDelivery(e: Entities) returns (d: Draft)
    ensures d == DeliveryDraft(e)
  {
    var artifacts := Filter((t: string) => IsArtifactSink(t), e.sinks);
    var deliveries := Filter((t: string) => !IsArtifactSink(t), e.sinks);
    var nodes, edges, upstream := PlaceArtifacts(artifacts);
    var tail, fan := PlaceDeliveries(upstream, deliveries);
    d := Draft(ContentDelivery, nodes + tail, edges + fan, []);
  }

  // ---------------------------------------------------------------- branch, guard and approval

  /** In the templates with a router, trigger and router are one node each. */
  lemma RouterFilled(name: Name, e: Entities, sig: Signals)
    requires Extracted(e) && e.sinks != [] && name in {BranchOnClassification, ConditionalAction, ApprovalGate}
    ensures |Filled(name, Trigger, e, sig)| == 1 && |Filled(name, Router, e, sig)| == 1
    ensures name != ConditionalAction ==> |Filled(name, Transform, e, sig)| == 1
    ensures name != BranchOnClassification ==> |Filled(name, Terminal, e, sig)| == 1
    ensures Filled(name, Sink, e, sig) == NodesFor(Sink, Fill(SinkSlot(true), e, sig))
    ensures Filled(name, Sink, e, sig) != [] && (|e.sinks| == 2 ==> |Filled(name, Sink, e, sig)| >= 2)
  {
    FilledSlot(name, 0, e, sig);
    FilledSlot(name, 2, e, sig);
    FilledSlot(name, 3, e, sig);
    FilledSlot(name, 4, e, sig);
    if name != BranchOnClassification { FilledSlot(name, 5, e, sig); }
    SinksAreCollected(true, e, sig);
    assert e.sinks[0] in Fill(SinkSlot(true), e, sig);
    if |e.sinks| == 2 { TwoSinksAreCollected(true, e, sig); }
  }

  function Spine(name: Name, e: Entities, sig: Signals): seq<Node> {
    Filled(name, Trigger, e, sig) + Filled(name, Source, e, sig) + Filled(name, Transform, e, sig)
  }

  function BranchDraft(e: Entities, sig: Signals): Option<Draft>
    requires Extracted(e)
  {
    if |e.sinks| != 2 || Missing(SlotsOf(BranchOnClassification), e, sig) != [] then None
    else
      RouterFilled(BranchOnClassification, e, sig);
      var spine, router := Spine(BranchOnClassification, e, sig), Filled(BranchOnClassification, Router, e, sig);
      var sinks := Filled(BranchOnClassification, Sink, e, sig);
      Some(Draft(BranchOnClassification, spine + router + sinks,
                 Chain(spine) + [Plain(Last(spine), router[0].ref)]
                 + [Link(router[0].ref, sinks[0].ref, IfTrue, Input)]
                 + [Link(router[0].ref, sinks[1].ref, IfFalse, Input)],
                 []))
  }

  method AssembleBranch(e: Entities, sig: Signals) returns (d: Option<Draft>)
    requires Extracted(e)
    ensures d == BranchDraft(e, sig)
  {
    if |e.sinks| != 2 {
      return None;
    }
    var found, warnings := Collect(SlotsOf(BranchOnClassification), e, sig);
    if warnings != [] {
      return None;
    }
    RouterFilled(BranchOnClassification, e, sig);
    var trigger, sources, classifier := Got(found, Trigger), Got(found, Source), Got(found, Transform);
    var router, sinks := Got(found, Router), Got(found, Sink);
    var spine := trigger + sources + classifier;
    var wiring := new Wiring();
    wiring.Row(spine);
    assert wiring.edges == Chain(spine);
    wiring.Connect(Last(classifier), router[0].ref, Output);
    wiring.Connect(router[0].ref, sinks[0].ref, IfTrue);
    wiring.Connect(router[0].ref, sinks[1].ref, IfFalse);
    d := Some(Draft(BranchOnClassification, spine + router + sinks, wiring.edges, []));
  }

  /** Guard and approval: on "false" to the terminal node, on "true" to each sink. */
  function GuardEdges(spine: seq<Node>, router: Ref, terminal: Ref, sinks: seq<Node>): seq<Link<Ref>>
    requires spine != []
  {
    Chain(spine) + [Plain(Last(spine), router)] + [Link(router, terminal, IfFalse, Input)] + Fan(router, sinks, IfTrue)
  }

  method WireGuard(spine: seq<Node>, router: Ref, terminal: Ref, sinks: seq<Node>) returns (edges: seq<Link<Ref>>)
    requires spine != []
    ensures edges == GuardEdges(spine, router, terminal, sinks)
  {
    var wiring := new Wiring();
    wiring.Row(spine);
    assert wiring.edges == Chain(spine);
    wiring.Connect(Last(spine), router, Output);
    wiring.Connect(router, terminal, IfFalse);
    wiring.Each(router, sinks, IfTrue);
    edges := wiring.edges;
  }

  function ConditionalDraft(e: Entities, sig: Signals): Option<Draft>
    requires Extracted(e)
  {
    if e.sinks == [] || Missing(SlotsOf(ConditionalAction), e, sig) != [] then None
    else
      RouterFilled(ConditionalAction, e, sig);
      var spine, router := Spine(ConditionalAction, e, sig), Filled(ConditionalAction, Router, e, sig);
      var terminal, sinks := Filled(ConditionalAction, Terminal, e, sig), Filled(ConditionalAction, Sink, e, sig);
      Some(Draft(ConditionalAction, spine + router + sinks + terminal,
                 GuardEdges(spine, router[0].ref, terminal[0].ref, sinks), []))
  }

  method AssembleConditional(e: Entities, sig: Signals) returns (d: Option<Draft>)
    requires Extracted(e)
    ensures d == ConditionalDraft(e, sig)
  {
    if e.sinks == [] {
      return None;
    }
    var found, warnings := Collect(SlotsOf(ConditionalAction), e, sig);
    if warnings != [] {
      return None;
    }
    RouterFilled(ConditionalAction, e, sig);
    var spine := Got(found, Trigger) + Got(found, Source) + Got(found, Transform);
    var router, terminal, sinks := Got(found, Router), Got(found, Terminal), Got(found, Sink);
    var edges := WireGuard(spine, router[0].ref, terminal[0].ref, sinks);
    d := Some(Draft(ConditionalAction, spine + router + sinks + terminal, edges, []));
  }

  function ApprovalDraft(e: Entities, sig: Signals): Option<Draft>
    requires Extracted(e)
  {
    if e.sinks == [] || Missing(SlotsOf(ApprovalGate), e, sig) != [] then None
    else
      RouterFilled(ApprovalGate, e, sig);
      var spine, router := Spine(ApprovalGate, e, sig), Filled(ApprovalGate, Router, e, sig);
      var terminal, sinks := Filled(ApprovalGate, Terminal, e, sig), Filled(ApprovalGate, Sink, e, sig);
      Some(Draft(ApprovalGate, spine + router + terminal + sinks,
                 GuardEdges(spine, router[0].ref, terminal[0].ref, sinks), []))
  }

  method AssembleApproval(e: Entities, sig: Signals) returns (d: Option<Draft>)
    requires Extracted(e)
    ensures d == ApprovalDraft(e, sig)
  {
    if e.sinks == [] {
      return None;
    }
    var found, warnings := Collect(SlotsOf(ApprovalGate), e, sig);
    if warnings != [] {
      return None;
    }
    RouterFilled(ApprovalGate, e, sig);
    var spine := Got(found, Trigger) + Got(found, Source) + Got(found, Transform);
    var router, terminal, sinks := Got(found, Router), Got(found, Terminal), Got(found, Sink);
    var edges := WireGuard(spine, router[0].ref, terminal[0].ref, sinks);
    d := Some(Draft(ApprovalGate, spine + router + terminal + sinks, edges, []));
  }

  // ---------------------------------------------------------------- fan-out

  lemma FanOutFilled(e: Entities, sig: Signals)
    requires Extracted(e) && e.sinks != []
    ensures |Filled(FanOutMap, Trigger, e, sig)| == 1
    ensures |Filled(FanOutMap, Splitter, e, sig)| == 1 && |Filled(FanOutMap, Transform, e, sig)| == 1
    ensures |Filled(FanOutMap, Merger, e, sig)| <= 1
    ensures Filled(FanOutMap, Sink, e, sig) == NodesFor(Sink, Fill(SinkSlot(true), e, sig))
  {
    FilledSlot(FanOutMap, 0, e, sig);
    FilledSlot(FanOutMap, 2, e, sig);
    FilledSlot(FanOutMap, 3, e, sig);
    FilledSlot(FanOutMap, 4, e, sig);
    FilledSlot(FanOutMap, 5, e, sig);
  }

  function FanOutSpine(e: Entities, sig: Signals): seq<Node> {
    Filled(FanOutMap, Trigger, e, sig) + Filled(FanOutMap, Source, e, sig) + Filled(FanOutMap, Splitter, e, sig)
    + Filled(FanOutMap, Transform, e, sig) + Filled(FanOutMap, Merger, e, sig)
  }

  function FanOutDraft(e: Entities, sig: Signals): Option<Draft>
    requires Extracted(e)
  {
    if e.sinks == [] || Missing(SlotsOf(FanOutMap), e, sig) != [] then None
    else
      FanOutFilled(e, sig);
      var spine, sinks := FanOutSpine(e, sig), Filled(FanOutMap, Sink, e, sig);
      Some(Draft(FanOutMap, spine + sinks, Chain(spine) + Fan(Last(spine), sinks, Output), []))
  }

  method WireFanOut(front: seq<Node>, worker: seq<Node>, merger: seq<Node>, sinks: seq<Node>)
    returns (edges: seq<Link<Ref>>)
    requires worker != [] && |merger| <= 1
    ensures edges == Chain(front + worker + merger) + Fan(Last(front + worker + merger), sinks, Output)
  {
    var wiring := new Wiring();
    wiring.Row(front + worker + merger);
    assert wiring.edges == Chain(front + worker + merger);
    var tail := if merger != [] then merger[0].ref else Last(worker);
    wiring.Each(tail, sinks, Output);
    edges := wiring.edges;
  }

  method AssembleFanOut(e: Entities, sig: Signals) returns (d: Option<Draft>)
    requires Extracted(e)
    ensures d == FanOutDraft(e, sig)
  {
    if e.sinks == [] {
      return None;
    }
    var found, warnings := Collect(SlotsOf(FanOutMap), e, sig);
    if warnings != [] {
      return None;
    }
    FanOutFilled(e, sig);
    var front := Got(found, Trigger) + Got(found, Source) + Got(found, Splitter);
    var worker, merger, sinks := Got(found, Transform), Got(found, Merger), Got(found, Sink);
    var edges := WireFanOut(front, worker, merger, sinks);
    d := Some(Draft(FanOutMap, front + worker + merger + sinks, edges, []));
  }

  // ---------------------------------------------------------------- retry

  lemma RetryFilled(e: Entities, sig: Signals)
    ensures |Filled(RetryBackoff, Trigger, e, sig)| == 1
    ensures |Filled(RetryBackoff, Gate, e, sig)| == 1 && |Filled(RetryBackoff, Delay, e, sig)| == 1
    ensures Filled(RetryBackoff, Sink, e, sig) == NodesFor(Sink, Fill(SinkSlot(false), e, sig))
  {
    FilledSlot(RetryBackoff, 0, e, sig);
    FilledSlot(RetryBackoff, 3, e, sig);
    FilledSlot(RetryBackoff, 4, e, sig);
    FilledSlot(RetryBackoff, 5, e, sig);
  }

  function Operations(e: Entities, sig: Signals): seq<Node> {
    Filled(RetryBackoff, Source, e, sig) + Filled(RetryBackoff, Transform, e, sig)
  }

  /** The last operation is retried: on "false" through the delay back to it, on "true" to each sink. */
  function RetryEdges(spine: seq<Node>, gate: Ref, delay: Ref, sinks: seq<Node>): seq<Link<Ref>>
    requires spine != []
  {
    Chain(spine) + [Plain(Last(spine), gate)] + [Link(gate, delay, IfFalse, Input)] + [Plain(delay, Last(spine))]
    + Fan(gate, sinks, IfTrue)
  }

  method WireRetry(spine: seq<Node>, gate: Ref, delay: Ref, sinks: seq<Node>) returns (edges: seq<Link<Ref>>)
    requires spine != []
    ensures edges == RetryEdges(spine, gate, delay, sinks)
  {
    var worker := Last(spine);
    var wiring := new Wiring();
    wiring.Row(spine);
    assert wiring.edges == Chain(spine);
    wiring.Connect(worker, gate, Output);
    wiring.Connect(gate, delay, IfFalse);
    wiring.Connect(delay, worker, Output);
    wiring.Each(gate, sinks, IfTrue);
    edges := wiring.edges;
  }

  function RetryDraft(e: Entities, sig: Signals): Option<Draft> {
    if Operations(e, sig) == [] then None
    else
      RetryFilled(e, sig);
      var spine := Filled(RetryBackoff, Trigger, e, sig) + Operations(e, sig);
      var gate, delay := Filled(RetryBackoff, Gate, e, sig), Filled(RetryBackoff, Delay, e, sig);
      var sinks := Filled(RetryBackoff, Sink, e, sig);
      Some(Draft(RetryBackoff, spine + gate + delay + sinks, RetryEdges(spine, gate[0].ref, delay[0].ref, sinks), []))
  }

  method AssembleRetry(e: Entities, sig: Signals) returns (d: Option<Draft>)
    ensures d == RetryDraft(e, sig)
  {
    var found, _ := Collect(SlotsOf(RetryBackoff), e, sig);
    var trigger, ops := Got(found, Trigger), Got(found, Source) + Got(found, Transform);
    if ops == [] {
      return None;
    }
    RetryFilled(e, sig);
    var gate, delay, sinks := Got(found, Gate), Got(found, Delay), Got(found, Sink);
    var edges := WireRetry(trigger + ops, gate[0].ref, delay[0].ref, sinks);
    d := Some(Draft(RetryBackoff, trigger + ops + gate + delay + sinks, edges, []));
  }

  // ---------------------------------------------------------------- choosing a template

  const LINEAR_FAMILY: seq<Name> := [ScheduledPipeline, EventResponse, QualityLoop]

  /** The earliest of the best-scoring templates among these, if any. */
  function Best(names: seq<Name>, score: Name -> nat): Option<Name> {
    if names == [] then None
    else
      var last := names[|names| - 1];
      match Best(names[..|names| - 1], score)
      case None => Some(last)
      case Some(b) => if score(last) > score(b) then Some(last) else Some(b)
  }

  ghost predicate EarliestMaximum(names: seq<Name>, score: Name -> nat, k: nat) {
    && k < |names|
    && (forall i :: 0 <= i < |names| ==> score(names[i]) <= score(names[k]))
    && (forall i :: 0 <= i < k ==> score(names[i]) < score(names[k]))
  }

  lemma {:induction false} BestIsEarliestMaximum(names: seq<Name>, score: Name -> nat) returns (k: nat)
    requires names != []
    ensures EarliestMaximum(names, score, k) && Best(names, score) == Some(names[k])
  {
    var n := |names| - 1;
    k := n;
    if n > 0 {
      var j := BestIsEarliestMaximum(names[..n], score);
      assert forall i :: 0 <= i < n ==> names[..n][i] == names[i];
      k := if score(names[n]) > score(names[j]) then n else j;
    }
  }

  function Selected(e: Entities, score: Name -> nat): Option<Name> {
    if e.needsGate then Some(QualityLoop)
    else
      var best := Best(LINEAR_FAMILY, score);
      if best.Some? && score(best.value) > 0 then best
      else if e.trigger in {Some(WEBHOOK), Some(EVENT), Some(FILE_WATCH)} then Some(EventResponse)
      else if e.trigger == Some(SCHEDULE) then Some(ScheduledPipeline)
      else if e.sinks != [] && (e.sources != [] || e.transforms != []) then Some(ScheduledPipeline)
      else None
  }

  method Select(e: Entities, score: Name -> nat) returns (name: Option<Name>)
    ensures name == Selected(e, score)
  {
    if e.needsGate {
      return Some(QualityLoop);
    }
    var best: Option<Name> := None;
    for i := 0 to |LINEAR_FAMILY|
      invariant best == Best(LINEAR_FAMILY[..i], score)
    {
      assert LINEAR_FAMILY[..i + 1][..i] == LINEAR_FAMILY[..i];
      var candidate := LINEAR_FAMILY[i];
      if best.None? || score(candidate) > score(best.value) {
        best := Some(candidate);
      }
    }
    assert LINEAR_FAMILY[..|LINEAR_FAMILY|] == LINEAR_FAMILY;
    if best.Some? && score(best.value) > 0 {
      return best;
    }
    if e.trigger in {Some(WEBHOOK), Some(EVENT), Some(FILE_WATCH)} {
      return Some(EventResponse);
    }
    if e.trigger == Some(SCHEDULE) {
      return Some(ScheduledPipeline);
    }
    if e.sinks != [] && (e.sources != [] || e.transforms != []) {
      return Some(ScheduledPipeline);
    }
    name := None;
  }

  // ---------------------------------------------------------------- assembling

  datatype Shape = Approval | Retry | FanOut | Branch | Guard

  function Signalled(e: Entities): set<Shape> {
    (if e.hasApproval then {Approval} else {}) + (if e.hasRetry then {Retry} else {})
    + (if e.hasFanout then {FanOut} else {}) + (if e.hasBranch then {Branch} else {})
    + (if e.hasGuard then {Guard} else {})
  }

  /** Approval takes branch and guard along; branch takes guard along. */
  function Shapes(e: Entities): set<Shape> {
    var all := Signalled(e);
    var left := if Approval in all then all - {Branch, Guard} else all;
    if Branch in left then left - {Guard} else left
  }

  predicate IsEmpty(e: Entities) {
    e.sources == [] && e.transforms == [] && e.sinks == [] && !e.needsGate
  }

  predicate OnlySinks(e: Entities) {
    e.trigger.None? && e.sources == [] && e.transforms == [] && |e.sinks| >= 2
  }

  function Complete(d: Draft): Option<Draft> {
    if exists w :: w in d.warnings && w.Unfilled? then None else Some(d)
  }

  function Linear(e: Entities, sig: Signals): Option<Draft> {
    match Selected(e, sig.score)
    case None => None
    case Some(name) => Complete(LinearDraft(name, e, sig))
  }

  function Routed(shapes: set<Shape>, e: Entities, sig: Signals): Option<Draft>
    requires Extracted(e)
  {
    if Approval in shapes then ApprovalDraft(e, sig)
    else if Retry in shapes then RetryDraft(e, sig)
    else if FanOut in shapes then FanOutDraft(e, sig)
    else if Branch in shapes then BranchDraft(e, sig)
    else if Guard in shapes then ConditionalDraft(e, sig)
    else if OnlySinks(e) then Some(DeliveryDraft(e))
    else Linear(e, sig)
  }

  function Assembled(e: Entities, sig: Signals): Option<Draft>
    requires Extracted(e)
  {
    if IsEmpty(e) || |Shapes(e)| >= 2 then None else Routed(Shapes(e), e, sig)
  }

  method AssembleSelected(e: Entities, sig: Signals) returns (d: Option<Draft>)
    ensures d == Linear(e, sig)
  {
    var name := Select(e, sig.score);
    if name.None? {
      return None;
    }
    var linear := AssembleLinear(name.value, e, sig);
    d := Complete(linear);
  }

  method Route(shapes: set<Shape>, e: Entities, sig: Signals) returns (d: Option<Draft>)
    requires Extracted(e)
    ensures d == Routed(shapes, e, sig)
  {
    if Approval in shapes {
      d := AssembleApproval(e, sig);
    } else if Retry in shapes {
      d := AssembleRetry(e, sig);
    } else if FanOut in shapes {
      d := AssembleFanOut(e, sig);
    } else if Branch in shapes {
      d := AssembleBranch(e, sig);
    } else if Guard in shapes {
      d := AssembleConditional(e, sig);
    } else if OnlySinks(e) {
      var delivery := AssembleContentDelivery(e);
      d := Some(delivery);
    } else {
      d := AssembleSelected(e, sig);
    }
  }

  method FindShapes(e: Entities) returns (shapes: set<Shape>)
    ensures shapes == Shapes(e)
  {
    shapes := Signalled(e);
    if Approval in shapes {
      shapes := shapes - {Branch};
      shapes := shapes - {Guard};
    }
    if Branch in shapes {
      shapes := shapes - {Guard};
    }
  }

  method Assemble(e: Entities, sig: Signals) returns (d: Option<Draft>)
    requires Extracted(e)
    ensures d == Assembled(e, sig)
  {
    if IsEmpty(e) {
      return None;
    }
    var shapes := FindShapes(e);
    if |shapes| >= 2 {
      return None;
    }
    d := Route(shapes, e, sig);
  }
}
