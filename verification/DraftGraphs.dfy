/** What holds of every draft the assembler returns, read as a graph: where its cycles are, what is
    reachable, which nodes dominate which, and which sinks survive. */
module DraftGraphs {
  import opened Basics
  import opened Graph
  import opened Library
  import opened Assembler

  // ---------------------------------------------------------------- lists of nodes

  ghost predicate HasRef(nodes: seq<Node>, r: Ref) {
    exists i :: 0 <= i < |nodes| && nodes[i].ref == r
  }

  ghost predicate DistinctRefs(nodes: seq<Node>) {
    forall i, j :: 0 <= i < j < |nodes| ==> nodes[i].ref != nodes[j].ref
  }

  /** `source_0`, `source_1`, … */
  ghost predicate InRow(nodes: seq<Node>, role: Role) {
    forall i :: 0 <= i < |nodes| ==> nodes[i].ref == At(role, i) && nodes[i].role == role
  }

  ghost predicate NoneIn(nodes: seq<Node>, role: Role) {
    forall i :: 0 <= i < |nodes| ==> (nodes[i].ref.At? ==> nodes[i].ref.role != role)
  }

  lemma {:induction false} GotInRow(slots: seq<Slot>, role: Role, e: Entities, sig: Signals)
    ensures InRow(Got(Collected(slots, e, sig), role), role)
    decreases |slots|
  {
    if slots != [] { GotInRow(slots[..|slots| - 1], role, e, sig); }
  }

  lemma FilledInRow(name: Name, role: Role, e: Entities, sig: Signals)
    ensures InRow(Filled(name, role, e, sig), role)
  {
    GotInRow(SlotsOf(name), role, e, sig);
  }

  lemma RowAfter(nodes: seq<Node>, more: seq<Node>, role: Role)
    requires DistinctRefs(nodes) && NoneIn(nodes, role) && InRow(more, role)
    ensures DistinctRefs(nodes + more)
    ensures forall other :: other != role && NoneIn(nodes, other) ==> NoneIn(nodes + more, other)
  {}

  // ---------------------------------------------------------------- growing, on nodes

  /** Edge `k` brings in node `k + 1`, from a node that is already there. */
  ghost predicate GrownNodes(nodes: seq<Node>, edges: seq<Link<Ref>>) {
    && |nodes| == |edges| + 1
    && DistinctRefs(nodes)
    && forall k :: 0 <= k < |edges| ==> edges[k].to == nodes[k + 1].ref && HasRef(nodes[..k + 1], edges[k].from)
  }

  lemma GrownByRef(nodes: seq<Node>, edges: seq<Link<Ref>>)
    requires GrownNodes(nodes, edges)
    ensures Grown(Refs(nodes), edges)
    ensures forall i :: 0 <= i < |nodes| ==> Refs(nodes)[i] == nodes[i].ref
  {
    forall i | 0 <= i < |nodes| ensures Refs(nodes)[i] == nodes[i].ref { RefAt(nodes, i); }
    forall k | 0 <= k < |edges| ensures edges[k].from in Refs(nodes)[..k + 1] {
      var i :| 0 <= i < k + 1 && nodes[..k + 1][i].ref == edges[k].from;
      assert Refs(nodes)[..k + 1][i] == edges[k].from;
    }
  }

  lemma GrowNode(nodes: seq<Node>, edges: seq<Link<Ref>>, e: Link<Ref>, n: Node)
    requires GrownNodes(nodes, edges) && HasRef(nodes, e.from) && e.to == n.ref && !HasRef(nodes, n.ref)
    ensures GrownNodes(nodes + [n], edges + [e])
  {
    var more, wired := nodes + [n], edges + [e];
    forall k | 0 <= k < |wired| ensures wired[k].to == more[k + 1].ref && HasRef(more[..k + 1], wired[k].from) {
      assert more[..k + 1] == nodes[..k + 1];
      assert nodes[..|nodes|] == nodes;
    }
  }

  lemma LastIsNew(nodes: seq<Node>)
    requires nodes != [] && DistinctRefs(nodes)
    ensures DistinctRefs(nodes[..|nodes| - 1]) && !HasRef(nodes[..|nodes| - 1], nodes[|nodes| - 1].ref)
  {}

  lemma {:induction false} GrowSpine(nodes: seq<Node>)
    requires nodes != [] && DistinctRefs(nodes)
    ensures GrownNodes(nodes, Chain(nodes))
    decreases |nodes|
  {
    var n := |nodes| - 1;
    if n > 0 {
      LastIsNew(nodes);
      GrowSpine(nodes[..n]);
      assert nodes[..n][n - 1] == nodes[n - 1];
      GrowNode(nodes[..n], Chain(nodes[..n]), Plain(nodes[n - 1].ref, nodes[n].ref), nodes[n]);
      assert nodes[..n] + [nodes[n]] == nodes;
    }
  }

  lemma {:induction false} GrowRow(
    nodes: seq<Node>, edges: seq<Link<Ref>>, from: Ref, handle: Handle, row: seq<Node>)
    requires GrownNodes(nodes, edges) && HasRef(nodes, from) && DistinctRefs(nodes + row)
    ensures GrownNodes(nodes + row, edges + RowFrom(from, handle, row))
    decreases |row|
  {
    var n := |row| - 1;
    if n < 0 {
      assert nodes + row == nodes && edges + RowFrom(from, handle, row) == edges;
    } else {
      var all, before := nodes + row, nodes + row[..n];
      assert all[..|all| - 1] == before && all == before + [row[n]];
      LastIsNew(all);
      GrowRow(nodes, edges, from, handle, row[..n]);
      var e := Link(Upstream(from, row, n), row[n].ref, if n == 0 then handle else Output, Input);
      assert HasRef(before, e.from) by {
        if n == 0 {
          assert before == nodes;
        } else {
          assert before[|before| - 1] == row[n - 1];
        }
      }
      GrowNode(before, edges + RowFrom(from, handle, row[..n]), e, row[n]);
      assert edges + RowFrom(from, handle, row) == (edges + RowFrom(from, handle, row[..n])) + [e];
    }
  }

  lemma {:induction false} GrowFan(
    nodes: seq<Node>, edges: seq<Link<Ref>>, from: Ref, handle: Handle, more: seq<Node>)
    requires GrownNodes(nodes, edges) && HasRef(nodes, from) && DistinctRefs(nodes + more)
    ensures GrownNodes(nodes + more, edges + Fan(from, more, handle))
    decreases |more|
  {
    var n := |more| - 1;
    if n < 0 {
      assert nodes + more == nodes && edges + Fan(from, more, handle) == edges;
    } else {
      var all, before := nodes + more, nodes + more[..n];
      assert all[..|all| - 1] == before && all == before + [more[n]];
      LastIsNew(all);
      GrowFan(nodes, edges, from, handle, more[..n]);
      var e := Link(from, more[n].ref, handle, Input);
      assert HasRef(before, from) by {
        var i :| 0 <= i < |nodes| && nodes[i].ref == from;
        assert before[i] == nodes[i];
      }
      GrowNode(before, edges + Fan(from, more[..n], handle), e, more[n]);
      assert edges + Fan(from, more, handle) == (edges + Fan(from, more[..n], handle)) + [e];
    }
  }

  // ---------------------------------------------------------------- artifacts before deliveries

  /** The sinks in the order in which they are wired. */
  function Wired(sinks: seq<Node>): seq<Node> {
    Artifacts(sinks) + Deliveries(sinks)
  }

  ghost predicate Apart(a: seq<Node>, b: seq<Node>) {
    forall x, y :: x in a && y in b ==> x.ref != y.ref
  }

  lemma JoinDistinct(a: seq<Node>, b: seq<Node>)
    ensures DistinctRefs(a + b) <==> DistinctRefs(a) && DistinctRefs(b) && Apart(a, b)
  {
    var all := a + b;
    if DistinctRefs(all) {
      assert forall i :: 0 <= i < |a| ==> all[i] == a[i];
      assert forall j :: 0 <= j < |b| ==> all[|a| + j] == b[j];
    }
  }

  lemma {:induction false} FilterDistinctRefs(p: Node -> bool, s: seq<Node>)
    requires DistinctRefs(s)
    ensures DistinctRefs(Filter(p, s))
  {
    if s != [] {
      var n := |s| - 1;
      FilterDistinctRefs(p, s[..n]);
      FilterKeeps(p, s[..n]);
      LastIsNew(s);
      forall x | x in Filter(p, s[..n]) ensures x.ref != s[n].ref {
        var i :| 0 <= i < n && s[..n][i] == x;
      }
    }
  }

  lemma SameRefSameNode(s: seq<Node>, x: Node, y: Node)
    requires DistinctRefs(s) && x in s && y in s && x.ref == y.ref
    ensures x == y
  {}

  lemma WiredMembers(sinks: seq<Node>)
    ensures forall n :: n in Artifacts(sinks) <==> n in sinks && IsArtifactSink(n.nodeType)
    ensures forall n :: n in Deliveries(sinks) <==> n in sinks && !IsArtifactSink(n.nodeType)
    ensures forall n :: n in Wired(sinks) <==> n in sinks
  {
    FilterKeeps((s: Node) => IsArtifactSink(s.nodeType), sinks);
    FilterKeeps((s: Node) => !IsArtifactSink(s.nodeType), sinks);
  }

  lemma SplitDistinct(nodes: seq<Node>, sinks: seq<Node>)
    requires DistinctRefs(nodes + sinks)
    ensures DistinctRefs(nodes + Artifacts(sinks)) && DistinctRefs(nodes + Artifacts(sinks) + Deliveries(sinks))
  {
    JoinDistinct(nodes, sinks);
    WiredMembers(sinks);
    var artifacts, deliveries := Artifacts(sinks), Deliveries(sinks);
    FilterDistinctRefs((s: Node) => IsArtifactSink(s.nodeType), sinks);
    FilterDistinctRefs((s: Node) => !IsArtifactSink(s.nodeType), sinks);
    JoinDistinct(nodes, artifacts);
    forall x, y | x in nodes + artifacts && y in deliveries ensures x.ref != y.ref {
      if x in artifacts && x.ref == y.ref { SameRefSameNode(sinks, x, y); }
    }
    JoinDistinct(nodes + artifacts, deliveries);
  }

  lemma GrowSinks(nodes: seq<Node>, edges: seq<Link<Ref>>, from: Ref, handle: Handle, sinks: seq<Node>)
    requires GrownNodes(nodes, edges) && HasRef(nodes, from) && DistinctRefs(nodes + sinks)
    ensures GrownNodes(nodes + Artifacts(sinks) + Deliveries(sinks), edges + SinkLinks(from, handle, sinks))
  {
    SplitDistinct(nodes, sinks);
    if Artifacts(sinks) == [] {
      NoArtifacts(sinks);
      assert nodes + [] + sinks == nodes + sinks;
      GrowFan(nodes, edges, from, handle, sinks);
    } else {
      GrowInRow(nodes, edges, from, handle, Artifacts(sinks), Deliveries(sinks));
    }
  }

  lemma GrowInRow(
    nodes: seq<Node>, edges: seq<Link<Ref>>, from: Ref, handle: Handle, row: seq<Node>, more: seq<Node>)
    requires GrownNodes(nodes, edges) && HasRef(nodes, from) && row != []
    requires DistinctRefs(nodes + row) && DistinctRefs(nodes + row + more)
    ensures GrownNodes(nodes + row + more, edges + (RowFrom(from, handle, row) + Fan(Last(row), more, Output)))
  {
    GrowRow(nodes, edges, from, handle, row);
    var all := nodes + row;
    assert all[|all| - 1].ref == Last(row);
    GrowFan(all, edges + RowFrom(from, handle, row), Last(row), Output, more);
    assert edges + (RowFrom(from, handle, row) + Fan(Last(row), more, Output))
        == (edges + RowFrom(from, handle, row)) + Fan(Last(row), more, Output);
  }

  lemma NoArtifacts(sinks: seq<Node>)
    requires Artifacts(sinks) == []
    ensures Deliveries(sinks) == sinks
  {
    forall s | s in sinks ensures !IsArtifactSink(s.nodeType) {
      FilterMember((s: Node) => IsArtifactSink(s.nodeType), sinks, s);
    }
    FilterAll((s: Node) => !IsArtifactSink(s.nodeType), sinks);
  }

  // ---------------------------------------------------------------- the shape of a draft

  const GATE: Ref := At(Gate, 0)

  predicate IsGateFalse(e: Link<Ref>) {
    e.from == GATE && e.fromHandle == IfFalse
  }

  /** A draft is a tree on `order`, grown from the draft's first node, and at most one connection `back`,
      which leaves the gate on "false" or leaves a node entered only so. */
  ghost predicate Shaped(d: Draft, order: seq<Node>, tree: seq<Link<Ref>>, back: seq<Link<Ref>>) {
    && GrownNodes(order, tree)
    && DistinctRefs(d.nodes) && d.nodes != [] && order[0] == d.nodes[0]
    && (forall n :: n in order ==> n in d.nodes)
    && (forall e :: e in d.edges <==> e in tree || e in back)
    && (forall e :: e in back ==> HasRef(order, e.from) && HasRef(order, e.to))
    && (forall e :: e in back ==> IsGateFalse(e) || forall f :: f in d.edges && f.to == e.from ==> IsGateFalse(f))
  }

  /** The rows a linear template yields. */
  ghost predicate LinearRows(l: Lists) {
    && InRow(l.trigger, Trigger) && |l.trigger| == 1
    && InRow(l.sources, Source) && InRow(l.transforms, Transform)
    && InRow(l.scorer, Scorer) && |l.scorer| <= 1
    && InRow(l.gate, Gate) && |l.gate| <= 1
    && InRow(l.sinks, Sink)
    && (l.scorer != [] ==> Loops(l))
  }

  lemma QualityLoopCounts(e: Entities, sig: Signals)
    ensures |Filled(QualityLoop, Trigger, e, sig)| == 1 && |Filled(QualityLoop, Transform, e, sig)| == 1
    ensures |Filled(QualityLoop, Scorer, e, sig)| == 1 && |Filled(QualityLoop, Gate, e, sig)| == 1
  {
    FilledSlot(QualityLoop, 0, e, sig);
    FilledSlot(QualityLoop, 2, e, sig);
    FilledSlot(QualityLoop, 3, e, sig);
    FilledSlot(QualityLoop, 4, e, sig);
  }

  lemma PipelineCounts(name: Name, e: Entities, sig: Signals)
    requires name in {ScheduledPipeline, EventResponse}
    ensures |Filled(name, Trigger, e, sig)| == 1 && |Filled(name, Gate, e, sig)| <= 1
  {
    FilledSlot(name, 0, e, sig);
    FilledSlot(name, 3, e, sig);
  }

  lemma PipelineHasNoScorer(name: Name, e: Entities, sig: Signals)
    requires name in {ScheduledPipeline, EventResponse}
    ensures Filled(name, Scorer, e, sig) == []
  {
    GotNothing(SlotsOf(name), Scorer, e, sig);
  }

  lemma LinearListsAreRows(name: Name, e: Entities, sig: Signals)
    requires name in LINEAR_FAMILY
    ensures LinearRows(LinearLists(name, e, sig))
  {
    FilledInRow(name, Trigger, e, sig);
    FilledInRow(name, Source, e, sig);
    FilledInRow(name, Transform, e, sig);
    FilledInRow(name, Scorer, e, sig);
    FilledInRow(name, Gate, e, sig);
    FilledInRow(name, Sink, e, sig);
    if name == QualityLoop {
      QualityLoopCounts(e, sig);
    } else {
      PipelineCounts(name, e, sig);
      PipelineHasNoScorer(name, e, sig);
    }
  }

  lemma SpineIsDistinct(trigger: seq<Node>, sources: seq<Node>, transforms: seq<Node>)
    requires InRow(trigger, Trigger) && InRow(sources, Source) && InRow(transforms, Transform)
    ensures var spine := trigger + sources + transforms;
            DistinctRefs(spine) && forall role :: role !in {Trigger, Source, Transform} ==> NoneIn(spine, role)
  {
    RowAfter(trigger, sources, Source);
    RowAfter(trigger + sources, transforms, Transform);
  }

  /** Spine, then scorer and gate one by one. */
  lemma GrowJudging(spine: seq<Node>, scorer: seq<Node>, gate: seq<Node>)
    requires spine != [] && DistinctRefs(spine) && DistinctRefs(spine + scorer) && DistinctRefs(spine + scorer + gate)
    requires |scorer| <= 1 && |gate| == 1
    ensures GrownNodes(spine + scorer + gate, Chain(spine) + Judging(Last(spine), scorer, gate[0].ref))
  {
    var gen, evaluator := Last(spine), gate[0].ref;
    GrowSpine(spine);
    var n := |spine| - 1;
    assert spine[n].ref == gen;
    if scorer == [] {
      assert spine + scorer == spine && gate == [gate[0]];
      JoinDistinct(spine, gate);
      assert gate[0] in gate;
      GrowNode(spine, Chain(spine), Plain(gen, evaluator), gate[0]);
    } else {
      var judge := scorer[0];
      assert scorer == [judge] && gate == [gate[0]];
      JoinDistinct(spine, scorer);
      assert judge in scorer;
      GrowNode(spine, Chain(spine), Plain(gen, judge.ref), judge);
      var more := spine + scorer;
      JoinDistinct(more, gate);
      assert gate[0] in gate && more[|spine|] == judge;
      GrowNode(more, Chain(spine) + [Plain(gen, judge.ref)], Plain(judge.ref, evaluator), gate[0]);
      assert Chain(spine) + Judging(gen, scorer, evaluator)
          == Chain(spine) + [Plain(gen, judge.ref)] + [Plain(judge.ref, evaluator)];
    }
  }

  /** The order in which a linear draft grows. */
  function LinearOrder(l: Lists): seq<Node> {
    (if Loops(l) then l.trigger + l.sources + l.transforms + l.scorer + l.gate
     else l.trigger + l.sources + l.transforms) + Artifacts(l.sinks) + Deliveries(l.sinks)
  }

  function LinearTree(l: Lists): seq<Link<Ref>>
    requires l.trigger != []
  {
    var spine := l.trigger + l.sources + l.transforms;
    if Loops(l) then
      Chain(spine) + Judging(Last(spine), l.scorer, l.gate[0].ref) + SinkLinks(l.gate[0].ref, IfTrue, l.sinks)
    else Chain(spine) + SinkLinks(Last(spine), Output, l.sinks)
  }

  function LinearBack(l: Lists): seq<Link<Ref>> {
    if Loops(l) then [Link(l.gate[0].ref, Last(l.transforms), IfFalse, Input)] else []
  }

  lemma LinearGrows(l: Lists)
    requires LinearRows(l)
    ensures GrownNodes(LinearOrder(l), LinearTree(l))
  {
    var spine := l.trigger + l.sources + l.transforms;
    SpineIsDistinct(l.trigger, l.sources, l.transforms);
    if Loops(l) {
      RowAfter(spine, l.scorer, Scorer);
      RowAfter(spine + l.scorer, l.gate, Gate);
      RowAfter(spine + l.scorer + l.gate, l.sinks, Sink);
      GrowJudging(spine, l.scorer, l.gate);
      var all := spine + l.scorer + l.gate;
      assert all[|spine| + |l.scorer|] == l.gate[0];
      GrowSinks(all, Chain(spine) + Judging(Last(spine), l.scorer, l.gate[0].ref), l.gate[0].ref, IfTrue, l.sinks);
    } else {
      RowAfter(spine, l.sinks, Sink);
      GrowSpine(spine);
      assert spine[|spine| - 1].ref == Last(spine);
      GrowSinks(spine, Chain(spine), Last(spine), Output, l.sinks);
    }
  }

  lemma LinearNodesAreDistinct(l: Lists)
    requires LinearRows(l)
    ensures DistinctRefs(LinearNodes(l))
    ensures forall n :: n in LinearNodes(l) <==> n in LinearOrder(l)
  {
    var spine := l.trigger + l.sources + l.transforms;
    SpineIsDistinct(l.trigger, l.sources, l.transforms);
    WiredMembers(l.sinks);
    if l.gate != [] && l.transforms == [] {
      RowAfter(spine, l.sinks, Sink);
    } else {
      RowAfter(spine, l.scorer, Scorer);
      RowAfter(spine + l.scorer, l.sinks, Sink);
      RowAfter(spine + l.scorer + l.sinks, l.gate, Gate);
    }
  }

  lemma LinearEnds(l: Lists)
    requires LinearRows(l)
    ensures LinearNodes(l) != [] && LinearNodes(l)[0] == l.trigger[0] == LinearOrder(l)[0]
    ensures forall e :: e in LinearBack(l) ==> HasRef(LinearOrder(l), e.from) && HasRef(LinearOrder(l), e.to)
    ensures forall e :: e in LinearBack(l) ==> IsGateFalse(e)
  {
    if Loops(l) {
      var order, spine := LinearOrder(l), l.trigger + l.sources + l.transforms;
      assert order[|spine| - 1].ref == Last(l.transforms);
      assert order[|spine| + |l.scorer|] == l.gate[0];
    }
  }

  lemma LinearEdgesSplit(l: Lists)
    requires LinearRows(l)
    ensures forall e :: e in LinearEdges(l) <==> e in LinearTree(l) || e in LinearBack(l)
  {
    var spine := l.trigger + l.sources + l.transforms;
    if Loops(l) {
      assert Last(spine) == Last(l.transforms);
    }
  }

  lemma LinearShaped(d: Draft, l: Lists)
    requires LinearRows(l) && d.nodes == LinearNodes(l) && d.edges == LinearEdges(l)
    ensures Shaped(d, LinearOrder(l), LinearTree(l), LinearBack(l))
    ensures forall n :: n in d.nodes <==> n in LinearOrder(l)
  {
    LinearGrows(l);
    LinearNodesAreDistinct(l);
    LinearEnds(l);
    LinearEdgesSplit(l);
  }

  // ---------------------------------------------------------------- the other shapes

  lemma DeliveryShape(e: Entities)
    ensures var d := DeliveryDraft(e); Shaped(d, d.nodes, d.edges, []) && NoneIn(d.nodes, Gate)
  {
    var d := DeliveryDraft(e);
    var artifacts := ArtifactNodes(Filter((t: string) => IsArtifactSink(t), e.sinks));
    var deliveries := NodesFor(Sink, Filter((t: string) => !IsArtifactSink(t), e.sinks));
    var row := [PRODUCER] + artifacts;
    RowAfter(row, deliveries, Sink);
    GrowSpine(row);
    assert row[|row| - 1].ref == Last(row);
    GrowFan(row, Chain(row), Last(row), Output, deliveries);
  }

  /** Spine, router, then the nodes behind the router. */
  lemma GrowRouter(spine: seq<Node>, router: Node)
    requires spine != [] && DistinctRefs(spine + [router])
    ensures GrownNodes(spine + [router], Chain(spine) + [Plain(Last(spine), router.ref)])
  {
    JoinDistinct(spine, [router]);
    assert router in [router];
    GrowSpine(spine);
    assert spine[|spine| - 1].ref == Last(spine);
    GrowNode(spine, Chain(spine), Plain(Last(spine), router.ref), router);
  }

  lemma RoutedSpine(name: Name, e: Entities, sig: Signals)
    requires Extracted(e) && e.sinks != [] && name in {BranchOnClassification, ConditionalAction, ApprovalGate}
    ensures var spine, router := Spine(name, e, sig), Filled(name, Router, e, sig);
            && |router| == 1 && spine != [] && DistinctRefs(spine + router)
            && (forall role :: role !in {Trigger, Source, Transform, Router} ==> NoneIn(spine + router, role))
            && GrownNodes(spine + router, Chain(spine) + [Plain(Last(spine), router[0].ref)])
  {
    RouterFilled(name, e, sig);
    var spine, router := Spine(name, e, sig), Filled(name, Router, e, sig);
    FilledInRow(name, Trigger, e, sig);
    FilledInRow(name, Source, e, sig);
    FilledInRow(name, Transform, e, sig);
    FilledInRow(name, Router, e, sig);
    SpineIsDistinct(Filled(name, Trigger, e, sig), Filled(name, Source, e, sig), Filled(name, Transform, e, sig));
    RowAfter(spine, router, Router);
    assert router == [router[0]];
    GrowRouter(spine, router[0]);
  }

  /** Only the first two sinks of a branch are wired. */
  function BranchOrder(e: Entities, sig: Signals): seq<Node> {
    Spine(BranchOnClassification, e, sig) + Filled(BranchOnClassification, Router, e, sig)
    + FirstTwo(Filled(BranchOnClassification, Sink, e, sig))
  }

  function FirstTwo(nodes: seq<Node>): seq<Node> {
    if |nodes| < 2 then nodes else nodes[..2]
  }

  lemma BranchGrows(front: seq<Node>, edges: seq<Link<Ref>>, router: Ref, sinks: seq<Node>)
    requires GrownNodes(front, edges) && HasRef(front, router) && |sinks| >= 2 && DistinctRefs(front + sinks)
    ensures GrownNodes(front + sinks[..2],
              edges + [Link(router, sinks[0].ref, IfTrue, Input)] + [Link(router, sinks[1].ref, IfFalse, Input)])
  {
    JoinDistinct(front, sinks);
    assert sinks[0] in sinks && sinks[1] in sinks;
    var yes, no := Link(router, sinks[0].ref, IfTrue, Input), Link(router, sinks[1].ref, IfFalse, Input);
    GrowNode(front, edges, yes, sinks[0]);
    var more := front + [sinks[0]];
    var i :| 0 <= i < |front| && front[i].ref == router;
    assert more[i].ref == router;
    GrowNode(more, edges + [yes], no, sinks[1]);
    assert front + sinks[..2] == more + [sinks[1]];
  }

  lemma BranchRows(e: Entities, sig: Signals)
    requires Extracted(e) && e.sinks != []
    ensures var front := Spine(BranchOnClassification, e, sig) + Filled(BranchOnClassification, Router, e, sig);
            var sinks := Filled(BranchOnClassification, Sink, e, sig);
            DistinctRefs(front + sinks) && NoneIn(front + sinks, Gate)
  {
    RoutedSpine(BranchOnClassification, e, sig);
    FilledInRow(BranchOnClassification, Sink, e, sig);
    RowAfter(Spine(BranchOnClassification, e, sig) + Filled(BranchOnClassification, Router, e, sig),
             Filled(BranchOnClassification, Sink, e, sig), Sink);
  }

  lemma BranchShape(e: Entities, sig: Signals)
    requires Extracted(e) && BranchDraft(e, sig).Some?
    ensures var d := BranchDraft(e, sig).value;
            Shaped(d, BranchOrder(e, sig), d.edges, []) && NoneIn(d.nodes, Gate)
  {
    var name := BranchOnClassification;
    var spine, router, sinks := Spine(name, e, sig), Filled(name, Router, e, sig), Filled(name, Sink, e, sig);
    RouterFilled(name, e, sig);
    RoutedSpine(name, e, sig);
    BranchRows(e, sig);
    var front := spine + router;
    assert front[|spine|] == router[0];
    BranchGrows(front, Chain(spine) + [Plain(Last(spine), router[0].ref)], router[0].ref, sinks);
    TreeIsShaped(BranchDraft(e, sig).value, BranchOrder(e, sig));
  }

  /** A draft without a way back. */
  lemma TreeIsShaped(d: Draft, order: seq<Node>)
    requires GrownNodes(order, d.edges) && DistinctRefs(d.nodes) && d.nodes != [] && order[0] == d.nodes[0]
    requires forall n :: n in order ==> n in d.nodes
    ensures Shaped(d, order, d.edges, [])
  {}

  /** A guard or an approval grows spine, router, terminal, sinks. */
  lemma GuardGrows(spine: seq<Node>, router: Node, terminal: Node, sinks: seq<Node>)
    requires spine != [] && DistinctRefs(spine + [router] + [terminal] + sinks)
    requires GrownNodes(spine + [router], Chain(spine) + [Plain(Last(spine), router.ref)])
    ensures GrownNodes(spine + [router] + [terminal] + sinks, GuardEdges(spine, router.ref, terminal.ref, sinks))
  {
    var front, edges := spine + [router], Chain(spine) + [Plain(Last(spine), router.ref)];
    var no := Link(router.ref, terminal.ref, IfFalse, Input);
    assert front[|spine|] == router;
    JoinDistinct(front + [terminal], sinks);
    JoinDistinct(front, [terminal]);
    assert terminal in [terminal];
    GrowNode(front, edges, no, terminal);
    var more := front + [terminal];
    assert more[|spine|] == router;
    GrowFan(more, edges + [no], router.ref, IfTrue, sinks);
  }

  function GuardOrder(name: Name, e: Entities, sig: Signals): seq<Node> {
    Spine(name, e, sig) + Filled(name, Router, e, sig) + Filled(name, Terminal, e, sig) + Filled(name, Sink, e, sig)
  }

  lemma FourRows(front: seq<Node>, terminal: seq<Node>, sinks: seq<Node>)
    requires DistinctRefs(front) && NoneIn(front, Terminal) && NoneIn(front, Sink) && NoneIn(front, Gate)
    requires InRow(terminal, Terminal) && InRow(sinks, Sink)
    ensures DistinctRefs(front + terminal + sinks) && DistinctRefs(front + sinks + terminal)
    ensures NoneIn(front + terminal + sinks, Gate) && NoneIn(front + sinks + terminal, Gate)
  {
    RowAfter(front, terminal, Terminal);
    RowAfter(front + terminal, sinks, Sink);
    RowAfter(front, sinks, Sink);
    RowAfter(front + sinks, terminal, Terminal);
  }

  lemma GuardTree(name: Name, e: Entities, sig: Signals)
    requires Extracted(e) && e.sinks != [] && name in {ConditionalAction, ApprovalGate}
    ensures var spine, router := Spine(name, e, sig), Filled(name, Router, e, sig);
            var terminal, sinks := Filled(name, Terminal, e, sig), Filled(name, Sink, e, sig);
            && |router| == 1 && |terminal| == 1 && spine != []
            && DistinctRefs(spine + router + sinks + terminal) && DistinctRefs(spine + router + terminal + sinks)
            && NoneIn(spine + router + sinks + terminal, Gate) && NoneIn(spine + router + terminal + sinks, Gate)
            && GrownNodes(GuardOrder(name, e, sig), GuardEdges(spine, router[0].ref, terminal[0].ref, sinks))
  {
    var spine, router := Spine(name, e, sig), Filled(name, Router, e, sig);
    var terminal, sinks := Filled(name, Terminal, e, sig), Filled(name, Sink, e, sig);
    RouterFilled(name, e, sig);
    RoutedSpine(name, e, sig);
    FilledInRow(name, Terminal, e, sig);
    FilledInRow(name, Sink, e, sig);
    FourRows(spine + router, terminal, sinks);
    assert router == [router[0]] && terminal == [terminal[0]];
    GuardGrows(spine, router[0], terminal[0], sinks);
  }

  lemma ConditionalShape(e: Entities, sig: Signals)
    requires Extracted(e) && ConditionalDraft(e, sig).Some?
    ensures var d := ConditionalDraft(e, sig).value;
            && Shaped(d, GuardOrder(ConditionalAction, e, sig), d.edges, []) && NoneIn(d.nodes, Gate)
            && forall n :: n in d.nodes <==> n in GuardOrder(ConditionalAction, e, sig)
  {
    GuardTree(ConditionalAction, e, sig);
  }

  lemma ApprovalShape(e: Entities, sig: Signals)
    requires Extracted(e) && ApprovalDraft(e, sig).Some?
    ensures var d := ApprovalDraft(e, sig).value;
            && Shaped(d, GuardOrder(ApprovalGate, e, sig), d.edges, []) && NoneIn(d.nodes, Gate)
            && d.nodes == GuardOrder(ApprovalGate, e, sig)
  {
    GuardTree(ApprovalGate, e, sig);
  }

  lemma FanOutRows(e: Entities, sig: Signals)
    requires Extracted(e) && e.sinks != []
    ensures FanOutSpine(e, sig) != [] && DistinctRefs(FanOutSpine(e, sig) + Filled(FanOutMap, Sink, e, sig))
    ensures DistinctRefs(FanOutSpine(e, sig)) && NoneIn(FanOutSpine(e, sig) + Filled(FanOutMap, Sink, e, sig), Gate)
  {
    FanOutFilled(e, sig);
    FilledInRow(FanOutMap, Trigger, e, sig);
    FilledInRow(FanOutMap, Source, e, sig);
    FilledInRow(FanOutMap, Splitter, e, sig);
    FilledInRow(FanOutMap, Transform, e, sig);
    FilledInRow(FanOutMap, Merger, e, sig);
    FilledInRow(FanOutMap, Sink, e, sig);
    SixRows(Filled(FanOutMap, Trigger, e, sig), Filled(FanOutMap, Source, e, sig),
            Filled(FanOutMap, Splitter, e, sig), Filled(FanOutMap, Transform, e, sig),
            Filled(FanOutMap, Merger, e, sig), Filled(FanOutMap, Sink, e, sig));
  }

  lemma SixRows(a: seq<Node>, b: seq<Node>, c: seq<Node>, x: seq<Node>, y: seq<Node>, z: seq<Node>)
    requires InRow(a, Trigger) && InRow(b, Source) && InRow(c, Splitter) && InRow(x, Transform) && InRow(y, Merger)
    requires InRow(z, Sink)
    ensures DistinctRefs(a + b + c + x + y) && DistinctRefs(a + b + c + x + y + z)
    ensures NoneIn(a + b + c + x + y + z, Gate)
  {
    RowAfter(a, b, Source);
    RowAfter(a + b, c, Splitter);
    RowAfter(a + b + c, x, Transform);
    RowAfter(a + b + c + x, y, Merger);
    RowAfter(a + b + c + x + y, z, Sink);
  }

  lemma FanOutShape(e: Entities, sig: Signals)
    requires Extracted(e) && FanOutDraft(e, sig).Some?
    ensures var d := FanOutDraft(e, sig).value; Shaped(d, d.nodes, d.edges, []) && NoneIn(d.nodes, Gate)
  {
    FanOutRows(e, sig);
    var spine, sinks := FanOutSpine(e, sig), Filled(FanOutMap, Sink, e, sig);
    GrowSpine(spine);
    assert spine[|spine| - 1].ref == Last(spine);
    GrowFan(spine, Chain(spine), Last(spine), Output, sinks);
    TreeIsShaped(FanOutDraft(e, sig).value, spine + sinks);
  }

  // ---------------------------------------------------------------- retry

  function RetrySpine(e: Entities, sig: Signals): seq<Node> {
    Filled(RetryBackoff, Trigger, e, sig) + Operations(e, sig)
  }

  /** Without the way back from the delay to the worker. */
  function RetryTree(spine: seq<Node>, gate: Ref, delay: Ref, sinks: seq<Node>): seq<Link<Ref>>
    requires spine != []
  {
    Chain(spine) + [Plain(Last(spine), gate)] + [Link(gate, delay, IfFalse, Input)] + Fan(gate, sinks, IfTrue)
  }

  lemma RetryGrows(spine: seq<Node>, gate: Node, delay: Node, sinks: seq<Node>)
    requires spine != [] && DistinctRefs(spine + [gate] + [delay] + sinks)
    ensures GrownNodes(spine + [gate] + [delay] + sinks, RetryTree(spine, gate.ref, delay.ref, sinks))
  {
    JoinDistinct(spine + [gate] + [delay], sinks);
    JoinDistinct(spine + [gate], [delay]);
    GrowRouter(spine, gate);
    GuardGrows(spine, gate, delay, sinks);
  }

  lemma RetryListsApart(spine: seq<Node>, gate: seq<Node>, delay: seq<Node>, sinks: seq<Node>)
    requires DistinctRefs(spine) && NoneIn(spine, Gate) && NoneIn(spine, Delay) && NoneIn(spine, Sink)
    requires InRow(gate, Gate) && InRow(delay, Delay) && InRow(sinks, Sink)
    ensures DistinctRefs(spine + gate + delay + sinks)
  {
    RowAfter(spine, gate, Gate);
    RowAfter(spine + gate, delay, Delay);
    RowAfter(spine + gate + delay, sinks, Sink);
  }

  lemma RetryRows(e: Entities, sig: Signals)
    ensures var spine, sinks := RetrySpine(e, sig), Filled(RetryBackoff, Sink, e, sig);
            var gate, delay := Filled(RetryBackoff, Gate, e, sig), Filled(RetryBackoff, Delay, e, sig);
            && |gate| == 1 && gate[0].ref == GATE && |delay| == 1
            && spine != [] && DistinctRefs(spine + gate + delay + sinks)
  {
    RetryFilled(e, sig);
    FilledInRow(RetryBackoff, Trigger, e, sig);
    FilledInRow(RetryBackoff, Source, e, sig);
    FilledInRow(RetryBackoff, Transform, e, sig);
    FilledInRow(RetryBackoff, Gate, e, sig);
    FilledInRow(RetryBackoff, Delay, e, sig);
    FilledInRow(RetryBackoff, Sink, e, sig);
    var trigger, sources := Filled(RetryBackoff, Trigger, e, sig), Filled(RetryBackoff, Source, e, sig);
    var transforms := Filled(RetryBackoff, Transform, e, sig);
    SpineIsDistinct(trigger, sources, transforms);
    assert RetrySpine(e, sig) == trigger + sources + transforms;
    RetryListsApart(RetrySpine(e, sig), Filled(RetryBackoff, Gate, e, sig), Filled(RetryBackoff, Delay, e, sig),
                    Filled(RetryBackoff, Sink, e, sig));
  }

  lemma RetryShaped(d: Draft, spine: seq<Node>, gate: Node, delay: Node, sinks: seq<Node>)
    requires spine != [] && gate.ref == GATE && d.nodes == spine + [gate] + [delay] + sinks
    requires d.edges == RetryEdges(spine, gate.ref, delay.ref, sinks) && DistinctRefs(d.nodes)
    ensures Shaped(d, d.nodes, RetryTree(spine, gate.ref, delay.ref, sinks), [Plain(delay.ref, Last(spine))])
  {
    var tree := RetryTree(spine, gate.ref, delay.ref, sinks);
    RetryGrows(spine, gate, delay, sinks);
    assert d.nodes[|spine| - 1].ref == Last(spine) && d.nodes[|spine| + 1] == delay;
    assert d.nodes[|spine| - 1].ref != delay.ref;
    OnlyEntry(d.nodes, tree, |spine| + 1);
    assert tree[|spine|] == Link(GATE, delay.ref, IfFalse, Input);
  }

  lemma RetryCycle(d: Draft, spine: seq<Node>, delay: Ref, sinks: seq<Node>)
    requires spine != [] && d.edges == RetryEdges(spine, GATE, delay, sinks)
    ensures Cycle(d.edges, [Plain(Last(spine), GATE), Link(GATE, delay, IfFalse, Input), Plain(delay, Last(spine))])
  {
    var n := |Chain(spine)|;
    assert d.edges[n] == Plain(Last(spine), GATE);
    assert d.edges[n + 1] == Link(GATE, delay, IfFalse, Input);
    assert d.edges[n + 2] == Plain(delay, Last(spine));
  }

  lemma RetryShape(e: Entities, sig: Signals)
    requires RetryDraft(e, sig).Some?
    ensures exists tree, back ::
              back != [] && Shaped(RetryDraft(e, sig).value, RetryDraft(e, sig).value.nodes, tree, back)
    ensures exists w :: Cycle(RetryDraft(e, sig).value.edges, w)
    ensures HasRef(RetryDraft(e, sig).value.nodes, GATE)
  {
    RetryRows(e, sig);
    var d, spine := RetryDraft(e, sig).value, RetrySpine(e, sig);
    var gate, delay := Filled(RetryBackoff, Gate, e, sig), Filled(RetryBackoff, Delay, e, sig);
    var sinks := Filled(RetryBackoff, Sink, e, sig);
    assert gate == [gate[0]] && delay == [delay[0]];
    RetryShaped(d, spine, gate[0], delay[0], sinks);
    RetryCycle(d, spine, delay[0].ref, sinks);
    assert d.nodes[|spine|] == gate[0];
  }

  /** A grown node is entered only by the edge that brought it in. */
  lemma OnlyEntry(nodes: seq<Node>, edges: seq<Link<Ref>>, k: nat)
    requires GrownNodes(nodes, edges) && 0 < k < |nodes|
    ensures forall e :: e in edges && e.to == nodes[k].ref ==> e == edges[k - 1]
  {}

  lemma {:induction false} ChainAt(nodes: seq<Node>, k: nat)
    requires 0 < k < |nodes|
    ensures Plain(nodes[k - 1].ref, nodes[k].ref) in Chain(nodes)
    decreases |nodes|
  {
    if k < |nodes| - 1 { ChainAt(nodes[..|nodes| - 1], k); }
  }

  /** Generator, scorer if any, evaluator, and back. */
  lemma LinearCycle(l: Lists)
    requires LinearRows(l) && Loops(l)
    ensures exists w :: Cycle(LinearEdges(l), w)
  {
    var gen, evaluator := Last(l.transforms), l.gate[0].ref;
    var round := Judging(gen, l.scorer, evaluator) + [Link(evaluator, gen, IfFalse, Input)];
    assert forall e :: e in round ==> e in LinearEdges(l);
    assert Cycle(LinearEdges(l), round);
  }

  lemma LinearGate(l: Lists)
    requires LinearRows(l)
    ensures HasRef(LinearNodes(l), GATE) <==> Loops(l)
  {
    var spine := l.trigger + l.sources + l.transforms;
    SpineIsDistinct(l.trigger, l.sources, l.transforms);
    if Loops(l) {
      assert LinearNodes(l)[|spine| + |l.scorer| + |l.sinks|] == l.gate[0];
    } else {
      RowAfter(spine, l.sinks, Sink);
      assert l.scorer == [];
      assert LinearNodes(l) == spine + l.sinks;
      assert NoneIn(spine + l.sinks, Gate);
    }
  }

  // ---------------------------------------------------------------- the theorems

  /** Every draft has the shape; it has a way back exactly when it has a gate; and only in a branch can a
      node be left out of the tree. */
  lemma DraftIsShaped(e: Entities, sig: Signals)
    returns (order: seq<Node>, tree: seq<Link<Ref>>, back: seq<Link<Ref>>)
    requires Extracted(e) && Assembled(e, sig).Some?
    ensures var d := Assembled(e, sig).value;
            && Shaped(d, order, tree, back)
            && (HasRef(d.nodes, GATE) <==> back != [])
            && (back != [] ==> exists w :: Cycle(d.edges, w))
            && (d.name != BranchOnClassification ==> forall n :: n in d.nodes ==> n in order)
            && (d.name == BranchOnClassification ==> BranchDraft(e, sig) == Some(d) && order == BranchOrder(e, sig))
  {
    var d, shapes := Assembled(e, sig).value, Shapes(e);
    order, tree, back := d.nodes, d.edges, [];
    if Approval in shapes {
      ApprovalShape(e, sig);
    } else if Retry in shapes {
      RetryShape(e, sig);
      tree, back :| back != [] && Shaped(d, d.nodes, tree, back);
    } else if FanOut in shapes {
      FanOutShape(e, sig);
    } else if Branch in shapes {
      BranchShape(e, sig);
      order := BranchOrder(e, sig);
    } else if Guard in shapes {
      ConditionalShape(e, sig);
      order := GuardOrder(ConditionalAction, e, sig);
    } else if OnlySinks(e) {
      DeliveryShape(e);
    } else {
      order, tree, back := LinearIsShaped(e, sig);
    }
  }

  lemma SelectedIsLinear(e: Entities, score: Name -> nat)
    requires Selected(e, score).Some?
    ensures Selected(e, score).value in LINEAR_FAMILY
  {
    var k := BestIsEarliestMaximum(LINEAR_FAMILY, score);
    assert LINEAR_FAMILY[0] == ScheduledPipeline && LINEAR_FAMILY[1] == EventResponse && LINEAR_FAMILY[2] == QualityLoop;
  }

  lemma LinearIsShaped(e: Entities, sig: Signals)
    returns (order: seq<Node>, tree: seq<Link<Ref>>, back: seq<Link<Ref>>)
    requires Linear(e, sig).Some?
    ensures var d := Linear(e, sig).value;
            && d.name in LINEAR_FAMILY
            && Shaped(d, order, tree, back)
            && (HasRef(d.nodes, GATE) <==> back != [])
            && (back != [] ==> exists w :: Cycle(d.edges, w))
            && (forall n :: n in d.nodes ==> n in order)
  {
    SelectedIsLinear(e, sig.score);
    var name := Selected(e, sig.score).value;
    var l := LinearLists(name, e, sig);
    LinearListsAreRows(name, e, sig);
    LinearShaped(LinearDraft(name, e, sig), l);
    LinearGate(l);
    if Loops(l) { LinearCycle(l); }
    order, tree, back := LinearOrder(l), LinearTree(l), LinearBack(l);
  }

  /** References are distinct, and both ends of every edge are nodes. */
  lemma DraftsAreClosed(e: Entities, sig: Signals)
    requires Extracted(e) && Assembled(e, sig).Some?
    ensures var d := Assembled(e, sig).value;
            DistinctRefs(d.nodes) && forall x :: x in d.edges ==> HasRef(d.nodes, x.from) && HasRef(d.nodes, x.to)
  {
    var d := Assembled(e, sig).value;
    var order, tree, back := DraftIsShaped(e, sig);
    GrownByRef(order, tree);
    GrownEnds(Refs(order), tree);
    forall x | x in d.edges ensures HasRef(d.nodes, x.from) && HasRef(d.nodes, x.to) {
      assert HasRef(order, x.from) && HasRef(order, x.to);
      var i :| 0 <= i < |order| && order[i].ref == x.from;
      var j :| 0 <= j < |order| && order[j].ref == x.to;
      assert order[i] in d.nodes && order[j] in d.nodes;
    }
  }

  function WithoutGateFalse(edges: seq<Link<Ref>>): seq<Link<Ref>> {
    Filter((e: Link<Ref>) => !IsGateFalse(e), edges)
  }

  /** Every cycle leaves the gate on "false"; without those edges the draft is acyclic; and a draft has a
      cycle exactly when it has a gate. */
  lemma EveryCyclePassesTheGate(e: Entities, sig: Signals)
    requires Extracted(e) && Assembled(e, sig).Some?
    ensures var d := Assembled(e, sig).value;
            && (forall w :: Cycle(d.edges, w) ==> exists x :: x in w && IsGateFalse(x))
            && Acyclic(WithoutGateFalse(d.edges))
            && (Acyclic(d.edges) <==> !HasRef(d.nodes, GATE))
  {
    var d := Assembled(e, sig).value;
    var order, tree, back := DraftIsShaped(e, sig);
    GrownByRef(order, tree);
    forall w | Cycle(d.edges, w) ensures exists x :: x in w && IsGateFalse(x) {
      CycleUsesExtra(Refs(order), tree, d.edges, w);
      var b: Link<Ref> :| b in w && b !in tree;
      assert b in d.edges;
      CycleEnters(d.edges, w, b);
      var f: Link<Ref> :| f in w && f.to == b.from;
      assert f in d.edges;
    }
    forall w ensures !Cycle(WithoutGateFalse(d.edges), w) {
      if Cycle(WithoutGateFalse(d.edges), w) {
        forall x | x in w ensures x in d.edges && !IsGateFalse(x) {
          FilterMember((e: Link<Ref>) => !IsGateFalse(e), d.edges, x);
        }
        assert Cycle(d.edges, w);
      }
    }
    if back == [] {
      forall w ensures !Cycle(d.edges, w) {
        if Cycle(d.edges, w) {
          CycleUsesExtra(Refs(order), tree, d.edges, w);
        }
      }
    }
  }

  lemma PipelineHasNoGate(name: Name, e: Entities, sig: Signals)
    requires name in {ScheduledPipeline, EventResponse} && !e.needsGate && Gate !in sig.resolved
    ensures Filled(name, Gate, e, sig) == []
  {
    FilledSlot(name, 3, e, sig);
    var s := SlotsOf(name)[3];
    assert Materials(Gate, e) == [] && Voiced(s, e, sig) == [];
  }

  lemma LinearGateExactly(e: Entities, sig: Signals)
    requires Linear(e, sig).Some? && Gate !in sig.resolved
    ensures var d := Linear(e, sig).value;
            d.name in LINEAR_FAMILY && (HasRef(d.nodes, GATE) <==> d.name == QualityLoop)
  {
    SelectedIsLinear(e, sig.score);
    var name := Selected(e, sig.score).value;
    LinearListsAreRows(name, e, sig);
    LinearGate(LinearLists(name, e, sig));
    if name == QualityLoop {
      QualityLoopCounts(e, sig);
    } else {
      PipelineHasNoGate(name, e, sig);
    }
  }

  /** Unless the ensemble picks a gate, only the quality loop and the retry loop have one. */
  lemma OnlyLoopsHaveAGate(e: Entities, sig: Signals)
    requires Extracted(e) && Assembled(e, sig).Some? && Gate !in sig.resolved
    ensures var d := Assembled(e, sig).value; HasRef(d.nodes, GATE) <==> d.name in {QualityLoop, RetryBackoff}
  {
    var d, shapes := Assembled(e, sig).value, Shapes(e);
    if Approval in shapes {
      ApprovalShape(e, sig);
    } else if Retry in shapes {
      RetryShape(e, sig);
    } else if FanOut in shapes {
      FanOutShape(e, sig);
    } else if Branch in shapes {
      BranchShape(e, sig);
    } else if Guard in shapes {
      ConditionalShape(e, sig);
    } else if OnlySinks(e) {
      DeliveryShape(e);
    } else {
      LinearGateExactly(e, sig);
    }
  }

  // ---------------------------------------------------------------- reachability

  lemma ReachedByTree(d: Draft, order: seq<Node>, tree: seq<Link<Ref>>, back: seq<Link<Ref>>, n: Node)
    requires Shaped(d, order, tree, back) && n in order
    ensures Reach(d.edges, d.nodes[0].ref, n.ref)
  {
    GrownByRef(order, tree);
    var k :| 0 <= k < |order| && order[k] == n;
    GrownReaches(Refs(order), tree, d.edges, k);
  }

  lemma OutsideIsNotReached(order: seq<Node>, edges: seq<Link<Ref>>, root: Ref, r: Ref)
    requires GrownNodes(order, edges) && !HasRef(order, r) && r != root
    ensures !Reach(edges, root, r)
  {
    forall k | 0 <= k < |edges| ensures edges[k].to != r { assert order[k + 1].ref != r; }
    assert forall x :: x in edges ==> x.to != r;
  }

  lemma ThirdIsOutside(front: seq<Node>, sinks: seq<Node>)
    requires front != [] && |sinks| > 2 && DistinctRefs(front + sinks)
    ensures !HasRef(front + sinks[..2], sinks[2].ref) && sinks[2].ref != front[0].ref
  {
    var all := front + sinks;
    assert all[|front| + 2] == sinks[2] && all[0] == front[0];
    assert front + sinks[..2] == all[..|front| + 2];
  }

  lemma ThirdSinkIsNotReached(e: Entities, sig: Signals)
    requires Extracted(e) && BranchDraft(e, sig).Some?
    requires |Fill(SinkSlot(true), e, sig)| > 2
    ensures var d := BranchDraft(e, sig).value;
            exists n :: n in d.nodes && !Reach(d.edges, d.nodes[0].ref, n.ref)
  {
    var d, order := BranchDraft(e, sig).value, BranchOrder(e, sig);
    var front := Spine(BranchOnClassification, e, sig) + Filled(BranchOnClassification, Router, e, sig);
    var sinks := Filled(BranchOnClassification, Sink, e, sig);
    RouterFilled(BranchOnClassification, e, sig);
    BranchRows(e, sig);
    BranchShape(e, sig);
    ThirdIsOutside(front, sinks);
    OutsideIsNotReached(order, d.edges, d.nodes[0].ref, sinks[2].ref);
    assert sinks[2] in sinks;
  }

  /** Every node can be reached from the first one, except that a branch wires only two sinks: there it
      holds exactly when two were collected. */
  lemma EveryNodeIsReachable(e: Entities, sig: Signals)
    requires Extracted(e) && Assembled(e, sig).Some?
    ensures var d := Assembled(e, sig).value;
            (forall n :: n in d.nodes ==> Reach(d.edges, d.nodes[0].ref, n.ref))
            <==> (d.name == BranchOnClassification ==> |Fill(SinkSlot(true), e, sig)| == 2)
  {
    var d := Assembled(e, sig).value;
    var order, tree, back := DraftIsShaped(e, sig);
    if d.name == BranchOnClassification {
      BranchReaches(e, sig, d, tree, back);
    } else {
      TreeReaches(d, order, tree, back);
    }
  }

  lemma TreeReaches(d: Draft, order: seq<Node>, tree: seq<Link<Ref>>, back: seq<Link<Ref>>)
    requires Shaped(d, order, tree, back)
    ensures forall n :: n in order ==> Reach(d.edges, d.nodes[0].ref, n.ref)
  {
    forall n | n in order ensures Reach(d.edges, d.nodes[0].ref, n.ref) { ReachedByTree(d, order, tree, back, n); }
  }

  lemma BranchOrderIsAll(e: Entities, sig: Signals, d: Draft)
    requires Extracted(e) && BranchDraft(e, sig) == Some(d) && |Fill(SinkSlot(true), e, sig)| == 2
    ensures BranchOrder(e, sig) == d.nodes
  {
    RouterFilled(BranchOnClassification, e, sig);
  }

  lemma BranchCollectsTwo(e: Entities, sig: Signals, d: Draft)
    requires Extracted(e) && BranchDraft(e, sig) == Some(d)
    ensures |Fill(SinkSlot(true), e, sig)| >= 2
  {
    TwoSinksAreCollected(true, e, sig);
  }

  lemma BranchReaches(e: Entities, sig: Signals, d: Draft, tree: seq<Link<Ref>>, back: seq<Link<Ref>>)
    requires Extracted(e) && BranchDraft(e, sig) == Some(d) && Shaped(d, BranchOrder(e, sig), tree, back)
    ensures (forall n :: n in d.nodes ==> Reach(d.edges, d.nodes[0].ref, n.ref))
            <==> |Fill(SinkSlot(true), e, sig)| == 2
  {
    BranchCollectsTwo(e, sig, d);
    if |Fill(SinkSlot(true), e, sig)| == 2 {
      BranchOrderIsAll(e, sig, d);
      TreeReaches(d, d.nodes, tree, back);
    } else {
      ThirdSinkIsNotReached(e, sig);
    }
  }

  lemma ThreeMembers(s: seq<string>, x: string, y: string, z: string)
    requires x in s && y in s && z in s && x != y && y != z && x != z
    ensures |s| >= 3
  {}

  lemma ThirdMember(s: seq<string>, x: string, y: string)
    requires Distinct(s) && |s| > 2
    ensures exists t :: t in s && t != x && t != y
  {
    assert s[0] in s && s[1] in s && s[2] in s;
  }

  lemma PicksAndSaid(picks: seq<string>, said: seq<string>)
    requires Distinct(picks) && Distinct(said)
    ensures Distinct(picks + Besides(said, picks))
    ensures forall t :: t in picks + Besides(said, picks) <==> t in picks || t in said
  {
    FilterDistinct((t: string) => t !in picks, said);
    FilterKeeps((t: string) => t !in picks, said);
    var rest := Besides(said, picks);
    forall j | 0 <= j < |rest| ensures rest[j] !in picks { assert rest[j] in rest; }
  }

  /** With two sinks in the utterance, two are collected exactly when the ensemble adds no other. */
  lemma TwoCollectedExactly(e: Entities, sig: Signals)
    requires Extracted(e) && |e.sinks| == 2 && Distinct(Picks(SinkSlot(true), sig))
    ensures |Fill(SinkSlot(true), e, sig)| == 2 <==> forall x :: x in Picks(SinkSlot(true), sig) ==> x in e.sinks
  {
    SinkFill(e, sig);
    TwoNamed(Picks(SinkSlot(true), sig), e.sinks, Fill(SinkSlot(true), e, sig));
  }

  /** With named sinks, the slot holds the picks and then the other named sinks. */
  lemma SinkFill(e: Entities, sig: Signals)
    requires Extracted(e) && e.sinks != []
    ensures var picks := Picks(SinkSlot(true), sig);
            Fill(SinkSlot(true), e, sig) == if picks == [] then e.sinks else picks + Besides(e.sinks, picks)
  {
    var s := SinkSlot(true);
    AmongAll(e.sinks, s.candidates);
    assert Voiced(s, e, sig) != [];
  }

  lemma TwoNamed(picks: seq<string>, named: seq<string>, fill: seq<string>)
    requires Distinct(picks) && Distinct(named) && |named| == 2
    requires fill == if picks == [] then named else picks + Besides(named, picks)
    ensures |fill| == 2 <==> forall x :: x in picks ==> x in named
  {
    PicksAndSaid(picks, named);
    TwoMembers(fill, named[0], named[1]);
    if forall x :: x in picks ==> x in named {
      if |fill| > 2 { ThirdMember(fill, named[0], named[1]); }
    } else {
      var x :| x in picks && x !in named;
      ThreeMembers(fill, x, named[0], named[1]);
    }
  }

  // ---------------------------------------------------------------- every named sink survives

  lemma InNodesFor(types: seq<string>, x: string)
    requires x in types
    ensures exists n :: n in NodesFor(Sink, types) && n.role == Sink && n.nodeType == x
  {
    var i :| 0 <= i < |types| && types[i] == x;
    assert NodesFor(Sink, types)[i] in NodesFor(Sink, types);
  }

  lemma DeliveryKeepsSinks(e: Entities, x: string)
    requires x in e.sinks
    ensures exists n :: n in DeliveryDraft(e).nodes && n.role == Sink && n.nodeType == x
  {
    var artifacts := Filter((t: string) => IsArtifactSink(t), e.sinks);
    var deliveries := Filter((t: string) => !IsArtifactSink(t), e.sinks);
    FilterMember((t: string) => IsArtifactSink(t), e.sinks, x);
    FilterMember((t: string) => !IsArtifactSink(t), e.sinks, x);
    if x in artifacts {
      var i :| 0 <= i < |artifacts| && artifacts[i] == x;
      assert DeliveryDraft(e).nodes[1 + i] == Node(Artifact(i), x, Sink);
    } else {
      InNodesFor(deliveries, x);
    }
  }

  /** Every sink the extractor found is a node of the draft, whatever the ensemble picked or dropped. */
  lemma EveryNamedSinkIsANode(e: Entities, sig: Signals, x: string)
    requires Extracted(e) && Assembled(e, sig).Some? && x in e.sinks
    ensures exists n :: n in Assembled(e, sig).value.nodes && n.role == Sink && n.nodeType == x
  {
    var shapes := Shapes(e);
    SinksAreCollected(true, e, sig);
    SinksAreCollected(false, e, sig);
    if Approval in shapes {
      RouterFilled(ApprovalGate, e, sig);
      InNodesFor(Fill(SinkSlot(true), e, sig), x);
    } else if Retry in shapes {
      RetryFilled(e, sig);
      InNodesFor(Fill(SinkSlot(false), e, sig), x);
    } else if FanOut in shapes {
      FanOutFilled(e, sig);
      InNodesFor(Fill(SinkSlot(true), e, sig), x);
    } else if Branch in shapes {
      RouterFilled(BranchOnClassification, e, sig);
      InNodesFor(Fill(SinkSlot(true), e, sig), x);
    } else if Guard in shapes {
      RouterFilled(ConditionalAction, e, sig);
      InNodesFor(Fill(SinkSlot(true), e, sig), x);
    } else if OnlySinks(e) {
      DeliveryKeepsSinks(e, x);
    } else {
      SelectedIsLinear(e, sig.score);
      LinearKeepsSinks(Selected(e, sig.score).value, e, sig, x);
    }
  }

  lemma LinearSinkSlot(name: Name, e: Entities, sig: Signals)
    requires name in LINEAR_FAMILY
    ensures Filled(name, Sink, e, sig) == NodesFor(Sink, Fill(SinkSlot(false), e, sig))
  {
    FilledSlot(name, if name == QualityLoop then 5 else 4, e, sig);
  }

  lemma SinksAreNodes(l: Lists, n: Node)
    requires n in l.sinks
    ensures n in LinearNodes(l)
  {}

  lemma LinearKeepsSinks(name: Name, e: Entities, sig: Signals, x: string)
    requires name in LINEAR_FAMILY && Extracted(e) && x in e.sinks
    ensures exists n :: n in LinearNodes(LinearLists(name, e, sig)) && n.role == Sink && n.nodeType == x
  {
    LinearSinkSlot(name, e, sig);
    SinksAreCollected(false, e, sig);
    InNodesFor(Fill(SinkSlot(false), e, sig), x);
    var n :| n in Filled(name, Sink, e, sig) && n.role == Sink && n.nodeType == x;
    SinksAreNodes(LinearLists(name, e, sig), n);
  }

  // ---------------------------------------------------------------- artifacts dominate deliveries

  function ArtifactNode(): Node -> bool {
    (n: Node) => n.role == Sink && IsArtifactSink(n.nodeType)
  }

  function DeliveryNode(): Node -> bool {
    (n: Node) => n.role == Sink && !IsArtifactSink(n.nodeType)
  }

  /** `w` has just gone through all of `row`, in order, and then into `last`. */
  ghost predicate EndsThrough(w: seq<Link<Ref>>, row: seq<Node>, last: Ref) {
    && |row| + 1 <= |w|
    && (forall i :: 0 <= i < |row| ==> w[|w| - |row| - 1 + i].to == row[i].ref)
    && w[|w| - 1].to == last
  }

  /** In `all`, each node of `row` after the first, and `last`, is entered only from the node before. */
  ghost predicate RowEntries(all: seq<Link<Ref>>, row: seq<Node>, last: Ref) {
    && (forall i :: 0 < i < |row| ==> OnlyFrom(all, row[i - 1].ref, row[i].ref))
    && (row != [] ==> OnlyFrom(all, Last(row), last))
  }

  lemma WalkEndsThrough(all: seq<Link<Ref>>, row: seq<Node>, last: Ref, w: seq<Link<Ref>>)
    requires RowEntries(all, row, last) && Walk(all, w) && w != [] && w[|w| - 1].to == last
    requires !HasRef(row, w[0].from) && w[0].from != last
    ensures EndsThrough(w, row, last)
  {
    var refs := Refs(row) + [last];
    forall i | 0 <= i < |row| ensures refs[i] == row[i].ref { RefAt(row, i); }
    forall i | 0 <= i < |refs| ensures refs[i] != w[0].from {
      assert i < |row| ==> row[i].ref != w[0].from;
    }
    RowDominates(all, refs, w);
    forall i | 0 <= i < |row| ensures w[|w| - |row| - 1 + i].to == row[i].ref {
      assert w[|w| - |refs| + i].to == refs[i];
    }
  }

  lemma {:induction false} RowFromAt(from: Ref, handle: Handle, row: seq<Node>, k: nat)
    requires k < |row|
    ensures |RowFrom(from, handle, row)| == |row| && RowFrom(from, handle, row)[k].from == Upstream(from, row, k)
    decreases |row|
  {
    var n := |row| - 1;
    if k < n {
      RowFromAt(from, handle, row[..n], k);
    } else if n > 0 {
      RowFromAt(from, handle, row[..n], 0);
    }
  }

  lemma {:induction false} FanAt(from: Ref, nodes: seq<Node>, handle: Handle, k: nat)
    requires k < |nodes|
    ensures |Fan(from, nodes, handle)| == |nodes| && Fan(from, nodes, handle)[k].from == from
    decreases |nodes|
  {
    var n := |nodes| - 1;
    if k < n {
      FanAt(from, nodes[..n], handle, k);
    } else if n > 0 {
      FanAt(from, nodes[..n], handle, 0);
    }
  }

  /** After `front` (which took `edges`), a row of artifacts and the deliveries behind the last. */
  lemma RowIsEntered(
    front: seq<Node>, edges: seq<Link<Ref>>, from: Ref, handle: Handle, row: seq<Node>, more: seq<Node>, last: Node)
    requires row != [] && last in more
    requires GrownNodes(front + row + more, edges + (RowFrom(from, handle, row) + Fan(Last(row), more, Output)))
    requires |front| == |edges| + 1
    ensures RowEntries(edges + (RowFrom(from, handle, row) + Fan(Last(row), more, Output)), row, last.ref)
  {
    var links, fan := RowFrom(from, handle, row), Fan(Last(row), more, Output);
    var all, order := edges + (links + fan), front + row + more;
    forall i | 0 < i < |row| ensures OnlyFrom(all, row[i - 1].ref, row[i].ref) {
      RowFromAt(from, handle, row, i);
      assert order[|front| + i] == row[i] && all[|edges| + i] == links[i];
      OnlyEntry(order, all, |front| + i);
    }
    var j :| 0 <= j < |more| && more[j] == last;
    RowFromAt(from, handle, row, 0);
    FanAt(Last(row), more, Output, j);
    assert order[|front| + |row| + j] == last && all[|edges| + |row| + j] == fan[j];
    OnlyEntry(order, all, |front| + |row| + j);
  }

  lemma LinearSinksSplit(l: Lists)
    requires LinearRows(l)
    ensures Filter(ArtifactNode(), LinearNodes(l)) == Artifacts(l.sinks)
    ensures Filter(DeliveryNode(), LinearNodes(l)) == Deliveries(l.sinks)
  {
    OnlySinksPass(l, ArtifactNode());
    OnlySinksPass(l, DeliveryNode());
    FilterAgree(ArtifactNode(), (s: Node) => IsArtifactSink(s.nodeType), l.sinks);
    FilterAgree(DeliveryNode(), (s: Node) => !IsArtifactSink(s.nodeType), l.sinks);
  }

  lemma {:induction false} NonePass(p: Node -> bool, s: seq<Node>)
    requires forall x :: x in s ==> !p(x)
    ensures Filter(p, s) == []
  {
    if s != [] {
      assert s[|s| - 1] in s;
      NonePass(p, s[..|s| - 1]);
    }
  }

  lemma OnlySinksPass(l: Lists, p: Node -> bool)
    requires LinearRows(l) && forall n :: p(n) ==> n.role == Sink
    ensures Filter(p, LinearNodes(l)) == Filter(p, l.sinks)
  {
    var spine := l.trigger + l.sources + l.transforms;
    NonePass(p, spine);
    NonePass(p, l.gate);
    NonePass(p, l.scorer);
    FilterAppend(p, spine, l.scorer);
    FilterAppend(p, spine + l.scorer, l.sinks);
    FilterAppend(p, spine + l.scorer + l.sinks, l.gate);
    FilterAppend(p, spine, l.sinks);
  }

  lemma SinksAreNotEntered(l: Lists, row: seq<Node>, last: Node)
    requires LinearRows(l) && (forall n :: n in row ==> n.role == Sink && n.ref.At? && n.ref.role == Sink)
    requires last.ref.At? && last.ref.role == Sink && RowEntries(LinearTree(l), row, last.ref)
    ensures RowEntries(LinearEdges(l), row, last.ref)
  {
    LinearEdgesSplit(l);
    assert forall x :: x in LinearBack(l) ==> x.to.At? && x.to.role == Transform;
    forall i | 0 < i < |row| ensures OnlyFrom(LinearEdges(l), row[i - 1].ref, row[i].ref) {
      assert row[i] in row;
      assert OnlyFrom(LinearTree(l), row[i - 1].ref, row[i].ref);
    }
  }

  /** In a pipeline or quality loop, every walk from the first node to a delivery sink has, at the end,
      gone through all artifact sinks in order. */
  lemma LinearArtifactsDominate(l: Lists, last: Node, w: seq<Link<Ref>>)
    requires LinearRows(l) && last in Deliveries(l.sinks)
    requires w != [] && WalkFrom(LinearEdges(l), w, l.trigger[0].ref, last.ref)
    ensures EndsThrough(w, Artifacts(l.sinks), last.ref)
  {
    var row, spine := Artifacts(l.sinks), l.trigger + l.sources + l.transforms;
    WiredMembers(l.sinks);
    LinearGrows(l);
    if row != [] {
      if Loops(l) {
        GrowJudgingLength(l);
        RowIsEntered(spine + l.scorer + l.gate, Chain(spine) + Judging(Last(spine), l.scorer, l.gate[0].ref),
                     l.gate[0].ref, IfTrue, row, Deliveries(l.sinks), last);
      } else {
        GrowSpineLength(l);
        RowIsEntered(spine, Chain(spine), Last(spine), Output, row, Deliveries(l.sinks), last);
      }
      SinksAreNotEntered(l, row, last);
    }
    forall i | 0 <= i < |row| ensures row[i].ref != w[0].from { assert row[i] in row; }
    WalkEndsThrough(LinearEdges(l), row, last.ref, w);
  }

  lemma GrowSpineLength(l: Lists)
    requires LinearRows(l)
    ensures var spine := l.trigger + l.sources + l.transforms; |spine| == |Chain(spine)| + 1
  {
    SpineIsDistinct(l.trigger, l.sources, l.transforms);
    GrowSpine(l.trigger + l.sources + l.transforms);
  }

  lemma GrowJudgingLength(l: Lists)
    requires LinearRows(l) && Loops(l)
    ensures var spine := l.trigger + l.sources + l.transforms;
            |spine + l.scorer + l.gate| == |Chain(spine) + Judging(Last(spine), l.scorer, l.gate[0].ref)| + 1
  {
    GrowSpineLength(l);
  }

  lemma DeliveryRowEntries(row: seq<Node>, more: seq<Node>, last: Node)
    requires row != [] && last in more
    requires GrownNodes([PRODUCER] + row + more, Chain([PRODUCER] + row) + Fan(Last([PRODUCER] + row), more, Output))
    ensures RowEntries(Chain([PRODUCER] + row) + Fan(Last([PRODUCER] + row), more, Output), row, last.ref)
  {
    ProducerRow(row);
    assert Last([PRODUCER] + row) == Last(row);
    var links := RowFrom(PRODUCER.ref, Output, row) + Fan(Last(row), more, Output);
    assert [] + links == links;
    RowIsEntered([PRODUCER], [], PRODUCER.ref, Output, row, more, last);
  }

  lemma DeliveryLists(e: Entities) returns (row: seq<Node>, more: seq<Node>)
    ensures var d := DeliveryDraft(e);
            && d.nodes == [PRODUCER] + row + more
            && d.edges == Chain([PRODUCER] + row) + Fan(Last([PRODUCER] + row), more, Output)
    ensures forall i :: 0 <= i < |row| ==> row[i].ref.Artifact? && ArtifactNode()(row[i])
    ensures forall i :: 0 <= i < |more| ==> more[i].ref.At? && more[i].ref.role == Sink && DeliveryNode()(more[i])
  {
    var types := Filter((t: string) => IsArtifactSink(t), e.sinks);
    var others := Filter((t: string) => !IsArtifactSink(t), e.sinks);
    row, more := ArtifactNodes(types), NodesFor(Sink, others);
    FilterKeeps((t: string) => IsArtifactSink(t), e.sinks);
    FilterKeeps((t: string) => !IsArtifactSink(t), e.sinks);
    forall i | 0 <= i < |row| ensures ArtifactNode()(row[i]) { assert types[i] in types; }
    forall i | 0 <= i < |more| ensures DeliveryNode()(more[i]) { assert others[i] in others; }
  }

  lemma DeliveryParts(e: Entities) returns (row: seq<Node>, more: seq<Node>)
    ensures var d := DeliveryDraft(e);
            && d.nodes == [PRODUCER] + row + more
            && d.edges == Chain([PRODUCER] + row) + Fan(Last([PRODUCER] + row), more, Output)
            && GrownNodes(d.nodes, d.edges)
            && Filter(ArtifactNode(), d.nodes) == row
            && (forall i :: 0 <= i < |row| ==> row[i].ref.Artifact?)
            && (forall n :: n in d.nodes && DeliveryNode()(n) ==> n in more)
            && (forall n :: n in more ==> n.ref.At? && n.ref.role == Sink)
  {
    row, more := DeliveryLists(e);
    DeliverySplit(PRODUCER, row, more);
    DeliveryShape(e);
  }

  lemma DeliverySplit(producer: Node, row: seq<Node>, more: seq<Node>)
    requires producer.role == Transform
    requires (forall n :: n in row ==> ArtifactNode()(n)) && forall n :: n in more ==> DeliveryNode()(n)
    ensures Filter(ArtifactNode(), [producer] + row + more) == row
  {
    FilterAll(ArtifactNode(), row);
    NonePass(ArtifactNode(), more);
    NonePass(ArtifactNode(), [producer]);
    FilterAppend(ArtifactNode(), [producer], row);
    FilterAppend(ArtifactNode(), [producer] + row, more);
  }

  lemma {:induction false} ProducerRow(row: seq<Node>)
    ensures Chain([PRODUCER] + row) == RowFrom(PRODUCER.ref, Output, row)
    decreases |row|
  {
    var all := [PRODUCER] + row;
    if row != [] {
      assert all[..|all| - 1] == [PRODUCER] + row[..|row| - 1];
      ProducerRow(row[..|row| - 1]);
    }
  }

  /** A walk from the first node to a delivery sink has, at the end, gone through all artifacts in order. */
  ghost predicate ArtifactsDominate(d: Draft)
    requires d.nodes != []
  {
    forall last, w ::
      last in d.nodes && DeliveryNode()(last) && WalkFrom(d.edges, w, d.nodes[0].ref, last.ref)
      ==> EndsThrough(w, Filter(ArtifactNode(), d.nodes), last.ref)
  }

  lemma LinearDominates(d: Draft, l: Lists)
    requires LinearRows(l) && d.nodes == LinearNodes(l) && d.edges == LinearEdges(l)
    ensures d.nodes != [] && ArtifactsDominate(d)
  {
    LinearEnds(l);
    LinearSinksSplit(l);
    forall last, w | last in d.nodes && DeliveryNode()(last) && WalkFrom(d.edges, w, d.nodes[0].ref, last.ref)
      ensures EndsThrough(w, Filter(ArtifactNode(), d.nodes), last.ref)
    {
      FilterMember(DeliveryNode(), d.nodes, last);
      WiredMembers(l.sinks);
      LinearArtifactsDominate(l, last, w);
    }
  }

  lemma DeliveryDominates(e: Entities)
    ensures DeliveryDraft(e).nodes != [] && ArtifactsDominate(DeliveryDraft(e))
  {
    var d := DeliveryDraft(e);
    var row, more := DeliveryParts(e);
    forall last, w | last in d.nodes && DeliveryNode()(last) && WalkFrom(d.edges, w, d.nodes[0].ref, last.ref)
      ensures EndsThrough(w, Filter(ArtifactNode(), d.nodes), last.ref)
    {
      if row != [] { DeliveryRowEntries(row, more, last); }
      WalkEndsThrough(d.edges, row, last.ref, w);
    }
  }

  lemma LinearOrigin(e: Entities, sig: Signals, d: Draft)
    requires Linear(e, sig) == Some(d)
    ensures d.name in LINEAR_FAMILY && d == LinearDraft(d.name, e, sig)
  {
    SelectedIsLinear(e, sig.score);
  }

  lemma ShapeName(e: Entities, sig: Signals, d: Draft)
    requires Extracted(e) && Shapes(e) != {} && Routed(Shapes(e), e, sig) == Some(d)
    ensures d.name in {ApprovalGate, RetryBackoff, FanOutMap, BranchOnClassification, ConditionalAction}
  {
    var shapes := Shapes(e);
    assert Approval in shapes || Retry in shapes || FanOut in shapes || Branch in shapes || Guard in shapes;
  }

  lemma UnshapedRoute(e: Entities, sig: Signals)
    requires Extracted(e)
    ensures Routed({}, e, sig) == if OnlySinks(e) then Some(DeliveryDraft(e)) else Linear(e, sig)
  {}

  lemma NameTellsOrigin(e: Entities, sig: Signals, d: Draft)
    requires Extracted(e) && Routed(Shapes(e), e, sig) == Some(d)
    requires d.name in LINEAR_FAMILY || d.name == ContentDelivery
    ensures d == DeliveryDraft(e) || (d.name in LINEAR_FAMILY && d == LinearDraft(d.name, e, sig))
  {
    if Shapes(e) != {} {
      ShapeName(e, sig, d);
    } else {
      UnshapedRoute(e, sig);
      if !OnlySinks(e) { LinearOrigin(e, sig, d); }
    }
  }

  /** In linear, quality-loop and content-delivery drafts every artifact sink dominates every delivery
      sink. */
  lemma ArtifactsDominateDeliveries(e: Entities, sig: Signals, d: Draft)
    requires Extracted(e) && Assembled(e, sig) == Some(d)
    requires d.name in LINEAR_FAMILY || d.name == ContentDelivery
    ensures d.nodes != [] && ArtifactsDominate(d)
  {
    NameTellsOrigin(e, sig, d);
    if d == DeliveryDraft(e) {
      DeliveryDominates(e);
    } else {
      LinearListsAreRows(d.name, e, sig);
      LinearDominates(d, LinearLists(d.name, e, sig));
    }
  }
}
