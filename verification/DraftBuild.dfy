/** Turning an assembled draft into a workflow
    (modules/ai_agent/domain/services/skeleton_assembler.py, `build_workflow_with_refs`). */
module DraftBuild {
  import opened Basics
  import opened Graph
  import opened Dataflow
  import opened Library
  import opened Assembler
  import opened DraftGraphs
  import W = WorkflowEdit

  type Draft = Assembler.Draft
  type DraftNode = Assembler.Node
  type DraftRef = Assembler.Ref

  /** The nodes whose type the catalogue knows. */
  function Kept(nodes: seq<DraftNode>, nodeIds: map<string, Uuid>): seq<DraftNode> {
    Filter((n: DraftNode) => n.nodeType in nodeIds, nodes)
  }

  function InstanceByRef(kept: seq<DraftNode>, supply: nat -> Uuid): map<DraftRef, Uuid>
    decreases |kept|
  {
    var n := |kept| - 1;
    if n < 0 then map[] else InstanceByRef(kept[..n], supply)[kept[n].ref := supply(n)]
  }

  function Placed(kept: seq<DraftNode>, nodeIds: map<string, Uuid>, supply: nat -> Uuid): seq<W.Node>
    requires forall i :: 0 <= i < |kept| ==> kept[i].nodeType in nodeIds
    decreases |kept|
  {
    var n := |kept| - 1;
    if n < 0 then []
    else Placed(kept[..n], nodeIds, supply) + [W.Node(supply(n), nodeIds[kept[n].nodeType], JObject([]), W.UNBOUND)]
  }

  lemma {:induction false} PlacedAt(kept: seq<DraftNode>, nodeIds: map<string, Uuid>, supply: nat -> Uuid, i: nat)
    requires forall i :: 0 <= i < |kept| ==> kept[i].nodeType in nodeIds
    requires i < |kept|
    ensures |Placed(kept, nodeIds, supply)| == |kept|
    ensures Placed(kept, nodeIds, supply)[i] == W.Node(supply(i), nodeIds[kept[i].nodeType], JObject([]), W.UNBOUND)
    decreases |kept|
  {
    var n := |kept| - 1;
    if n > 0 { PlacedAt(kept[..n], nodeIds, supply, if i < n then i else 0); }
  }

  lemma KeptIsKnown(nodes: seq<DraftNode>, nodeIds: map<string, Uuid>)
    ensures forall n :: n in Kept(nodes, nodeIds) <==> n in nodes && n.nodeType in nodeIds
    ensures forall i :: 0 <= i < |Kept(nodes, nodeIds)| ==> Kept(nodes, nodeIds)[i].nodeType in nodeIds
  {
    FilterKeeps((n: DraftNode) => n.nodeType in nodeIds, nodes);
    var kept := Kept(nodes, nodeIds);
    forall i | 0 <= i < |kept| ensures kept[i].nodeType in nodeIds { assert kept[i] in kept; }
  }

  function Built(d: Draft, nodeIds: map<string, Uuid>, supply: nat -> Uuid, name: string): W.Workflow {
    KeptIsKnown(d.nodes, nodeIds);
    var kept := Kept(d.nodes, nodeIds);
    W.Workflow(name, Placed(kept, nodeIds, supply), Relink(d.edges, InstanceByRef(kept, supply)))
  }

  method BuildWorkflowWithRefs(d: Draft, nodeIds: map<string, Uuid>, supply: nat -> Uuid, name: string)
    returns (workflow: W.Workflow, byRef: map<DraftRef, Uuid>)
    ensures workflow == Built(d, nodeIds, supply, name)
    ensures byRef == InstanceByRef(Kept(d.nodes, nodeIds), supply)
  {
    var nodes: seq<W.Node> := [];
    byRef := map[];
    ghost var kept: seq<DraftNode> := [];
    for i := 0 to |d.nodes|
      invariant kept == Kept(d.nodes[..i], nodeIds)
      invariant forall k :: 0 <= k < |kept| ==> kept[k].nodeType in nodeIds
      invariant |nodes| == |kept| && nodes == Placed(kept, nodeIds, supply)
      invariant byRef == InstanceByRef(kept, supply)
    {
      var n := d.nodes[i];
      assert d.nodes[..i + 1][..i] == d.nodes[..i];
      if n.nodeType !in nodeIds {
        assert Kept(d.nodes[..i + 1], nodeIds) == kept + [];
        continue;
      }
      var instance := supply(|nodes|);
      byRef := byRef[n.ref := instance];
      nodes := nodes + [W.Node(instance, nodeIds[n.nodeType], JObject([]), W.UNBOUND)];
      ghost var before := kept;
      kept := kept + [n];
      assert kept[..|before|] == before;
    }
    assert d.nodes[..|d.nodes|] == d.nodes;
    var edges := RelinkEdges(d.edges, byRef);
    workflow := W.Workflow(name, nodes, edges);
  }

  // ---------------------------------------------------------------- the copy

  lemma {:induction false} RefsOfKept(kept: seq<DraftNode>, supply: nat -> Uuid, r: DraftRef)
    ensures r in InstanceByRef(kept, supply) <==> HasRef(kept, r)
    ensures DistinctRefs(kept) ==>
              forall i :: 0 <= i < |kept| && kept[i].ref == r ==> InstanceByRef(kept, supply)[r] == supply(i)
    decreases |kept|
  {
    var n := |kept| - 1;
    if n >= 0 {
      RefsOfKept(kept[..n], supply, r);
      if HasRef(kept, r) {
        var i :| 0 <= i < |kept| && kept[i].ref == r;
        assert i < n ==> kept[..n][i].ref == r;
      }
      if HasRef(kept[..n], r) {
        var i :| 0 <= i < n && kept[..n][i].ref == r;
        assert kept[i].ref == r;
      }
    }
  }

  lemma InstancesDiffer(kept: seq<DraftNode>, supply: nat -> Uuid)
    requires W.Injective(supply) && DistinctRefs(kept)
    ensures var at := InstanceByRef(kept, supply);
            forall a, b :: a in at && b in at && at[a] == at[b] ==> a == b
  {
    var at := InstanceByRef(kept, supply);
    forall a, b | a in at && b in at && at[a] == at[b] ensures a == b {
      RefsOfKept(kept, supply, a);
      RefsOfKept(kept, supply, b);
      var i :| 0 <= i < |kept| && kept[i].ref == a;
      var j :| 0 <= j < |kept| && kept[j].ref == b;
      assert supply(i) == supply(j);
    }
  }

  lemma PlacedExactly(kept: seq<DraftNode>, nodeIds: map<string, Uuid>, supply: nat -> Uuid, i: nat)
    requires DistinctRefs(kept) && i < |kept| && forall k :: 0 <= k < |kept| ==> kept[k].nodeType in nodeIds
    ensures |Placed(kept, nodeIds, supply)| == |kept| && kept[i].ref in InstanceByRef(kept, supply)
    ensures Placed(kept, nodeIds, supply)[i]
         == W.Node(InstanceByRef(kept, supply)[kept[i].ref], nodeIds[kept[i].nodeType], JObject([]), W.UNBOUND)
  {
    PlacedAt(kept, nodeIds, supply, i);
    RefsOfKept(kept, supply, kept[i].ref);
  }

  lemma KeptIsDistinct(nodes: seq<DraftNode>, nodeIds: map<string, Uuid>)
    requires DistinctRefs(nodes)
    ensures DistinctRefs(Kept(nodes, nodeIds))
  {
    FilterDistinctRefs((n: DraftNode) => n.nodeType in nodeIds, nodes);
  }

  lemma LinksExactly(edges: seq<Link<DraftRef>>, at: map<DraftRef, Uuid>)
    ensures forall x :: x in Relink(edges, at) <==>
              exists e :: e in edges && e.from in at && e.to in at
                          && x == Link(at[e.from], at[e.to], e.fromHandle, e.toHandle)
  {
    forall x | x in Relink(edges, at)
      ensures exists e :: e in edges && e.from in at && e.to in at
                          && x == Link(at[e.from], at[e.to], e.fromHandle, e.toHandle)
    {
      RelinkOrigin(edges, at, x);
    }
    forall e | e in edges && e.from in at && e.to in at
      ensures Link(at[e.from], at[e.to], e.fromHandle, e.toHandle) in Relink(edges, at)
    {
      RelinkImage(edges, at, e);
    }
  }

  /** The workflow is the induced subgraph on the nodes of known type: one instance each, no two alike,
      and exactly the edges between two of them, with their handles. */
  lemma BuildIsInducedSubgraph(d: Draft, nodeIds: map<string, Uuid>, supply: nat -> Uuid, name: string)
    requires DistinctRefs(d.nodes) && W.Injective(supply)
    ensures var w, at := Built(d, nodeIds, supply, name), InstanceByRef(Kept(d.nodes, nodeIds), supply);
            && |w.nodes| == |Kept(d.nodes, nodeIds)|
            && (forall i :: 0 <= i < |w.nodes| ==>
                  var n := Kept(d.nodes, nodeIds)[i];
                  n.nodeType in nodeIds && n.ref in at
                  && w.nodes[i] == W.Node(at[n.ref], nodeIds[n.nodeType], JObject([]), W.UNBOUND))
            && (forall a, b :: a in at && b in at && at[a] == at[b] ==> a == b)
            && (forall x :: x in w.edges <==>
                  exists e :: e in d.edges && e.from in at && e.to in at
                              && x == Link(at[e.from], at[e.to], e.fromHandle, e.toHandle))
  {
    var w, kept := Built(d, nodeIds, supply, name), Kept(d.nodes, nodeIds);
    var at := InstanceByRef(kept, supply);
    KeptIsKnown(d.nodes, nodeIds);
    KeptIsDistinct(d.nodes, nodeIds);
    InstancesDiffer(kept, supply);
    if kept != [] { PlacedExactly(kept, nodeIds, supply, 0); }
    forall i | 0 <= i < |kept|
      ensures kept[i].ref in at && w.nodes[i] == W.Node(at[kept[i].ref], nodeIds[kept[i].nodeType], JObject([]), W.UNBOUND)
    {
      PlacedExactly(kept, nodeIds, supply, i);
    }
    LinksExactly(d.edges, at);
  }

  ghost predicate AllTypesKnown(d: Draft, nodeIds: map<string, Uuid>) {
    forall n :: n in d.nodes ==> n.nodeType in nodeIds
  }

  /** With every type known the workflow is the whole draft: every node has an instance, as many edges,
      and whatever the draft's first node reaches, its instance reaches. */
  lemma BuildOfKnownTypesIsACopy(d: Draft, nodeIds: map<string, Uuid>, supply: nat -> Uuid, name: string)
    requires DistinctRefs(d.nodes) && W.Injective(supply) && AllTypesKnown(d, nodeIds) && d.nodes != []
    requires forall e :: e in d.edges ==> HasRef(d.nodes, e.from) && HasRef(d.nodes, e.to)
    ensures var w, at := Built(d, nodeIds, supply, name), InstanceByRef(Kept(d.nodes, nodeIds), supply);
            && Kept(d.nodes, nodeIds) == d.nodes
            && (forall n :: n in d.nodes ==> n.ref in at)
            && |w.edges| == |d.edges|
            && (forall n :: n in d.nodes && Reach(d.edges, d.nodes[0].ref, n.ref) ==>
                  Reach(w.edges, at[d.nodes[0].ref], at[n.ref]))
  {
    FilterAll((n: DraftNode) => n.nodeType in nodeIds, d.nodes);
    var w, at := Built(d, nodeIds, supply, name), InstanceByRef(d.nodes, supply);
    forall r ensures r in at <==> HasRef(d.nodes, r) { RefsOfKept(d.nodes, supply, r); }
    forall n | n in d.nodes ensures n.ref in at {
      var i :| 0 <= i < |d.nodes| && d.nodes[i] == n;
      assert HasRef(d.nodes, n.ref);
    }
    assert d.nodes[0] in d.nodes;
    assert forall k :: 0 <= k < |d.edges| ==> d.edges[k] in d.edges;
    RelinkAll(d.edges, at);
    forall n | n in d.nodes && Reach(d.edges, d.nodes[0].ref, n.ref)
      ensures Reach(w.edges, at[d.nodes[0].ref], at[n.ref])
    {
      var v :| WalkFrom(d.edges, v, d.nodes[0].ref, n.ref);
      RelinkReaches(d.edges, at, v, d.nodes[0].ref, n.ref);
    }
  }

  lemma CyclesLift(d: Draft, nodeIds: map<string, Uuid>, supply: nat -> Uuid, name: string, w: seq<Link<Uuid>>)
    requires DistinctRefs(d.nodes) && W.Injective(supply)
    requires forall v :: Cycle(d.edges, v) ==> exists y :: y in v && IsGateFalse(y)
    requires Cycle(Built(d, nodeIds, supply, name).edges, w)
    ensures var at := InstanceByRef(Kept(d.nodes, nodeIds), supply);
            GATE in at && exists x :: x in w && x.from == at[GATE] && x.fromHandle == IfFalse
  {
    var at := InstanceByRef(Kept(d.nodes, nodeIds), supply);
    BuildIsInducedSubgraph(d, nodeIds, supply, name);
    var v := RelinkLifts(d.edges, at, w);
    assert Cycle(d.edges, v);
    var y: Link<DraftRef> :| y in v && IsGateFalse(y);
    var i :| 0 <= i < |v| && v[i] == y;
    assert w[i] in w;
  }

  /** Whatever types are known, a cycle in the workflow leaves the gate's instance on "false". */
  lemma BuiltCyclesPassTheGate(e: Entities, sig: Signals, d: Draft, nodeIds: map<string, Uuid>,
                               supply: nat -> Uuid, name: string, w: seq<Link<Uuid>>)
    requires Extracted(e) && Assembled(e, sig) == Some(d) && W.Injective(supply)
    requires Cycle(Built(d, nodeIds, supply, name).edges, w)
    ensures var at := InstanceByRef(Kept(d.nodes, nodeIds), supply);
            GATE in at && exists x :: x in w && x.from == at[GATE] && x.fromHandle == IfFalse
  {
    DraftsAreClosed(e, sig);
    EveryCyclePassesTheGate(e, sig);
    CyclesLift(d, nodeIds, supply, name, w);
  }

  lemma ReachLifts(d: Draft, nodeIds: map<string, Uuid>, supply: nat -> Uuid, name: string, a: DraftRef, b: DraftRef)
    requires DistinctRefs(d.nodes) && W.Injective(supply)
    requires var at := InstanceByRef(Kept(d.nodes, nodeIds), supply);
             a in at && b in at && Reach(Built(d, nodeIds, supply, name).edges, at[a], at[b])
    ensures Reach(d.edges, a, b)
  {
    var at := InstanceByRef(Kept(d.nodes, nodeIds), supply);
    BuildIsInducedSubgraph(d, nodeIds, supply, name);
    var w :| WalkFrom(Built(d, nodeIds, supply, name).edges, w, at[a], at[b]);
    var v := RelinkLifts(d.edges, at, w);
    assert WalkFrom(d.edges, v, a, b);
  }

  /** The assembled workflow as a whole, when the catalogue knows every type: every instance is reachable
      from the first, exactly when no branch collected more than two sinks. */
  lemma AssembledWorkflowIsConnected(e: Entities, sig: Signals, d: Draft, nodeIds: map<string, Uuid>,
                                     supply: nat -> Uuid, name: string)
    requires Extracted(e) && Assembled(e, sig) == Some(d) && W.Injective(supply) && AllTypesKnown(d, nodeIds)
    ensures var w := Built(d, nodeIds, supply, name);
            && |w.nodes| == |d.nodes| > 0
            && ((forall i :: 0 <= i < |w.nodes| ==> Reach(w.edges, w.nodes[0].instance, w.nodes[i].instance))
                <==> (d.name == BranchOnClassification ==> |Fill(SinkSlot(true), e, sig)| == 2))
  {
    DraftsAreClosed(e, sig);
    EveryNodeIsReachable(e, sig);
    var order, tree, back := DraftIsShaped(e, sig);
    CopyIsConnected(d, nodeIds, supply, name);
  }

  lemma CopyIsConnected(d: Draft, nodeIds: map<string, Uuid>, supply: nat -> Uuid, name: string)
    requires DistinctRefs(d.nodes) && W.Injective(supply) && AllTypesKnown(d, nodeIds) && d.nodes != []
    requires forall e :: e in d.edges ==> HasRef(d.nodes, e.from) && HasRef(d.nodes, e.to)
    ensures var w := Built(d, nodeIds, supply, name);
            && |w.nodes| == |d.nodes|
            && ((forall i :: 0 <= i < |w.nodes| ==> Reach(w.edges, w.nodes[0].instance, w.nodes[i].instance))
                <==> (forall n :: n in d.nodes ==> Reach(d.edges, d.nodes[0].ref, n.ref)))
  {
    var w, at := Built(d, nodeIds, supply, name), InstanceByRef(Kept(d.nodes, nodeIds), supply);
    BuildIsInducedSubgraph(d, nodeIds, supply, name);
    BuildOfKnownTypesIsACopy(d, nodeIds, supply, name);
    forall i | 0 <= i < |d.nodes|
      ensures Reach(w.edges, w.nodes[0].instance, w.nodes[i].instance) <==> Reach(d.edges, d.nodes[0].ref, d.nodes[i].ref)
    {
      assert d.nodes[i] in d.nodes && w.nodes[i].instance == at[d.nodes[i].ref];
      assert w.nodes[0].instance == at[d.nodes[0].ref];
      if Reach(w.edges, w.nodes[0].instance, w.nodes[i].instance) {
        ReachLifts(d, nodeIds, supply, name, d.nodes[0].ref, d.nodes[i].ref);
      }
    }
  }
}
