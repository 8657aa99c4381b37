/** Which way "true" and "false" lead in the drafts the assembler returns. */
module DraftHandles {
  import opened Basics
  import opened Graph
  import opened Library
  import opened Assembler
  import opened DraftGraphs

  const ROUTER: Ref := At(Router, 0)

  predicate Decides(r: Ref) {
    r == ROUTER || r == GATE
  }

  predicate InRole(r: Ref, role: Role) {
    r.At? && r.role == role
  }

  /** What a negative decision leads to: another sink in a branch, the end behind a guard or an approval, the
      back-off of a retry, the generator in a quality loop. */
  function OtherWay(name: Name): Role {
    match name
    case BranchOnClassification => Sink
    case ConditionalAction => Terminal
    case ApprovalGate => Terminal
    case RetryBackoff => Delay
    case _ => Transform
  }

  /** Exactly router and gate decide; "true" leads to sinks only, "false" to the other way only. */
  ghost predicate Handled(edges: seq<Link<Ref>>, otherWay: Role) {
    forall x :: x in edges ==>
      && x.toHandle == Input
      && (x.fromHandle == Output <==> !Decides(x.from))
      && (x.fromHandle == IfTrue ==> InRole(x.to, Sink))
      && (x.fromHandle == IfFalse ==> InRole(x.to, otherWay))
      && !x.fromHandle.Input? && !x.fromHandle.Other?
  }

  lemma HandledBoth(a: seq<Link<Ref>>, b: seq<Link<Ref>>, otherWay: Role)
    ensures Handled(a + b, otherWay) <==> Handled(a, otherWay) && Handled(b, otherWay)
  {
    forall x | x in a || x in b ensures x in a + b {}
  }

  ghost predicate NoneDecide(nodes: seq<Node>) {
    forall i :: 0 <= i < |nodes| ==> !Decides(nodes[i].ref)
  }

  lemma {:induction false} ChainIsHandled(nodes: seq<Node>, otherWay: Role)
    requires NoneDecide(nodes)
    ensures Handled(Chain(nodes), otherWay)
    decreases |nodes|
  {
    var n := |nodes| - 1;
    if n > 0 { ChainIsHandled(nodes[..n], otherWay); }
  }

  /** Members of the sink row. */
  ghost predicate AllSinks(nodes: seq<Node>) {
    forall i :: 0 <= i < |nodes| ==> InRole(nodes[i].ref, Sink)
  }

  lemma {:induction false} SinkFanIsHandled(from: Ref, nodes: seq<Node>, handle: Handle, otherWay: Role)
    requires handle == (if Decides(from) then IfTrue else Output) && AllSinks(nodes)
    ensures Handled(Fan(from, nodes, handle), otherWay)
    decreases |nodes|
  {
    var n := |nodes| - 1;
    if n >= 0 { SinkFanIsHandled(from, nodes[..n], handle, otherWay); }
  }

  lemma {:induction false} SinkRowIsHandled(from: Ref, nodes: seq<Node>, handle: Handle, otherWay: Role)
    requires handle == (if Decides(from) then IfTrue else Output) && AllSinks(nodes)
    ensures Handled(RowFrom(from, handle, nodes), otherWay)
    decreases |nodes|
  {
    var n := |nodes| - 1;
    if n >= 0 {
      SinkRowIsHandled(from, nodes[..n], handle, otherWay);
      assert n > 0 ==> InRole(nodes[n - 1].ref, Sink);
    }
  }

  lemma SinkLinksAreHandled(from: Ref, handle: Handle, sinks: seq<Node>, otherWay: Role)
    requires handle == (if Decides(from) then IfTrue else Output) && AllSinks(sinks)
    ensures Handled(SinkLinks(from, handle, sinks), otherWay)
  {
    var row, more := Artifacts(sinks), Deliveries(sinks);
    WiredMembers(sinks);
    forall i | 0 <= i < |row| ensures InRole(row[i].ref, Sink) { assert row[i] in row; }
    forall i | 0 <= i < |more| ensures InRole(more[i].ref, Sink) { assert more[i] in more; }
    if row == [] {
      SinkFanIsHandled(from, sinks, handle, otherWay);
    } else {
      SinkRowIsHandled(from, row, handle, otherWay);
      SinkFanIsHandled(Last(row), more, Output, otherWay);
      HandledBoth(RowFrom(from, handle, row), Fan(Last(row), more, Output), otherWay);
    }
  }

  // ---------------------------------------------------------------- shape by shape

  lemma SpineDoesNotDecide(nodes: seq<Node>)
    requires NoneIn(nodes, Router) && NoneIn(nodes, Gate)
    ensures NoneDecide(nodes)
  {}

  lemma LoopIsHandled(spine: seq<Node>, gen: Ref, scorer: seq<Node>, sinks: seq<Node>)
    requires NoneDecide(spine) && InRole(gen, Transform) && InRow(scorer, Scorer) && InRow(sinks, Sink)
    ensures Handled(Chain(spine) + Judging(gen, scorer, GATE) + [Link(GATE, gen, IfFalse, Input)]
                    + SinkLinks(GATE, IfTrue, sinks), Transform)
  {
    var judging, back := Judging(gen, scorer, GATE), [Link(GATE, gen, IfFalse, Input)];
    ChainIsHandled(spine, Transform);
    assert Handled(judging, Transform) && Handled(back, Transform);
    SinkLinksAreHandled(GATE, IfTrue, sinks, Transform);
    HandledBoth(Chain(spine), judging, Transform);
    HandledBoth(Chain(spine) + judging, back, Transform);
    HandledBoth(Chain(spine) + judging + back, SinkLinks(GATE, IfTrue, sinks), Transform);
  }

  lemma LinearIsHandled(l: Lists)
    requires LinearRows(l)
    ensures Handled(LinearEdges(l), Transform)
  {
    var spine := l.trigger + l.sources + l.transforms;
    SpineIsDistinct(l.trigger, l.sources, l.transforms);
    SpineDoesNotDecide(spine);
    if Loops(l) {
      LoopIsHandled(spine, Last(l.transforms), l.scorer, l.sinks);
    } else {
      assert !Decides(Last(spine));
      ChainIsHandled(spine, Transform);
      SinkLinksAreHandled(Last(spine), Output, l.sinks, Transform);
      HandledBoth(Chain(spine), SinkLinks(Last(spine), Output, l.sinks), Transform);
    }
  }

  lemma DeliveryIsHandled(e: Entities)
    ensures Handled(DeliveryDraft(e).edges, Transform)
  {
    var row, more := DeliveryLists(e);
    var front := [PRODUCER] + row;
    assert NoneDecide(front);
    ChainIsHandled(front, Transform);
    SinkFanIsHandled(Last(front), more, Output, Transform);
    HandledBoth(Chain(front), Fan(Last(front), more, Output), Transform);
  }

  lemma GuardIsHandled(spine: seq<Node>, terminal: Ref, sinks: seq<Node>)
    requires spine != [] && NoneDecide(spine) && InRole(terminal, Terminal) && InRow(sinks, Sink)
    ensures Handled(GuardEdges(spine, ROUTER, terminal, sinks), Terminal)
  {
    var enter, no := [Plain(Last(spine), ROUTER)], [Link(ROUTER, terminal, IfFalse, Input)];
    ChainIsHandled(spine, Terminal);
    assert Handled(enter, Terminal) && Handled(no, Terminal);
    SinkFanIsHandled(ROUTER, sinks, IfTrue, Terminal);
    HandledBoth(Chain(spine), enter, Terminal);
    HandledBoth(Chain(spine) + enter, no, Terminal);
    HandledBoth(Chain(spine) + enter + no, Fan(ROUTER, sinks, IfTrue), Terminal);
  }

  lemma RetryIsHandled(spine: seq<Node>, delay: Ref, sinks: seq<Node>)
    requires spine != [] && NoneDecide(spine) && InRole(delay, Delay) && InRow(sinks, Sink)
    ensures Handled(RetryEdges(spine, GATE, delay, sinks), Delay)
  {
    var enter, no, back := [Plain(Last(spine), GATE)], [Link(GATE, delay, IfFalse, Input)], [Plain(delay, Last(spine))];
    ChainIsHandled(spine, Delay);
    assert Handled(enter, Delay) && Handled(no, Delay) && Handled(back, Delay);
    SinkFanIsHandled(GATE, sinks, IfTrue, Delay);
    HandledBoth(Chain(spine), enter, Delay);
    HandledBoth(Chain(spine) + enter, no, Delay);
    HandledBoth(Chain(spine) + enter + no, back, Delay);
    HandledBoth(Chain(spine) + enter + no + back, Fan(GATE, sinks, IfTrue), Delay);
  }

  /** A spine of trigger, sources and transforms, and the router behind it. */
  lemma SpineOf(name: Name, e: Entities, sig: Signals)
    ensures NoneDecide(Spine(name, e, sig)) && InRow(Filled(name, Router, e, sig), Router)
    ensures InRow(Filled(name, Terminal, e, sig), Terminal) && InRow(Filled(name, Sink, e, sig), Sink)
  {
    FilledInRow(name, Trigger, e, sig);
    FilledInRow(name, Source, e, sig);
    FilledInRow(name, Transform, e, sig);
    SpineIsDistinct(Filled(name, Trigger, e, sig), Filled(name, Source, e, sig), Filled(name, Transform, e, sig));
    SpineDoesNotDecide(Spine(name, e, sig));
    FilledInRow(name, Router, e, sig);
    FilledInRow(name, Terminal, e, sig);
    FilledInRow(name, Sink, e, sig);
  }

  lemma GuardEdgesAreHandled(name: Name, e: Entities, sig: Signals)
    requires Extracted(e) && e.sinks != [] && name in {ConditionalAction, ApprovalGate}
    ensures var spine, router := Spine(name, e, sig), Filled(name, Router, e, sig);
            var terminal, sinks := Filled(name, Terminal, e, sig), Filled(name, Sink, e, sig);
            && |router| == 1 && |terminal| == 1 && spine != []
            && Handled(GuardEdges(spine, router[0].ref, terminal[0].ref, sinks), Terminal)
  {
    RouterFilled(name, e, sig);
    SpineOf(name, e, sig);
    GuardIsHandled(Spine(name, e, sig), Filled(name, Terminal, e, sig)[0].ref, Filled(name, Sink, e, sig));
  }

  lemma ConditionalIsHandled(e: Entities, sig: Signals, d: Draft)
    requires Extracted(e) && ConditionalDraft(e, sig) == Some(d)
    ensures Handled(d.edges, Terminal)
  {
    GuardEdgesAreHandled(ConditionalAction, e, sig);
  }

  lemma ApprovalIsHandled(e: Entities, sig: Signals, d: Draft)
    requires Extracted(e) && ApprovalDraft(e, sig) == Some(d)
    ensures Handled(d.edges, Terminal)
  {
    GuardEdgesAreHandled(ApprovalGate, e, sig);
  }

  lemma RetrySpineDoesNotDecide(e: Entities, sig: Signals)
    ensures NoneDecide(RetrySpine(e, sig))
  {
    FilledInRow(RetryBackoff, Trigger, e, sig);
    FilledInRow(RetryBackoff, Source, e, sig);
    FilledInRow(RetryBackoff, Transform, e, sig);
  }

  lemma RetryParts(e: Entities, sig: Signals, d: Draft) returns (spine: seq<Node>, delay: Ref, sinks: seq<Node>)
    requires RetryDraft(e, sig) == Some(d)
    ensures spine != [] && spine == RetrySpine(e, sig) && InRole(delay, Delay) && InRow(sinks, Sink)
    ensures d.edges == RetryEdges(spine, GATE, delay, sinks)
  {
    RetryFilled(e, sig);
    FilledInRow(RetryBackoff, Gate, e, sig);
    FilledInRow(RetryBackoff, Delay, e, sig);
    FilledInRow(RetryBackoff, Sink, e, sig);
    spine, sinks := RetrySpine(e, sig), Filled(RetryBackoff, Sink, e, sig);
    delay := Filled(RetryBackoff, Delay, e, sig)[0].ref;
  }

  lemma RetryDraftIsHandled(e: Entities, sig: Signals, d: Draft)
    requires RetryDraft(e, sig) == Some(d)
    ensures Handled(d.edges, Delay)
  {
    var spine, delay, sinks := RetryParts(e, sig, d);
    RetrySpineDoesNotDecide(e, sig);
    RetryIsHandled(spine, delay, sinks);
  }

  lemma FanOutIsHandled(e: Entities, sig: Signals, d: Draft)
    requires Extracted(e) && FanOutDraft(e, sig) == Some(d)
    ensures Handled(d.edges, Transform)
  {
    FanOutShape(e, sig);
    FanOutRows(e, sig);
    SpineOf(FanOutMap, e, sig);
    FanOutSpineDoesNotDecide(e, sig);
    var spine, sinks := FanOutSpine(e, sig), Filled(FanOutMap, Sink, e, sig);
    ChainIsHandled(spine, Transform);
    SinkFanIsHandled(Last(spine), sinks, Output, Transform);
    HandledBoth(Chain(spine), Fan(Last(spine), sinks, Output), Transform);
  }

  lemma FanOutSpineDoesNotDecide(e: Entities, sig: Signals)
    ensures NoneDecide(FanOutSpine(e, sig))
  {
    FilledInRow(FanOutMap, Trigger, e, sig);
    FilledInRow(FanOutMap, Source, e, sig);
    FilledInRow(FanOutMap, Splitter, e, sig);
    FilledInRow(FanOutMap, Transform, e, sig);
    FilledInRow(FanOutMap, Merger, e, sig);
  }

  function YesNo(spine: seq<Node>, yes: Ref, no: Ref): seq<Link<Ref>>
    requires spine != []
  {
    Chain(spine) + [Plain(Last(spine), ROUTER)] + [Link(ROUTER, yes, IfTrue, Input)] + [Link(ROUTER, no, IfFalse, Input)]
  }

  lemma YesNoIsHandled(spine: seq<Node>, yes: Ref, no: Ref)
    requires spine != [] && NoneDecide(spine) && InRole(yes, Sink) && InRole(no, Sink)
    ensures Handled(YesNo(spine, yes, no), Sink)
    ensures forall x :: x in YesNo(spine, yes, no) ==>
              (x.fromHandle == IfTrue ==> x.to == yes) && (x.fromHandle == IfFalse ==> x.to == no)
    ensures Link(ROUTER, yes, IfTrue, Input) in YesNo(spine, yes, no)
    ensures Link(ROUTER, no, IfFalse, Input) in YesNo(spine, yes, no)
  {
    var enter, left := [Plain(Last(spine), ROUTER)], [Link(ROUTER, yes, IfTrue, Input)];
    var right := [Link(ROUTER, no, IfFalse, Input)];
    ChainIsHandled(spine, Sink);
    PlainChain(spine);
    assert Handled(enter, Sink) && Handled(left, Sink) && Handled(right, Sink);
    HandledBoth(Chain(spine), enter, Sink);
    HandledBoth(Chain(spine) + enter, left, Sink);
    HandledBoth(Chain(spine) + enter + left, right, Sink);
  }

  /** A branch is its spine, the router, and the first and the second collected sink behind "true" and "false". */
  lemma BranchIsYesNo(e: Entities, sig: Signals, d: Draft) returns (spine: seq<Node>)
    requires Extracted(e) && BranchDraft(e, sig) == Some(d)
    ensures spine != [] && NoneDecide(spine)
    ensures d.edges == YesNo(spine, At(Sink, 0), At(Sink, 1))
  {
    RouterFilled(BranchOnClassification, e, sig);
    SpineOf(BranchOnClassification, e, sig);
    spine := Spine(BranchOnClassification, e, sig);
  }

  lemma BranchSinks(e: Entities, sig: Signals, d: Draft) returns (front: seq<Node>, sinks: seq<Node>)
    requires Extracted(e) && BranchDraft(e, sig) == Some(d)
    ensures |e.sinks| == 2 && sinks == NodesFor(Sink, Fill(SinkSlot(true), e, sig)) && d.nodes == front + sinks
  {
    var name := BranchOnClassification;
    RouterFilled(name, e, sig);
    front, sinks := Spine(name, e, sig) + Filled(name, Router, e, sig), Filled(name, Sink, e, sig);
  }

  /** In a branch "true" leads to the first collected sink and to nothing else, "false" to the second. */
  lemma BranchHandles(e: Entities, sig: Signals, d: Draft)
    requires Extracted(e) && BranchDraft(e, sig) == Some(d)
    ensures Handled(d.edges, Sink)
    ensures forall x :: x in d.edges ==>
              (x.fromHandle == IfTrue ==> x.to == At(Sink, 0)) && (x.fromHandle == IfFalse ==> x.to == At(Sink, 1))
    ensures Link(ROUTER, At(Sink, 0), IfTrue, Input) in d.edges && Link(ROUTER, At(Sink, 1), IfFalse, Input) in d.edges
  {
    var spine := BranchIsYesNo(e, sig, d);
    YesNoIsHandled(spine, At(Sink, 0), At(Sink, 1));
  }

  /** The nodes behind "true" and "false" are the first two sinks collected. */
  lemma BranchTargets(e: Entities, sig: Signals, d: Draft, k: nat)
    requires Extracted(e) && BranchDraft(e, sig) == Some(d) && k < 2
    ensures |e.sinks| == 2 && |Fill(SinkSlot(true), e, sig)| >= 2
    ensures Node(At(Sink, k), Fill(SinkSlot(true), e, sig)[k], Sink) in d.nodes
    ensures forall n :: n in d.nodes && n.ref == At(Sink, k) ==> n.nodeType == Fill(SinkSlot(true), e, sig)[k]
  {
    var front, sinks := BranchSinks(e, sig, d);
    BranchCollectsTwo(e, sig, d);
    BranchIsDistinct(e, sig, d);
    TypeAt(d.nodes, front, sinks, k);
  }

  lemma BranchIsDistinct(e: Entities, sig: Signals, d: Draft)
    requires Extracted(e) && BranchDraft(e, sig) == Some(d)
    ensures DistinctRefs(d.nodes)
  {
    BranchRows(e, sig);
  }

  lemma TypeAt(nodes: seq<Node>, front: seq<Node>, row: seq<Node>, k: nat)
    requires DistinctRefs(nodes) && nodes == front + row && k < |row|
    ensures row[k] in nodes && forall n :: n in nodes && n.ref == row[k].ref ==> n == row[k]
  {
    assert nodes[|front| + k] == row[k];
    forall n | n in nodes && n.ref == row[k].ref ensures n == row[k] {
      var i :| 0 <= i < |nodes| && nodes[i] == n;
      assert i == |front| + k;
    }
  }

  /** "true" leads to the channel named first and nowhere else, "false" to the one named second. */
  ghost predicate AsSaid(d: Draft, e: Entities)
    requires |e.sinks| == 2
  {
    forall x, n :: x in d.edges && n in d.nodes && n.ref == x.to ==>
      && (x.fromHandle == IfTrue ==> n.nodeType == e.sinks[0])
      && (x.fromHandle == IfFalse ==> n.nodeType == e.sinks[1])
  }

  lemma AsCollected(e: Entities, sig: Signals, d: Draft)
    requires Extracted(e) && BranchDraft(e, sig) == Some(d)
    ensures |e.sinks| == 2 && |Fill(SinkSlot(true), e, sig)| >= 2
    ensures AsSaid(d, e) <==> Fill(SinkSlot(true), e, sig)[..2] == e.sinks
  {
    BranchHandles(e, sig, d);
    BranchTargets(e, sig, d, 0);
    BranchTargets(e, sig, d, 1);
    AsTargeted(d, e, Fill(SinkSlot(true), e, sig));
  }

  lemma AsTargeted(d: Draft, e: Entities, fill: seq<string>)
    requires |e.sinks| == 2 && |fill| >= 2
    requires forall k :: 0 <= k < 2 ==> Node(At(Sink, k), fill[k], Sink) in d.nodes
    requires forall n :: n in d.nodes ==>
               (n.ref == At(Sink, 0) ==> n.nodeType == fill[0]) && (n.ref == At(Sink, 1) ==> n.nodeType == fill[1])
    requires forall x :: x in d.edges ==>
               (x.fromHandle == IfTrue ==> x.to == At(Sink, 0)) && (x.fromHandle == IfFalse ==> x.to == At(Sink, 1))
    requires Link(ROUTER, At(Sink, 0), IfTrue, Input) in d.edges && Link(ROUTER, At(Sink, 1), IfFalse, Input) in d.edges
    ensures AsSaid(d, e) <==> fill[..2] == e.sinks
  {
    assert fill[..2] == e.sinks <==> fill[0] == e.sinks[0] && fill[1] == e.sinks[1];
    if AsSaid(d, e) {
      var yes, no := Link(ROUTER, At(Sink, 0), IfTrue, Input), Link(ROUTER, At(Sink, 1), IfFalse, Input);
      assert yes in d.edges && Node(At(Sink, 0), fill[0], Sink) in d.nodes;
      assert no in d.edges && Node(At(Sink, 1), fill[1], Sink) in d.nodes;
    }
  }

  /** Picks come first, then the named sinks that are not among them. */
  lemma FirstTwoFilled(e: Entities, sig: Signals)
    requires Extracted(e) && |e.sinks| == 2
    ensures var picks := Picks(SinkSlot(true), sig);
            && |Fill(SinkSlot(true), e, sig)| >= 2
            && (Fill(SinkSlot(true), e, sig)[..2] == e.sinks
                <==> forall k :: 0 <= k < 2 && k < |picks| ==> picks[k] == e.sinks[k])
  {
    var picks := Picks(SinkSlot(true), sig);
    SinkFill(e, sig);
    TwoSinksAreCollected(true, e, sig);
    FirstTwoOf(picks, e.sinks, Fill(SinkSlot(true), e, sig));
  }

  lemma FirstTwoOf(picks: seq<string>, named: seq<string>, fill: seq<string>)
    requires Distinct(named) && |named| == 2 && |fill| >= 2
    requires fill == if picks == [] then named else picks + Besides(named, picks)
    ensures fill[..2] == named <==> forall k :: 0 <= k < 2 && k < |picks| ==> picks[k] == named[k]
  {
    if |picks| == 0 {
      assert fill[..2] == named;
    } else if |picks| == 1 {
      SecondIsBeside(picks[0], named);
      assert picks == [picks[0]];
    } else {
      assert fill[..2] == [picks[0], picks[1]] && named == [named[0], named[1]];
    }
  }

  lemma SecondIsBeside(pick: string, named: seq<string>)
    requires Distinct(named) && |named| == 2
    ensures var all := [pick] + Besides(named, [pick]); |all| >= 2 && (all[..2] == named <==> pick == named[0])
  {
    assert named == [named[0]] + [named[1]];
    FilterAppend((t: string) => t !in [pick], [named[0]], [named[1]]);
    assert [named[0]][..0] == [] && [named[1]][..0] == [];
  }

  /** A branch leads the way the request says, the channel named first behind "true" and the one named second behind
      "false", exactly when the ensemble's first two picks, as far as there are any, are these two in this order. */
  lemma BranchKeepsTheOrderSaid(e: Entities, sig: Signals, d: Draft)
    requires Extracted(e) && BranchDraft(e, sig) == Some(d)
    ensures |e.sinks| == 2
    ensures var picks := Picks(SinkSlot(true), sig);
            AsSaid(d, e) <==> forall k :: 0 <= k < 2 && k < |picks| ==> picks[k] == e.sinks[k]
    ensures Picks(SinkSlot(true), sig) == [] ==>
              Node(At(Sink, 0), e.sinks[0], Sink) in d.nodes && Node(At(Sink, 1), e.sinks[1], Sink) in d.nodes
  {
    AsCollected(e, sig, d);
    FirstTwoFilled(e, sig);
    BranchTargets(e, sig, d, 0);
    BranchTargets(e, sig, d, 1);
    var fill := Fill(SinkSlot(true), e, sig);
    assert fill[..2] == e.sinks ==> fill[..2][0] == e.sinks[0] && fill[..2][1] == e.sinks[1];
  }

  lemma {:induction false} PlainChain(nodes: seq<Node>)
    ensures forall x :: x in Chain(nodes) ==> x.fromHandle == Output
    decreases |nodes|
  {
    var n := |nodes| - 1;
    if n > 0 { PlainChain(nodes[..n]); }
  }

  function ByShape<T>(shape: Shape, approval: T, retry: T, fanOut: T, branch: T, guard: T): T {
    match shape
    case Approval => approval
    case Retry => retry
    case FanOut => fanOut
    case Branch => branch
    case Guard => guard
  }

  /** The draft behind each shape the request may ask for. */
  function DraftOf(shape: Shape, e: Entities, sig: Signals): Option<Draft>
    requires Extracted(e)
  {
    ByShape(shape, ApprovalDraft(e, sig), RetryDraft(e, sig), FanOutDraft(e, sig), BranchDraft(e, sig),
            ConditionalDraft(e, sig))
  }

  lemma FirstOfShapes<T>(shapes: set<Shape>, approval: T, retry: T, fanOut: T, branch: T, guard: T, otherwise: T)
    returns (shape: Shape)
    requires shapes != {}
    ensures shape in shapes
    ensures ByShape(shape, approval, retry, fanOut, branch, guard)
         == if Approval in shapes then approval else if Retry in shapes then retry
            else if FanOut in shapes then fanOut else if Branch in shapes then branch
            else if Guard in shapes then guard else otherwise
  {
    shape :| shape in shapes;
    shape := if Approval in shapes then Approval else if Retry in shapes then Retry
             else if FanOut in shapes then FanOut else if Branch in shapes then Branch else shape;
  }

  lemma RoutedToAShape(shapes: set<Shape>, e: Entities, sig: Signals) returns (shape: Shape)
    requires Extracted(e) && shapes != {}
    ensures shape in shapes && Routed(shapes, e, sig) == DraftOf(shape, e, sig)
  {
    shape := FirstOfShapes(shapes, ApprovalDraft(e, sig), RetryDraft(e, sig), FanOutDraft(e, sig),
                           BranchDraft(e, sig), ConditionalDraft(e, sig), Routed({}, e, sig));
  }

  function NameOf(shape: Shape): Name {
    ByShape(shape, ApprovalGate, RetryBackoff, FanOutMap, BranchOnClassification, ConditionalAction)
  }

  lemma NamedByShape(shape: Shape, e: Entities, sig: Signals, d: Draft)
    requires Extracted(e) && DraftOf(shape, e, sig) == Some(d)
    ensures d.name == NameOf(shape)
  {}

  /** `d` is none, or every decision in it leads the right way. */
  ghost predicate HandledIfAny(d: Option<Draft>, otherWay: Role) {
    d.Some? ==> Handled(d.value.edges, otherWay)
  }

  lemma GuardsAreHandled(e: Entities, sig: Signals)
    requires Extracted(e)
    ensures HandledIfAny(ConditionalDraft(e, sig), Terminal) && HandledIfAny(ApprovalDraft(e, sig), Terminal)
  {
    if ConditionalDraft(e, sig).Some? { ConditionalIsHandled(e, sig, ConditionalDraft(e, sig).value); }
    if ApprovalDraft(e, sig).Some? { ApprovalIsHandled(e, sig, ApprovalDraft(e, sig).value); }
  }

  lemma SinkShapesAreHandled(e: Entities, sig: Signals)
    requires Extracted(e)
    ensures HandledIfAny(RetryDraft(e, sig), Delay) && HandledIfAny(FanOutDraft(e, sig), Transform)
    ensures HandledIfAny(BranchDraft(e, sig), Sink)
  {
    if RetryDraft(e, sig).Some? { RetryDraftIsHandled(e, sig, RetryDraft(e, sig).value); }
    if FanOutDraft(e, sig).Some? { FanOutIsHandled(e, sig, FanOutDraft(e, sig).value); }
    if BranchDraft(e, sig).Some? { BranchHandles(e, sig, BranchDraft(e, sig).value); }
  }

  lemma PickedByShape(shape: Shape, approval: Option<Draft>, retry: Option<Draft>, fanOut: Option<Draft>,
                      branch: Option<Draft>, guard: Option<Draft>)
    requires HandledIfAny(approval, Terminal) && HandledIfAny(guard, Terminal)
    requires HandledIfAny(retry, Delay) && HandledIfAny(fanOut, Transform) && HandledIfAny(branch, Sink)
    ensures HandledIfAny(ByShape(shape, approval, retry, fanOut, branch, guard), OtherWay(NameOf(shape)))
  {}

  lemma ShapeIsHandled(shape: Shape, e: Entities, sig: Signals)
    requires Extracted(e)
    ensures HandledIfAny(DraftOf(shape, e, sig), OtherWay(NameOf(shape)))
  {
    GuardsAreHandled(e, sig);
    SinkShapesAreHandled(e, sig);
    PickedByShape(shape, ApprovalDraft(e, sig), RetryDraft(e, sig), FanOutDraft(e, sig), BranchDraft(e, sig),
                  ConditionalDraft(e, sig));
  }

  lemma UnshapedIsHandled(e: Entities, sig: Signals, d: Draft)
    requires Extracted(e) && Routed({}, e, sig) == Some(d)
    ensures Handled(d.edges, OtherWay(d.name))
  {
    UnshapedRoute(e, sig);
    if OnlySinks(e) {
      DeliveryIsHandled(e);
    } else {
      LinearOrigin(e, sig, d);
      LinearListsAreRows(d.name, e, sig);
      LinearIsHandled(LinearLists(d.name, e, sig));
    }
  }

  /** In every draft: only router and gate decide, "true" leads to sinks, and "false" leads the other way; so
      behind a guard, an approval, a retry or a quality loop no sink is reached directly on "false". */
  lemma DecisionsLeadTheRightWay(e: Entities, sig: Signals, d: Draft)
    requires Extracted(e) && Assembled(e, sig) == Some(d)
    ensures Handled(d.edges, OtherWay(d.name))
  {
    if Shapes(e) == {} {
      UnshapedIsHandled(e, sig, d);
    } else {
      var shape := RoutedToAShape(Shapes(e), e, sig);
      ShapeIsHandled(shape, e, sig);
      NamedByShape(shape, e, sig, d);
    }
  }
}
