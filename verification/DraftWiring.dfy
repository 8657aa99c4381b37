/** Which connections a draft has (modules/ai_agent/domain/services/skeleton_assembler.py, the assembling methods),
    said of its nodes by their roles. */
module DraftWiring {
  import opened Basics
  import opened Graph
  import opened Library
  import opened Assembler
  import opened DraftGraphs
  import opened DraftHandles
  import opened DraftChoice
  import opened DraftRows

  // ---------------------------------------------------------------- the connections, by role

  /** The nodes that work in a row: trigger, sources, splitter, operations, merger. */
  function Work(nodes: seq<Node>): seq<Node> {
    Row(nodes, Trigger) + Row(nodes, Source) + Row(nodes, Splitter) + Row(nodes, Transform) + Row(nodes, Merger)
  }

  /** From one node of the row to the next. */
  ghost predicate Steps(row: seq<Node>, l: Link<Ref>) {
    exists i :: 0 <= i < |row| - 1 && l == Link(row[i].ref, row[i + 1].ref, Output, Input)
  }

  /** From one node to one of several. */
  ghost predicate Fans(from: Ref, handle: Handle, nodes: seq<Node>, l: Link<Ref>) {
    exists i :: 0 <= i < |nodes| && l == Link(from, nodes[i].ref, handle, Input)
  }

  predicate MakesFile(n: Node) {
    n.nodeType == "pdf_generate" || n.nodeType == "file_write"
  }

  /** To the sinks: those that make a file in a row, and from the last of them to each of the others. */
  ghost predicate Delivers(from: Ref, handle: Handle, sinks: seq<Node>, l: Link<Ref>) {
    var files, others := Filter((n: Node) => MakesFile(n), sinks), Filter((n: Node) => !MakesFile(n), sinks);
    if files == [] then Fans(from, handle, sinks, l)
    else
      || l == Link(from, files[0].ref, handle, Input) || Steps(files, l)
      || Fans(files[|files| - 1].ref, Output, others, l)
  }

  /** From the last operation to the check, by way of the scorer if there is one, and back from it on "false". */
  ghost predicate Checks(last: Ref, scorer: seq<Node>, gate: Ref, l: Link<Ref>) {
    || (scorer == [] && l == Link(last, gate, Output, Input))
    || (scorer != [] && (l == Link(last, scorer[0].ref, Output, Input) || l == Link(scorer[0].ref, gate, Output, Input)))
    || l == Link(gate, last, IfFalse, Input)
  }

  ghost predicate LinearWired(nodes: seq<Node>, l: Link<Ref>)
    requires Work(nodes) != []
  {
    var last, gate, sinks := Last(Work(nodes)), Row(nodes, Gate), Row(nodes, Sink);
    || Steps(Work(nodes), l)
    || (gate == [] && Delivers(last, Output, sinks, l))
    || (gate != [] && (Checks(last, Row(nodes, Scorer), gate[0].ref, l) || Delivers(gate[0].ref, IfTrue, sinks, l)))
  }

  /** Through the router: on "true" to the first sink, on "false" to the second. */
  ghost predicate BranchWired(nodes: seq<Node>, l: Link<Ref>)
    requires Work(nodes) != [] && Row(nodes, Router) != [] && |Row(nodes, Sink)| >= 2
  {
    var router, sinks := Row(nodes, Router)[0].ref, Row(nodes, Sink);
    || Steps(Work(nodes), l) || l == Link(Last(Work(nodes)), router, Output, Input)
    || l == Link(router, sinks[0].ref, IfTrue, Input) || l == Link(router, sinks[1].ref, IfFalse, Input)
  }

  /** Through the router: on "true" to every sink, on "false" to the end. */
  ghost predicate GuardWired(nodes: seq<Node>, l: Link<Ref>)
    requires Work(nodes) != [] && Row(nodes, Router) != [] && Row(nodes, Terminal) != []
  {
    var router := Row(nodes, Router)[0].ref;
    || Steps(Work(nodes), l) || l == Link(Last(Work(nodes)), router, Output, Input)
    || l == Link(router, Row(nodes, Terminal)[0].ref, IfFalse, Input) || Fans(router, IfTrue, Row(nodes, Sink), l)
  }

  /** Through the check: on "true" to every sink, on "false" to the delay and from there to the last operation. */
  ghost predicate RetryWired(nodes: seq<Node>, l: Link<Ref>)
    requires Work(nodes) != [] && Row(nodes, Gate) != [] && Row(nodes, Delay) != []
  {
    var last, gate, delay := Last(Work(nodes)), Row(nodes, Gate)[0].ref, Row(nodes, Delay)[0].ref;
    || Steps(Work(nodes), l) || l == Link(last, gate, Output, Input) || l == Link(gate, delay, IfFalse, Input)
    || l == Link(delay, last, Output, Input) || Fans(gate, IfTrue, Row(nodes, Sink), l)
  }

  ghost predicate FanOutWired(nodes: seq<Node>, l: Link<Ref>)
    requires Work(nodes) != []
  {
    Steps(Work(nodes), l) || Fans(Last(Work(nodes)), Output, Row(nodes, Sink), l)
  }

  ghost predicate Wired(d: Draft, l: Link<Ref>) {
    && Work(d.nodes) != []
    && match d.name
       case BranchOnClassification =>
         Row(d.nodes, Router) != [] && |Row(d.nodes, Sink)| >= 2 && BranchWired(d.nodes, l)
       case ConditionalAction => Row(d.nodes, Router) != [] && Row(d.nodes, Terminal) != [] && GuardWired(d.nodes, l)
       case ApprovalGate => Row(d.nodes, Router) != [] && Row(d.nodes, Terminal) != [] && GuardWired(d.nodes, l)
       case RetryBackoff => Row(d.nodes, Gate) != [] && Row(d.nodes, Delay) != [] && RetryWired(d.nodes, l)
       case FanOutMap => FanOutWired(d.nodes, l)
       case ContentDelivery => Delivers(Last(Work(d.nodes)), Output, Row(d.nodes, Sink), l)
       case _ => LinearWired(d.nodes, l)
  }

  lemma WiredAsBranch(d: Draft, l: Link<Ref>)
    requires d.name == BranchOnClassification && Work(d.nodes) != []
    requires Row(d.nodes, Router) != [] && |Row(d.nodes, Sink)| >= 2
    ensures Wired(d, l) == BranchWired(d.nodes, l)
  {}

  lemma WiredAsGuard(d: Draft, l: Link<Ref>)
    requires d.name in {ConditionalAction, ApprovalGate} && Work(d.nodes) != []
    requires Row(d.nodes, Router) != [] && Row(d.nodes, Terminal) != []
    ensures Wired(d, l) == GuardWired(d.nodes, l)
  {}

  lemma WiredAsRetry(d: Draft, l: Link<Ref>)
    requires d.name == RetryBackoff && Work(d.nodes) != [] && Row(d.nodes, Gate) != [] && Row(d.nodes, Delay) != []
    ensures Wired(d, l) == RetryWired(d.nodes, l)
  {}

  lemma WiredAsFanOut(d: Draft, l: Link<Ref>)
    requires d.name == FanOutMap && Work(d.nodes) != []
    ensures Wired(d, l) == FanOutWired(d.nodes, l)
  {}

  lemma WiredAsDelivery(d: Draft, l: Link<Ref>)
    requires d.name == ContentDelivery && Work(d.nodes) != []
    ensures Wired(d, l) == Delivers(Last(Work(d.nodes)), Output, Row(d.nodes, Sink), l)
  {}

  lemma WiredAsLinear(d: Draft, l: Link<Ref>)
    requires IsLinear(d.name) && Work(d.nodes) != []
    ensures Wired(d, l) == LinearWired(d.nodes, l)
  {}

  // ---------------------------------------------------------------- members of the edge lists

  lemma {:induction false} ChainSteps(nodes: seq<Node>, l: Link<Ref>)
    ensures l in Chain(nodes) <==> Steps(nodes, l)
    decreases |nodes|
  {
    var n := |nodes| - 1;
    if n > 0 {
      var shorter := nodes[..n];
      ChainSteps(shorter, l);
      assert Steps(nodes, l) <==> Steps(shorter, l) || l == Plain(nodes[n - 1].ref, nodes[n].ref) by {
        if i :| 0 <= i < |nodes| - 1 && l == Link(nodes[i].ref, nodes[i + 1].ref, Output, Input) {
          if i < n - 1 { assert l == Link(shorter[i].ref, shorter[i + 1].ref, Output, Input); }
        }
        if i :| 0 <= i < |shorter| - 1 && l == Link(shorter[i].ref, shorter[i + 1].ref, Output, Input) {
          assert l == Link(nodes[i].ref, nodes[i + 1].ref, Output, Input);
        }
      }
    }
  }

  lemma {:induction false} FanFans(from: Ref, nodes: seq<Node>, handle: Handle, l: Link<Ref>)
    ensures l in Fan(from, nodes, handle) <==> Fans(from, handle, nodes, l)
    decreases |nodes|
  {
    if nodes != [] {
      var n := |nodes| - 1;
      var shorter := nodes[..n];
      FanFans(from, shorter, handle, l);
      assert Fans(from, handle, nodes, l) <==> Fans(from, handle, shorter, l) || l == Link(from, nodes[n].ref, handle, Input) by {
        if i :| 0 <= i < |nodes| && l == Link(from, nodes[i].ref, handle, Input) {
          if i < n { assert shorter[i] == nodes[i]; }
        }
        if i :| 0 <= i < |shorter| && l == Link(from, shorter[i].ref, handle, Input) { assert nodes[i] == shorter[i]; }
      }
    }
  }

  lemma {:induction false} RowFromSteps(from: Ref, handle: Handle, row: seq<Node>, l: Link<Ref>)
    requires row != []
    ensures l in RowFrom(from, handle, row) <==> l == Link(from, row[0].ref, handle, Input) || Steps(row, l)
    decreases |row|
  {
    var n := |row| - 1;
    var shorter := row[..n];
    if n == 0 {
      assert RowFrom(from, handle, shorter) == [];
    } else {
      RowFromSteps(from, handle, shorter, l);
      ChainSteps(row, l);
      ChainSteps(shorter, l);
      assert Chain(row) == Chain(shorter) + [Plain(row[n - 1].ref, row[n].ref)];
    }
  }

  lemma SameFiles(sinks: seq<Node>)
    ensures Artifacts(sinks) == Filter((n: Node) => MakesFile(n), sinks)
    ensures Deliveries(sinks) == Filter((n: Node) => !MakesFile(n), sinks)
  {
    FilterAgree((s: Node) => IsArtifactSink(s.nodeType), (n: Node) => MakesFile(n), sinks);
    FilterAgree((s: Node) => !IsArtifactSink(s.nodeType), (n: Node) => !MakesFile(n), sinks);
  }

  lemma SinkLinksDeliver(from: Ref, handle: Handle, sinks: seq<Node>, l: Link<Ref>)
    ensures l in SinkLinks(from, handle, sinks) <==> Delivers(from, handle, sinks, l)
  {
    SameFiles(sinks);
    var files, others := Artifacts(sinks), Deliveries(sinks);
    if files == [] {
      FanFans(from, sinks, handle, l);
    } else {
      RowFromSteps(from, handle, files, l);
      FanFans(Last(files), others, Output, l);
    }
  }

  // ---------------------------------------------------------------- shaped drafts

  lemma ThreeOf(a: seq<Node>, b: seq<Node>, c: seq<Node>)
    ensures a + b + [] + c + [] == a + b + c
  {}

  lemma WorkOf(nodes: seq<Node>, t: seq<Node>, s: seq<Node>, x: seq<Node>)
    requires Row(nodes, Trigger) == t && Row(nodes, Source) == s && Row(nodes, Transform) == x
    requires Row(nodes, Splitter) == [] && Row(nodes, Merger) == []
    ensures Work(nodes) == t + s + x
  {
    ThreeOf(t, s, x);
  }

  lemma NeitherSplitsNorMerges(name: Name, e: Entities, sig: Signals)
    requires name != FanOutMap
    ensures Filled(name, Splitter, e, sig) == [] && Filled(name, Merger, e, sig) == []
  {
    ControlGiven(name, Splitter, e, sig);
    ControlGiven(name, Merger, e, sig);
  }

  lemma ShapedWork(name: Name, nodes: seq<Node>, e: Entities, sig: Signals)
    requires forall role :: Row(nodes, role) == Filled(name, role, e, sig)
    requires name != FanOutMap
    ensures Work(nodes) == Spine(name, e, sig)
  {
    NeitherSplitsNorMerges(name, e, sig);
    WorkOf(nodes, Filled(name, Trigger, e, sig), Filled(name, Source, e, sig), Filled(name, Transform, e, sig));
  }

  lemma BranchEdges(spine: seq<Node>, router: Ref, yes: Ref, no: Ref, l: Link<Ref>)
    requires spine != []
    ensures l in Chain(spine) + [Plain(Last(spine), router)] + [Link(router, yes, IfTrue, Input)] + [Link(router, no, IfFalse, Input)]
       <==> || Steps(spine, l) || l == Link(Last(spine), router, Output, Input)
            || l == Link(router, yes, IfTrue, Input) || l == Link(router, no, IfFalse, Input)
  {
    ChainSteps(spine, l);
  }

  lemma BranchIsWired(nodes: seq<Node>, spine: seq<Node>, router: seq<Node>, sinks: seq<Node>, l: Link<Ref>)
    requires spine != [] && router != [] && |sinks| >= 2
    requires Work(nodes) == spine && Row(nodes, Router) == router && Row(nodes, Sink) == sinks
    ensures l in Chain(spine) + [Plain(Last(spine), router[0].ref)] + [Link(router[0].ref, sinks[0].ref, IfTrue, Input)]
                 + [Link(router[0].ref, sinks[1].ref, IfFalse, Input)]
       <==> BranchWired(nodes, l)
  {
    BranchEdges(spine, router[0].ref, sinks[0].ref, sinks[1].ref, l);
  }

  lemma BranchLinks(e: Entities, sig: Signals, d: Draft)
    requires Extracted(e) && BranchDraft(e, sig) == Some(d)
    ensures d.name == BranchOnClassification
    ensures var name := BranchOnClassification;
            var spine, router, sinks := Spine(name, e, sig), Filled(name, Router, e, sig), Filled(name, Sink, e, sig);
            && spine != [] && router != [] && |sinks| >= 2
            && d.edges == Chain(spine) + [Plain(Last(spine), router[0].ref)]
                          + [Link(router[0].ref, sinks[0].ref, IfTrue, Input)]
                          + [Link(router[0].ref, sinks[1].ref, IfFalse, Input)]
  {
    RouterFilled(BranchOnClassification, e, sig);
  }

  lemma BranchedIsWired(e: Entities, sig: Signals, d: Draft, l: Link<Ref>)
    requires Extracted(e) && BranchDraft(e, sig) == Some(d)
    requires forall role :: Row(d.nodes, role) == Filled(BranchOnClassification, role, e, sig)
    ensures l in d.edges <==> Wired(d, l)
  {
    var name := BranchOnClassification;
    BranchLinks(e, sig, d);
    ShapedWork(name, d.nodes, e, sig);
    BranchIsWired(d.nodes, Spine(name, e, sig), Filled(name, Router, e, sig), Filled(name, Sink, e, sig), l);
    WiredAsBranch(d, l);
  }

  lemma GuardEdgesWire(spine: seq<Node>, router: Ref, terminal: Ref, sinks: seq<Node>, l: Link<Ref>)
    requires spine != []
    ensures l in GuardEdges(spine, router, terminal, sinks)
       <==> || Steps(spine, l) || l == Link(Last(spine), router, Output, Input)
            || l == Link(router, terminal, IfFalse, Input) || Fans(router, IfTrue, sinks, l)
  {
    ChainSteps(spine, l);
    FanFans(router, sinks, IfTrue, l);
  }

  /** A guard or an approval, given its rows. */
  lemma GuardIsWired(nodes: seq<Node>, spine: seq<Node>, router: seq<Node>, terminal: seq<Node>, sinks: seq<Node>, l: Link<Ref>)
    requires spine != [] && router != [] && terminal != []
    requires Work(nodes) == spine && Row(nodes, Router) == router
    requires Row(nodes, Terminal) == terminal && Row(nodes, Sink) == sinks
    ensures l in GuardEdges(spine, router[0].ref, terminal[0].ref, sinks) <==> GuardWired(nodes, l)
  {
    GuardEdgesWire(spine, router[0].ref, terminal[0].ref, sinks, l);
  }

  ghost predicate GuardParts(name: Name, e: Entities, sig: Signals, edges: seq<Link<Ref>>) {
    var spine, router := Spine(name, e, sig), Filled(name, Router, e, sig);
    var terminal, sinks := Filled(name, Terminal, e, sig), Filled(name, Sink, e, sig);
    spine != [] && router != [] && terminal != [] && edges == GuardEdges(spine, router[0].ref, terminal[0].ref, sinks)
  }

  lemma ConditionalParts(e: Entities, sig: Signals, d: Draft)
    requires Extracted(e) && ConditionalDraft(e, sig) == Some(d)
    ensures d.name == ConditionalAction && GuardParts(ConditionalAction, e, sig, d.edges)
  {
    RouterFilled(ConditionalAction, e, sig);
  }

  lemma ApprovalParts(e: Entities, sig: Signals, d: Draft)
    requires Extracted(e) && ApprovalDraft(e, sig) == Some(d)
    ensures d.name == ApprovalGate && GuardParts(ApprovalGate, e, sig, d.edges)
  {
    RouterFilled(ApprovalGate, e, sig);
  }

  lemma GuardedIsWired(e: Entities, sig: Signals, d: Draft, l: Link<Ref>)
    requires d.name in {ConditionalAction, ApprovalGate} && GuardParts(d.name, e, sig, d.edges)
    requires forall role :: Row(d.nodes, role) == Filled(d.name, role, e, sig)
    ensures l in d.edges <==> Wired(d, l)
  {
    ShapedWork(d.name, d.nodes, e, sig);
    GuardIsWired(d.nodes, Spine(d.name, e, sig), Filled(d.name, Router, e, sig), Filled(d.name, Terminal, e, sig),
                 Filled(d.name, Sink, e, sig), l);
    WiredAsGuard(d, l);
  }

  lemma RetryEdgesWire(spine: seq<Node>, gate: Ref, delay: Ref, sinks: seq<Node>, l: Link<Ref>)
    requires spine != []
    ensures l in RetryEdges(spine, gate, delay, sinks)
       <==> || Steps(spine, l) || l == Link(Last(spine), gate, Output, Input) || l == Link(gate, delay, IfFalse, Input)
            || l == Link(delay, Last(spine), Output, Input) || Fans(gate, IfTrue, sinks, l)
  {
    ChainSteps(spine, l);
    FanFans(gate, sinks, IfTrue, l);
  }

  lemma RetryIsWired(nodes: seq<Node>, spine: seq<Node>, gate: seq<Node>, delay: seq<Node>, sinks: seq<Node>, l: Link<Ref>)
    requires spine != [] && gate != [] && delay != []
    requires Work(nodes) == spine && Row(nodes, Gate) == gate && Row(nodes, Delay) == delay && Row(nodes, Sink) == sinks
    ensures l in RetryEdges(spine, gate[0].ref, delay[0].ref, sinks) <==> RetryWired(nodes, l)
  {
    RetryEdgesWire(spine, gate[0].ref, delay[0].ref, sinks, l);
  }

  lemma RetryWork(nodes: seq<Node>, e: Entities, sig: Signals)
    requires forall role :: Row(nodes, role) == Filled(RetryBackoff, role, e, sig)
    ensures Work(nodes) == RetrySpine(e, sig)
  {
    ShapedWork(RetryBackoff, nodes, e, sig);
    TwoSpines(Filled(RetryBackoff, Trigger, e, sig), Filled(RetryBackoff, Source, e, sig),
              Filled(RetryBackoff, Transform, e, sig));
  }

  lemma TwoSpines(t: seq<Node>, s: seq<Node>, x: seq<Node>)
    ensures t + s + x == t + (s + x)
  {}

  lemma RetryLinks(e: Entities, sig: Signals, d: Draft)
    requires RetryDraft(e, sig) == Some(d)
    ensures d.name == RetryBackoff && RetrySpine(e, sig) != []
    ensures Filled(RetryBackoff, Gate, e, sig) != [] && Filled(RetryBackoff, Delay, e, sig) != []
    ensures d.edges == RetryEdges(RetrySpine(e, sig), Filled(RetryBackoff, Gate, e, sig)[0].ref,
                                  Filled(RetryBackoff, Delay, e, sig)[0].ref, Filled(RetryBackoff, Sink, e, sig))
  {
    RetryFilled(e, sig);
  }

  lemma RetriedIsWired(e: Entities, sig: Signals, d: Draft, l: Link<Ref>)
    requires RetryDraft(e, sig) == Some(d)
    requires forall role :: Row(d.nodes, role) == Filled(RetryBackoff, role, e, sig)
    ensures l in d.edges <==> Wired(d, l)
  {
    RetryLinks(e, sig, d);
    RetryWork(d.nodes, e, sig);
    RetryIsWired(d.nodes, RetrySpine(e, sig), Filled(RetryBackoff, Gate, e, sig), Filled(RetryBackoff, Delay, e, sig),
                 Filled(RetryBackoff, Sink, e, sig), l);
    WiredAsRetry(d, l);
  }

  lemma FanOutIsWired(nodes: seq<Node>, spine: seq<Node>, sinks: seq<Node>, l: Link<Ref>)
    requires spine != [] && Work(nodes) == spine && Row(nodes, Sink) == sinks
    ensures l in Chain(spine) + Fan(Last(spine), sinks, Output) <==> FanOutWired(nodes, l)
  {
    ChainSteps(spine, l);
    FanFans(Last(spine), sinks, Output, l);
  }

  lemma FanOutLinks(e: Entities, sig: Signals, d: Draft)
    requires Extracted(e) && FanOutDraft(e, sig) == Some(d)
    ensures d.name == FanOutMap && FanOutSpine(e, sig) != []
    ensures d.edges == Chain(FanOutSpine(e, sig)) + Fan(Last(FanOutSpine(e, sig)), Filled(FanOutMap, Sink, e, sig), Output)
  {
    FanOutFilled(e, sig);
  }

  lemma FannedIsWired(e: Entities, sig: Signals, d: Draft, l: Link<Ref>)
    requires Extracted(e) && FanOutDraft(e, sig) == Some(d)
    requires forall role :: Row(d.nodes, role) == Filled(FanOutMap, role, e, sig)
    ensures l in d.edges <==> Wired(d, l)
  {
    FanOutLinks(e, sig, d);
    FanOutIsWired(d.nodes, FanOutSpine(e, sig), Filled(FanOutMap, Sink, e, sig), l);
    WiredAsFanOut(d, l);
  }

  lemma GuardsAreWired(shape: Shape, e: Entities, sig: Signals, d: Draft, l: Link<Ref>)
    requires Extracted(e) && DraftOf(shape, e, sig) == Some(d) && (shape == Approval || shape == Guard)
    requires forall role :: Row(d.nodes, role) == Filled(NameOf(shape), role, e, sig)
    ensures l in d.edges <==> Wired(d, l)
  {
    if shape == Approval { ApprovalParts(e, sig, d); } else { ConditionalParts(e, sig, d); }
    GuardedIsWired(e, sig, d, l);
  }

  lemma ShapeIsWired(shape: Shape, e: Entities, sig: Signals, d: Draft, l: Link<Ref>)
    requires Extracted(e) && DraftOf(shape, e, sig) == Some(d)
    requires forall role :: Row(d.nodes, role) == Filled(NameOf(shape), role, e, sig)
    ensures l in d.edges <==> Wired(d, l)
  {
    match shape {
      case Approval => GuardsAreWired(shape, e, sig, d, l);
      case Retry => RetriedIsWired(e, sig, d, l);
      case FanOut => FannedIsWired(e, sig, d, l);
      case Branch => BranchedIsWired(e, sig, d, l);
      case Guard => GuardsAreWired(shape, e, sig, d, l);
    }
  }

  // ---------------------------------------------------------------- linear drafts and content deliveries

  lemma LinearWork(l: Lists)
    requires LinearRows(l)
    ensures Work(LinearNodes(l)) == l.trigger + l.sources + l.transforms
  {
    LinearRow(l, Trigger);
    LinearRow(l, Source);
    LinearRow(l, Splitter);
    LinearRow(l, Transform);
    LinearRow(l, Merger);
    ThreeOf(l.trigger, l.sources, l.transforms);
  }

  lemma LoopEdgesWire(spine: seq<Node>, gen: Ref, scorer: seq<Node>, gate: Ref, sinks: seq<Node>, x: Link<Ref>)
    ensures x in Chain(spine) + Judging(gen, scorer, gate) + [Link(gate, gen, IfFalse, Input)] + SinkLinks(gate, IfTrue, sinks)
       <==> Steps(spine, x) || Checks(gen, scorer, gate, x) || Delivers(gate, IfTrue, sinks, x)
  {
    ChainSteps(spine, x);
    SinkLinksDeliver(gate, IfTrue, sinks, x);
  }

  lemma PlainEdgesWire(spine: seq<Node>, sinks: seq<Node>, x: Link<Ref>)
    requires spine != []
    ensures x in Chain(spine) + SinkLinks(Last(spine), Output, sinks)
       <==> Steps(spine, x) || Delivers(Last(spine), Output, sinks, x)
  {
    ChainSteps(spine, x);
    SinkLinksDeliver(Last(spine), Output, sinks, x);
  }

  lemma LinearEdgesWire(l: Lists, nodes: seq<Node>, x: Link<Ref>)
    requires LinearRows(l) && Work(nodes) == l.trigger + l.sources + l.transforms
    requires Row(nodes, Scorer) == l.scorer && Row(nodes, Sink) == l.sinks
    requires Row(nodes, Gate) == if l.transforms == [] then [] else l.gate
    ensures Work(nodes) != [] && (x in LinearEdges(l) <==> LinearWired(nodes, x))
  {
    var spine := l.trigger + l.sources + l.transforms;
    if Loops(l) {
      assert Last(spine) == Last(l.transforms);
      LoopEdgesWire(spine, Last(l.transforms), l.scorer, l.gate[0].ref, l.sinks, x);
    } else {
      PlainEdgesWire(spine, l.sinks, x);
    }
  }

  lemma LinearIsWired(l: Lists, x: Link<Ref>)
    requires LinearRows(l)
    ensures Work(LinearNodes(l)) != [] && (x in LinearEdges(l) <==> LinearWired(LinearNodes(l), x))
  {
    LinearWork(l);
    LinearRow(l, Scorer);
    LinearRow(l, Sink);
    LinearRow(l, Gate);
    LinearEdgesWire(l, LinearNodes(l), x);
  }

  lemma FilesAndOthers(row: seq<Node>, more: seq<Node>)
    requires (forall n :: n in row ==> MakesFile(n)) && forall n :: n in more ==> !MakesFile(n)
    ensures Filter((n: Node) => MakesFile(n), row + more) == row
    ensures Filter((n: Node) => !MakesFile(n), row + more) == more
  {
    FilterAll((n: Node) => MakesFile(n), row);
    NonePass((n: Node) => MakesFile(n), more);
    FilterAppend((n: Node) => MakesFile(n), row, more);
    FilterAll((n: Node) => !MakesFile(n), more);
    NonePass((n: Node) => !MakesFile(n), row);
    FilterAppend((n: Node) => !MakesFile(n), row, more);
  }

  /** The chain through producer and files, then the fan. */
  lemma DeliveryEdgesWire(producer: Node, row: seq<Node>, more: seq<Node>, x: Link<Ref>)
    requires (forall n :: n in row ==> MakesFile(n)) && forall n :: n in more ==> !MakesFile(n)
    ensures x in Chain([producer] + row) + Fan(Last([producer] + row), more, Output)
       <==> Delivers(producer.ref, Output, row + more, x)
  {
    FilesAndOthers(row, more);
    ChainSteps([producer] + row, x);
    FanFans(Last([producer] + row), more, Output, x);
    if row == [] {
      assert row + more == more && [producer] + row == [producer];
    } else {
      ProducerSteps(producer, row, x);
      assert Last([producer] + row) == row[|row| - 1].ref;
    }
  }

  lemma ProducerSteps(producer: Node, row: seq<Node>, x: Link<Ref>)
    requires row != []
    ensures Steps([producer] + row, x) <==> x == Link(producer.ref, row[0].ref, Output, Input) || Steps(row, x)
  {
    var all := [producer] + row;
    assert all[0] == producer && forall i :: 0 <= i < |row| ==> all[i + 1] == row[i];
    if i :| 0 <= i < |all| - 1 && x == Link(all[i].ref, all[i + 1].ref, Output, Input) {
      if i > 0 { assert x == Link(row[i - 1].ref, row[i].ref, Output, Input); }
    }
    if x == Link(producer.ref, row[0].ref, Output, Input) { assert x == Link(all[0].ref, all[1].ref, Output, Input); }
    if i :| 0 <= i < |row| - 1 && x == Link(row[i].ref, row[i + 1].ref, Output, Input) {
      assert x == Link(all[i + 1].ref, all[i + 2].ref, Output, Input);
    }
  }

  lemma DeliveryRow(producer: Node, row: seq<Node>, more: seq<Node>, role: Role)
    requires producer.role == Transform && AllIn(row, Sink) && AllIn(more, Sink)
    ensures Row([producer] + row + more, role)
         == if role == Transform then [producer] else if role == Sink then row + more else []
  {
    RowOfOne([producer], Transform, role);
    AddRow([producer], row, Sink, role);
    AddRow([producer] + row, more, Sink, role);
  }

  lemma DeliveryWork(producer: Node, row: seq<Node>, more: seq<Node>)
    requires producer.role == Transform && AllIn(row, Sink) && AllIn(more, Sink)
    ensures Work([producer] + row + more) == [producer]
  {
    DeliveryRow(producer, row, more, Trigger);
    DeliveryRow(producer, row, more, Source);
    DeliveryRow(producer, row, more, Splitter);
    DeliveryRow(producer, row, more, Transform);
    DeliveryRow(producer, row, more, Merger);
    assert [] + [] + [] + [producer] + [] == [producer];
  }

  lemma SinksOnly(row: seq<Node>, p: Node -> bool)
    requires (forall n :: n in row ==> p(n)) && forall n :: p(n) ==> n.role == Sink
    ensures AllIn(row, Sink)
  {
    forall i | 0 <= i < |row| ensures row[i].role == Sink { assert row[i] in row; }
  }

  lemma DeliveryIsWired(e: Entities, x: Link<Ref>)
    ensures x in DeliveryDraft(e).edges <==> Wired(DeliveryDraft(e), x)
  {
    var row, more := DeliveryLists(e);
    assert forall n :: n in row ==> ArtifactNode()(n);
    assert forall n :: n in more ==> DeliveryNode()(n);
    DeliveryIsWiredBy(DeliveryDraft(e), row, more, x);
  }

  lemma DeliveryIsWiredBy(d: Draft, row: seq<Node>, more: seq<Node>, x: Link<Ref>)
    requires d.name == ContentDelivery && d.nodes == [PRODUCER] + row + more
    requires d.edges == Chain([PRODUCER] + row) + Fan(Last([PRODUCER] + row), more, Output)
    requires (forall n :: n in row ==> ArtifactNode()(n)) && forall n :: n in more ==> DeliveryNode()(n)
    ensures x in d.edges <==> Wired(d, x)
  {
    SinksOnly(row, ArtifactNode());
    SinksOnly(more, DeliveryNode());
    DeliveryRow(PRODUCER, row, more, Sink);
    DeliveryWork(PRODUCER, row, more);
    DeliveryEdgesWire(PRODUCER, row, more, x);
    WiredAsDelivery(d, x);
  }

  // ---------------------------------------------------------------- the theorem

  lemma UnshapedIsWired(e: Entities, sig: Signals, d: Draft, x: Link<Ref>)
    requires Extracted(e) && Unshaped(e) && Assembled(e, sig) == Some(d)
    ensures x in d.edges <==> Wired(d, x)
  {
    UnshapedOrigin(e, sig, d);
    if SaysOnlyChannels(e) {
      DeliveryIsWired(e, x);
    } else {
      LinearListsAreRows(d.name, e, sig);
      LinearIsWired(LinearLists(d.name, e, sig), x);
      WiredAsLinear(d, x);
    }
  }

  /** The connections of every draft are exactly those that the roles of its nodes call for. */
  lemma ConnectionsExactly(e: Entities, sig: Signals, d: Draft)
    requires Extracted(e) && Assembled(e, sig) == Some(d)
    ensures forall x :: x in d.edges <==> Wired(d, x)
  {
    forall x ensures x in d.edges <==> Wired(d, x) {
      if Unshaped(e) {
        UnshapedIsWired(e, sig, d, x);
      } else {
        var shape := ShapeOfDraft(e, sig, d);
        forall role ensures Row(d.nodes, role) == Filled(NameOf(shape), role, e, sig) { ShapedRow(e, sig, d, role); }
        ShapeIsWired(shape, e, sig, d, x);
      }
    }
  }
}
