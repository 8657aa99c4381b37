/** What a draft is made of (modules/ai_agent/domain/services/skeleton_assembler.py, `_collect` and the assembling
    methods): role by role, which node types it has and in what order, in terms of the words of the request, the
    picks of the ensemble and the ranked candidates. */
module DraftRows {
  import opened Basics
  import opened Graph
  import opened Library
  import opened Assembler
  import opened DraftGraphs
  import opened DraftHandles
  import opened DraftChoice

  // ---------------------------------------------------------------- the nodes of one role

  function OfRole(role: Role): Node -> bool {
    (n: Node) => n.role == role
  }

  function Row(nodes: seq<Node>, role: Role): seq<Node> {
    Filter(OfRole(role), nodes)
  }

  ghost predicate AllIn(nodes: seq<Node>, role: Role) {
    forall i :: 0 <= i < |nodes| ==> nodes[i].role == role
  }

  lemma RowOfOne(nodes: seq<Node>, r: Role, role: Role)
    requires AllIn(nodes, r)
    ensures Row(nodes, role) == if r == role then nodes else []
  {
    assert forall n :: n in nodes ==> n.role == r;
    if r == role { FilterAll(OfRole(role), nodes); } else { NonePass(OfRole(role), nodes); }
  }

  lemma AddRow(front: seq<Node>, more: seq<Node>, r: Role, role: Role)
    requires AllIn(more, r)
    ensures Row(front + more, role) == Row(front, role) + if r == role then more else []
  {
    FilterAppend(OfRole(role), front, more);
    RowOfOne(more, r, role);
  }

  type Layout = Role -> seq<Node>

  /** The rows of these roles, one behind the other. */
  function Rows(row: Layout, roles: seq<Role>): seq<Node>
    decreases |roles|
  {
    if roles == [] then []
    else
      var n := |roles| - 1;
      Rows(row, roles[..n]) + row(roles[n])
  }

  lemma RowsAnd(row: Layout, roles: seq<Role>, r: Role)
    ensures Rows(row, roles + [r]) == Rows(row, roles) + row(r)
  {
    assert (roles + [r])[..|roles|] == roles;
  }

  lemma ThreeRows(row: Layout, a: Role, b: Role, c: Role)
    ensures Rows(row, [a, b, c]) == row(a) + row(b) + row(c)
  {
    assert [a, b, c][..2] == [a, b] && [a, b][..1] == [a] && [a][..0] == [];
    assert Rows(row, [a]) == [] + row(a) == row(a);
    assert Rows(row, [a, b]) == Rows(row, [a]) + row(b);
  }

  lemma FourRows(row: Layout, a: Role, b: Role, c: Role, x: Role)
    ensures Rows(row, [a, b, c, x]) == row(a) + row(b) + row(c) + row(x)
  {
    ThreeRows(row, a, b, c);
    RowsAnd(row, [a, b, c], x);
    assert [a, b, c] + [x] == [a, b, c, x];
  }

  lemma FiveRows(row: Layout, a: Role, b: Role, c: Role, x: Role, y: Role)
    ensures Rows(row, [a, b, c, x, y]) == row(a) + row(b) + row(c) + row(x) + row(y)
  {
    FourRows(row, a, b, c, x);
    RowsAnd(row, [a, b, c, x], y);
    assert [a, b, c, x] + [y] == [a, b, c, x, y];
  }

  lemma SixRowsOf(row: Layout, a: Role, b: Role, c: Role, x: Role, y: Role, z: Role)
    ensures Rows(row, [a, b, c, x, y, z]) == row(a) + row(b) + row(c) + row(x) + row(y) + row(z)
  {
    FiveRows(row, a, b, c, x, y);
    RowsAnd(row, [a, b, c, x, y], z);
    assert [a, b, c, x, y] + [z] == [a, b, c, x, y, z];
  }

  ghost predicate Laid(row: Layout) {
    forall r :: AllIn(row(r), r)
  }

  lemma {:induction false} RowOfRows(row: Layout, roles: seq<Role>, role: Role)
    requires Distinct(roles) && Laid(row)
    ensures Row(Rows(row, roles), role) == if role in roles then row(role) else []
    decreases |roles|
  {
    if roles != [] {
      var n := |roles| - 1;
      RowOfRows(row, roles[..n], role);
      AddRow(Rows(row, roles[..n]), row(roles[n]), roles[n], role);
      assert roles == roles[..n] + [roles[n]];
    }
  }

  /** What a template gets for each role. */
  function FilledBy(name: Name, e: Entities, sig: Signals): Layout {
    (role: Role) => Filled(name, role, e, sig)
  }

  lemma FilledIsLaid(name: Name, e: Entities, sig: Signals)
    ensures Laid(FilledBy(name, e, sig))
  {
    forall role ensures AllIn(Filled(name, role, e, sig), role) { FilledInRow(name, role, e, sig); }
  }

  // ---------------------------------------------------------------- the rows of a draft

  /** The roles a shaped template lays out, in the order of its nodes. */
  function LaidOut(name: Name): seq<Role> {
    match name
    case BranchOnClassification => [Trigger, Source, Transform, Router, Sink]
    case ConditionalAction => [Trigger, Source, Transform, Router, Sink, Terminal]
    case ApprovalGate => [Trigger, Source, Transform, Router, Terminal, Sink]
    case FanOutMap => [Trigger, Source, Splitter, Transform, Merger, Sink]
    case RetryBackoff => [Trigger, Source, Transform, Gate, Delay, Sink]
    case _ => []
  }

  predicate IsShaped(name: Name) {
    name in {BranchOnClassification, ConditionalAction, ApprovalGate, FanOutMap, RetryBackoff}
  }

  lemma LaidOutOnce(name: Name)
    ensures Distinct(LaidOut(name))
  {}

  lemma LaidOutAll(name: Name, role: Role, i: nat)
    requires IsShaped(name) && role !in LaidOut(name) && i < |SlotsOf(name)|
    ensures SlotsOf(name)[i].role != role
  {}

  lemma BranchIsRows(e: Entities, sig: Signals)
    requires Extracted(e) && BranchDraft(e, sig).Some?
    ensures BranchDraft(e, sig).value.nodes
         == Rows(FilledBy(BranchOnClassification, e, sig), LaidOut(BranchOnClassification))
  {
    FiveRows(FilledBy(BranchOnClassification, e, sig), Trigger, Source, Transform, Router, Sink);
  }

  lemma ConditionalIsRows(e: Entities, sig: Signals)
    requires Extracted(e) && ConditionalDraft(e, sig).Some?
    ensures ConditionalDraft(e, sig).value.nodes == Rows(FilledBy(ConditionalAction, e, sig), LaidOut(ConditionalAction))
  {
    SixRowsOf(FilledBy(ConditionalAction, e, sig), Trigger, Source, Transform, Router, Sink, Terminal);
  }

  lemma ApprovalIsRows(e: Entities, sig: Signals)
    requires Extracted(e) && ApprovalDraft(e, sig).Some?
    ensures ApprovalDraft(e, sig).value.nodes == Rows(FilledBy(ApprovalGate, e, sig), LaidOut(ApprovalGate))
  {
    SixRowsOf(FilledBy(ApprovalGate, e, sig), Trigger, Source, Transform, Router, Terminal, Sink);
  }

  lemma FanOutIsRows(e: Entities, sig: Signals)
    requires Extracted(e) && FanOutDraft(e, sig).Some?
    ensures FanOutDraft(e, sig).value.nodes == Rows(FilledBy(FanOutMap, e, sig), LaidOut(FanOutMap))
  {
    SixRowsOf(FilledBy(FanOutMap, e, sig), Trigger, Source, Splitter, Transform, Merger, Sink);
  }

  lemma RetryNodes(e: Entities, sig: Signals)
    requires RetryDraft(e, sig).Some?
    ensures RetryDraft(e, sig).value.nodes
         == Filled(RetryBackoff, Trigger, e, sig) + Operations(e, sig) + Filled(RetryBackoff, Gate, e, sig)
            + Filled(RetryBackoff, Delay, e, sig) + Filled(RetryBackoff, Sink, e, sig)
  {}

  lemma Reassociated(t: seq<Node>, s: seq<Node>, x: seq<Node>, g: seq<Node>, d: seq<Node>, k: seq<Node>)
    ensures t + (s + x) + g + d + k == t + s + x + g + d + k
  {
    assert t + (s + x) == t + s + x;
  }

  lemma RetryIsRows(e: Entities, sig: Signals)
    requires RetryDraft(e, sig).Some?
    ensures RetryDraft(e, sig).value.nodes == Rows(FilledBy(RetryBackoff, e, sig), LaidOut(RetryBackoff))
  {
    var row := FilledBy(RetryBackoff, e, sig);
    SixRowsOf(row, Trigger, Source, Transform, Gate, Delay, Sink);
    RetryNodes(e, sig);
    Reassociated(row(Trigger), row(Source), row(Transform), row(Gate), row(Delay), row(Sink));
  }

  lemma ShapeIsRows(shape: Shape, e: Entities, sig: Signals, d: Draft)
    requires Extracted(e) && DraftOf(shape, e, sig) == Some(d)
    ensures d.nodes == Rows(FilledBy(NameOf(shape), e, sig), LaidOut(NameOf(shape)))
  {
    match shape {
      case Approval => ApprovalIsRows(e, sig);
      case Retry => RetryIsRows(e, sig);
      case FanOut => FanOutIsRows(e, sig);
      case Branch => BranchIsRows(e, sig);
      case Guard => ConditionalIsRows(e, sig);
    }
  }

  lemma RowsGiveRow(name: Name, nodes: seq<Node>, role: Role, e: Entities, sig: Signals)
    requires IsShaped(name) && nodes == Rows(FilledBy(name, e, sig), LaidOut(name))
    ensures Row(nodes, role) == Filled(name, role, e, sig)
  {
    LaidOutOnce(name);
    FilledIsLaid(name, e, sig);
    RowOfRows(FilledBy(name, e, sig), LaidOut(name), role);
    if role !in LaidOut(name) {
      forall i | 0 <= i < |SlotsOf(name)| ensures SlotsOf(name)[i].role != role { LaidOutAll(name, role, i); }
      GotNothing(SlotsOf(name), role, e, sig);
    }
  }

  lemma ShapedNames(shape: Shape)
    ensures IsShaped(NameOf(shape))
  {}

  /** A request with a shape, and its draft. */
  lemma ShapeOfDraft(e: Entities, sig: Signals, d: Draft) returns (shape: Shape)
    requires Extracted(e) && Assembled(e, sig) == Some(d) && !Unshaped(e)
    ensures DraftOf(shape, e, sig) == Some(d) && d.name == NameOf(shape) && IsShaped(d.name)
  {
    RoutedByShape(e, sig);
    shape := ShapeOf(e);
    ByShapeExactly(shape, e, sig);
    ShapedNames(shape);
  }

  /** A draft of a shaped template has in each role what the template gets for it. */
  lemma ShapedRow(e: Entities, sig: Signals, d: Draft, role: Role)
    requires Extracted(e) && Assembled(e, sig) == Some(d) && !Unshaped(e)
    ensures IsShaped(d.name) && Row(d.nodes, role) == Filled(d.name, role, e, sig)
  {
    var shape := ShapeOfDraft(e, sig, d);
    ShapeIsRows(shape, e, sig, d);
    RowsGiveRow(d.name, d.nodes, role, e, sig);
  }

  predicate IsLinear(name: Name) {
    name in {ScheduledPipeline, EventResponse, QualityLoop}
  }

  lemma SixTogether(a: seq<Node>, b: seq<Node>, c: seq<Node>, x: seq<Node>, y: seq<Node>, z: seq<Node>, role: Role)
    requires AllIn(a, Trigger) && AllIn(b, Source) && AllIn(c, Transform)
    requires AllIn(x, Scorer) && AllIn(y, Sink) && AllIn(z, Gate)
    ensures Row(a + b + c + x + y + z, role)
         == match role
            case Trigger => a
            case Source => b
            case Transform => c
            case Scorer => x
            case Sink => y
            case Gate => z
            case _ => []
  {
    RowOfOne(a, Trigger, role);
    AddRow(a, b, Source, role);
    AddRow(a + b, c, Transform, role);
    AddRow(a + b + c, x, Scorer, role);
    AddRow(a + b + c + x, y, Sink, role);
    AddRow(a + b + c + x + y, z, Gate, role);
  }

  lemma LinearRow(l: Lists, role: Role)
    requires LinearRows(l)
    ensures Row(LinearNodes(l), role)
         == match role
            case Trigger => l.trigger
            case Source => l.sources
            case Transform => l.transforms
            case Scorer => l.scorer
            case Gate => if l.transforms == [] then [] else l.gate
            case Sink => l.sinks
            case _ => []
  {
    if l.gate != [] && l.transforms == [] {
      SixTogether(l.trigger, l.sources, l.transforms, [], l.sinks, [], role);
      assert l.trigger + l.sources + l.transforms + [] + l.sinks + [] == LinearNodes(l);
    } else {
      SixTogether(l.trigger, l.sources, l.transforms, l.scorer, l.sinks, l.gate, role);
    }
  }

  // ---------------------------------------------------------------- what a template gets for a role

  /** The node types that may stand in a role. */
  function PoolOf(role: Role): seq<string> {
    match role
    case Trigger => TRIGGERS
    case Source => SOURCES
    case Transform => AI
    case Scorer => SCORERS
    case Sink => SINKS
    case Gate => GATES
    case Router => ROUTERS
    case Splitter => SPLITTERS
    case Merger => MERGERS
    case Delay => DELAYS
    case Terminal => TERMINALS
  }

  /** The ensemble's picks for a role, as far as they belong there. */
  function Admitted(role: Role, sig: Signals): seq<string> {
    if role in sig.resolved then Filter((x: string) => x in PoolOf(role), sig.resolved[role]) else []
  }

  /** The ranked candidate that belongs there and comes first, if any. */
  function Grounding(role: Role, sig: Signals): seq<string> {
    var ranked := Filter((x: string) => x in PoolOf(role), sig.grounding);
    if ranked == [] then [] else [ranked[0]]
  }

  function FirstOf(picks: seq<string>, said: seq<string>, otherwise: seq<string>): seq<string> {
    if picks != [] then [picks[0]] else if said != [] then [said[0]] else otherwise
  }

  function TriggerSaid(e: Entities): seq<string> {
    if e.trigger.Some? && e.trigger.value in TRIGGERS then [e.trigger.value] else []
  }

  function TriggerOtherwise(name: Name): string {
    if name == ScheduledPipeline then "schedule_trigger" else if name == EventResponse then "webhook_trigger" else "manual_trigger"
  }

  /** What each role is given, by template. Picks go before words and words before the ranking; only for sinks both
      picks and words count. A role with one place takes the first. */
  function Given(name: Name, role: Role, e: Entities, sig: Signals): seq<string> {
    var picks := Admitted(role, sig);
    match role
    case Trigger => FirstOf(picks, TriggerSaid(e), [TriggerOtherwise(name)])
    case Source => if picks != [] then picks else if e.sources != [] then e.sources else Grounding(role, sig)
    case Transform =>
      if name in {ScheduledPipeline, EventResponse, RetryBackoff} then if picks != [] then picks else e.transforms
      else FirstOf(picks, e.transforms, if name == ConditionalAction then [] else ["gemma_chat"])
    case Sink =>
      if picks == [] && e.sinks == [] then Grounding(role, sig)
      else picks + Filter((x: string) => x !in picks, e.sinks)
    case Gate =>
      if name in {QualityLoop, RetryBackoff} then FirstOf(picks, [], ["if_condition"])
      else if name in {ScheduledPipeline, EventResponse} then FirstOf(picks, [], if e.needsGate then ["if_condition"] else [])
      else []
    case Scorer => if name == QualityLoop then FirstOf(picks, [], ["llm_judge"]) else []
    case Router =>
      if name in {BranchOnClassification, ConditionalAction, ApprovalGate} then FirstOf(picks, [], ["if_condition"]) else []
    case Splitter => if name == FanOutMap then FirstOf(picks, [], ["loop_list"]) else []
    case Merger => if name == FanOutMap then FirstOf(picks, [], []) else []
    case Delay => if name == RetryBackoff then FirstOf(picks, [], ["delay"]) else []
    case Terminal => if name in {ConditionalAction, ApprovalGate} then FirstOf(picks, [], ["stop_workflow"]) else []
  }

  function Otherwise(s: Slot): seq<string> {
    if s.required && s.fallback.Some? then [s.fallback.value] else []
  }

  /** A slot with one place that is not filled from the ranking. */
  lemma OnePlace(s: Slot, e: Entities, sig: Signals)
    requires s.one && !Groundable(s.role)
    ensures Fill(s, e, sig) == FirstOf(Picks(s, sig), Among(Materials(s.role, e), s.candidates), Otherwise(s))
  {}

  lemma ManyPlaces(s: Slot, e: Entities, sig: Signals)
    requires !s.one && !Groundable(s.role) && !s.required
    ensures Fill(s, e, sig)
         == if Picks(s, sig) != [] then Picks(s, sig) else Among(Materials(s.role, e), s.candidates)
  {}

  lemma PicksAreAdmitted(s: Slot, sig: Signals)
    requires s.candidates == PoolOf(s.role)
    ensures Picks(s, sig) == Admitted(s.role, sig)
  {
    if s.role in sig.resolved {
      FilterAgree((t: string) => t in s.candidates, (x: string) => x in PoolOf(s.role), sig.resolved[s.role]);
    }
  }

  lemma GroundedFirst(s: Slot, sig: Signals)
    requires s.candidates == PoolOf(s.role)
    ensures AtMostOne(Among(sig.grounding, s.candidates)) == Grounding(s.role, sig)
  {
    FilterAgree((t: string) => t in s.candidates, (x: string) => x in PoolOf(s.role), sig.grounding);
  }

  lemma SourcePlaces(e: Entities, sig: Signals)
    requires Extracted(e)
    ensures Fill(SourceSlot(), e, sig) == Given(ScheduledPipeline, Source, e, sig)
  {
    PicksAreAdmitted(SourceSlot(), sig);
    GroundedFirst(SourceSlot(), sig);
    AmongAll(e.sources, SOURCES);
  }

  lemma BesidesNone(said: seq<string>)
    ensures [] + Besides(said, []) == said
  {
    FilterAll((t: string) => t !in [], said);
  }

  lemma SinkPlaces(s: Slot, e: Entities, sig: Signals)
    requires s.role == Sink && !s.one && s.fallback.None?
    ensures var picks, said := Picks(s, sig), Among(e.sinks, s.candidates);
            Fill(s, e, sig) == if picks == [] && said == [] then AtMostOne(Among(sig.grounding, s.candidates))
                               else picks + Besides(said, picks)
  {
    BesidesNone(Among(e.sinks, s.candidates));
  }

  lemma SinkPlacesSaid(s: Slot, e: Entities, sig: Signals)
    requires s.role == Sink && !s.one && s.fallback.None? && s.candidates == PoolOf(Sink)
    requires forall x :: x in e.sinks ==> x in s.candidates
    ensures Fill(s, e, sig) == Given(ScheduledPipeline, Sink, e, sig)
  {
    SinkPlaces(s, e, sig);
    PicksAreAdmitted(s, sig);
    GroundedFirst(s, sig);
    AmongAll(e.sinks, s.candidates);
    var picks := Admitted(Sink, sig);
    FilterAgree((t: string) => t !in picks, (x: string) => x !in picks, e.sinks);
  }

  lemma GivenToOne(name: Name, i: nat, e: Entities, sig: Signals)
    requires i < |SlotsOf(name)|
    ensures var s := SlotsOf(name)[i];
            s.one && !Groundable(s.role) && s.candidates == PoolOf(s.role) ==>
              Filled(name, s.role, e, sig)
              == NodesFor(s.role, FirstOf(Admitted(s.role, sig), Among(Materials(s.role, e), s.candidates), Otherwise(s)))
  {
    var s := SlotsOf(name)[i];
    FilledSlot(name, i, e, sig);
    if s.one && !Groundable(s.role) && s.candidates == PoolOf(s.role) {
      OnePlace(s, e, sig);
      PicksAreAdmitted(s, sig);
    }
  }

  predicate HasSlots(name: Name) {
    name != ContentDelivery
  }

  lemma TriggerGiven(name: Name, e: Entities, sig: Signals)
    requires HasSlots(name)
    ensures Filled(name, Trigger, e, sig) == NodesFor(Trigger, Given(name, Trigger, e, sig))
  {
    TriggerSlotOf(name);
    GivenToOne(name, 0, e, sig);
    SaidTrigger(e);
  }

  lemma TriggerSlotOf(name: Name)
    requires HasSlots(name)
    ensures SlotsOf(name) != []
    ensures var s := SlotsOf(name)[0];
            s.role == Trigger && s.one && s.candidates == PoolOf(Trigger) && Otherwise(s) == [TriggerOtherwise(name)]
  {}

  lemma SaidTrigger(e: Entities)
    ensures Among(Materials(Trigger, e), TRIGGERS) == TriggerSaid(e)
  {
    var said := Materials(Trigger, e);
    if said != [] {
      assert said[..0] == [];
      assert Among(said, TRIGGERS) == Among(said[..0], TRIGGERS) + if said[0] in TRIGGERS then [said[0]] else [];
    }
  }

  lemma SourceGiven(name: Name, e: Entities, sig: Signals)
    requires Extracted(e) && HasSlots(name)
    ensures Filled(name, Source, e, sig) == NodesFor(Source, Given(name, Source, e, sig))
  {
    assert SlotsOf(name)[1] == SourceSlot();
    FilledSlot(name, 1, e, sig);
    SourcePlaces(e, sig);
  }

  function TransformPlace(name: Name): nat {
    if name == FanOutMap then 3 else 2
  }

  lemma TransformSlotOf(name: Name)
    requires HasSlots(name)
    ensures var i, many := TransformPlace(name), name in {ScheduledPipeline, EventResponse, RetryBackoff};
            && i < |SlotsOf(name)|
            && var s := SlotsOf(name)[i];
               && s.role == Transform && s.candidates == AI && s.one == !many
               && (many ==> !s.required)
               && Otherwise(s) == if many || name == ConditionalAction then [] else [GEMMA]
  {}

  lemma TransformGiven(name: Name, e: Entities, sig: Signals)
    requires Extracted(e) && HasSlots(name)
    ensures Filled(name, Transform, e, sig) == NodesFor(Transform, Given(name, Transform, e, sig))
  {
    TransformSlotOf(name);
    var i := TransformPlace(name);
    var s := SlotsOf(name)[i];
    FilledSlot(name, i, e, sig);
    AmongAll(e.transforms, AI);
    PicksAreAdmitted(s, sig);
    if s.one { OnePlace(s, e, sig); } else { ManyPlaces(s, e, sig); }
  }

  lemma SinkSlotOf(name: Name) returns (required: bool)
    requires HasSlots(name)
    ensures SlotsOf(name)[|SlotsOf(name)| - 1] == SinkSlot(required)
  {
    required := name in {BranchOnClassification, ConditionalAction, FanOutMap, ApprovalGate};
  }

  lemma SinkGiven(name: Name, e: Entities, sig: Signals)
    requires Extracted(e) && HasSlots(name)
    ensures Filled(name, Sink, e, sig) == NodesFor(Sink, Given(name, Sink, e, sig))
  {
    var required := SinkSlotOf(name);
    FilledSlot(name, |SlotsOf(name)| - 1, e, sig);
    SinkPlacesSaid(SinkSlot(required), e, sig);
  }

  // ---------------------------------------------------------------- control roles

  predicate Controls(role: Role) {
    role in {Scorer, Gate, Router, Splitter, Merger, Delay, Terminal}
  }

  /** Where the template has its slot for the role, if anywhere. */
  function PlaceOf(name: Name, role: Role): Option<nat> {
    match role
    case Scorer => if name == QualityLoop then Some(3) else None
    case Gate =>
      if name == QualityLoop then Some(4) else if name in {ScheduledPipeline, EventResponse, RetryBackoff} then Some(3) else None
    case Router => if name in {BranchOnClassification, ConditionalAction, ApprovalGate} then Some(3) else None
    case Splitter => if name == FanOutMap then Some(2) else None
    case Merger => if name == FanOutMap then Some(4) else None
    case Delay => if name == RetryBackoff then Some(4) else None
    case Terminal => if name in {ConditionalAction, ApprovalGate} then Some(4) else None
    case _ => None
  }

  function ControlOtherwise(name: Name, role: Role): seq<string> {
    match role
    case Scorer => [JUDGE]
    case Gate => if name in {QualityLoop, RetryBackoff} then [CONDITION] else []
    case Router => [CONDITION]
    case Splitter => [LOOP_LIST]
    case Delay => [DELAY]
    case Terminal => [STOP]
    case _ => []
  }

  lemma ControlSlotOf(name: Name, role: Role)
    requires Controls(role) && PlaceOf(name, role).Some?
    ensures var i := PlaceOf(name, role).value;
            && i < |SlotsOf(name)|
            && var s := SlotsOf(name)[i];
               s.role == role && s.one && s.candidates == PoolOf(role) && Otherwise(s) == ControlOtherwise(name, role)
  {}

  lemma NoControlSlot(name: Name, role: Role, i: nat)
    requires Controls(role) && PlaceOf(name, role).None? && i < |SlotsOf(name)|
    ensures SlotsOf(name)[i].role != role
  {}

  lemma ControlSaid(role: Role, e: Entities)
    requires Controls(role)
    ensures Among(Materials(role, e), PoolOf(role)) == if role == Gate && e.needsGate then [CONDITION] else []
  {
    var said := Materials(role, e);
    if role == Gate && e.needsGate {
      assert said[..0] == [];
      assert Among(said, GATES) == Among(said[..0], GATES) + if said[0] in GATES then [said[0]] else [];
    }
  }

  lemma ControlGiven(name: Name, role: Role, e: Entities, sig: Signals)
    requires Controls(role)
    ensures Filled(name, role, e, sig) == NodesFor(role, Given(name, role, e, sig))
  {
    match PlaceOf(name, role) {
      case None =>
        forall i | 0 <= i < |SlotsOf(name)| ensures SlotsOf(name)[i].role != role { NoControlSlot(name, role, i); }
        GotNothing(SlotsOf(name), role, e, sig);
      case Some(i) =>
        ControlSlotOf(name, role);
        GivenToOne(name, i, e, sig);
        ControlSaid(role, e);
    }
  }

  /** Every template gets for each role exactly that. */
  lemma FilledExactly(name: Name, role: Role, e: Entities, sig: Signals)
    requires Extracted(e) && HasSlots(name)
    ensures Filled(name, role, e, sig) == NodesFor(role, Given(name, role, e, sig))
  {
    match role {
      case Trigger => TriggerGiven(name, e, sig);
      case Source => SourceGiven(name, e, sig);
      case Transform => TransformGiven(name, e, sig);
      case Sink => SinkGiven(name, e, sig);
      case _ => ControlGiven(name, role, e, sig);
    }
  }

  // ---------------------------------------------------------------- what a draft is made of

  /** What the nodes of a role are in a linear draft: what is given, but a check without anything to check is left out,
      and what is generated without a check or a channel goes to a document. */
  function LinearGiven(name: Name, role: Role, e: Entities, sig: Signals): seq<string> {
    var given := Given(name, role, e, sig);
    if role == Gate && Given(name, Transform, e, sig) == [] then []
    else if role == Sink && given == [] && Given(name, Transform, e, sig) != [] && Given(name, Gate, e, sig) == []
    then ["google_docs_write"]
    else given
  }

  lemma UnshapedOrigin(e: Entities, sig: Signals, d: Draft)
    requires Extracted(e) && Unshaped(e) && Assembled(e, sig) == Some(d)
    ensures if SaysOnlyChannels(e) then d == DeliveryDraft(e)
            else IsLinear(d.name) && d == LinearDraft(d.name, e, sig)
  {
    UnshapedIs(e, sig);
    if !SaysOnlyChannels(e) { LinearOrigin(e, sig, d); }
  }

  lemma ListsGiven(name: Name, e: Entities, sig: Signals)
    requires Extracted(e) && IsLinear(name)
    ensures var l := LinearLists(name, e, sig);
            && l.trigger == NodesFor(Trigger, Given(name, Trigger, e, sig))
            && l.sources == NodesFor(Source, Given(name, Source, e, sig))
            && l.transforms == NodesFor(Transform, Given(name, Transform, e, sig))
            && l.scorer == NodesFor(Scorer, Given(name, Scorer, e, sig))
            && l.gate == NodesFor(Gate, Given(name, Gate, e, sig))
            && l.sinks == NodesFor(Sink, LinearGiven(name, Sink, e, sig))
  {
    FilledExactly(name, Trigger, e, sig);
    FilledExactly(name, Source, e, sig);
    FilledExactly(name, Transform, e, sig);
    FilledExactly(name, Scorer, e, sig);
    FilledExactly(name, Gate, e, sig);
    FilledExactly(name, Sink, e, sig);
  }

  ghost predicate ListsAre(l: Lists, name: Name, e: Entities, sig: Signals) {
    && l.trigger == NodesFor(Trigger, LinearGiven(name, Trigger, e, sig))
    && l.sources == NodesFor(Source, LinearGiven(name, Source, e, sig))
    && l.transforms == NodesFor(Transform, LinearGiven(name, Transform, e, sig))
    && l.scorer == NodesFor(Scorer, LinearGiven(name, Scorer, e, sig))
    && (l.transforms != [] ==> l.gate == NodesFor(Gate, LinearGiven(name, Gate, e, sig)))
    && l.sinks == NodesFor(Sink, LinearGiven(name, Sink, e, sig))
  }

  lemma OtherRolesGiveNothing(name: Name, role: Role, e: Entities, sig: Signals)
    requires IsLinear(name) && role !in {Trigger, Source, Transform, Scorer, Gate, Sink}
    ensures LinearGiven(name, role, e, sig) == []
  {}

  lemma GateNeedsTransform(name: Name, e: Entities, sig: Signals)
    ensures LinearGiven(name, Transform, e, sig) == [] ==> LinearGiven(name, Gate, e, sig) == []
  {}

  lemma RowOfLists(l: Lists, name: Name, role: Role, e: Entities, sig: Signals)
    requires LinearRows(l) && IsLinear(name) && ListsAre(l, name, e, sig)
    ensures Row(LinearNodes(l), role) == NodesFor(role, LinearGiven(name, role, e, sig))
  {
    LinearRow(l, role);
    GateNeedsTransform(name, e, sig);
    if role !in {Trigger, Source, Transform, Scorer, Gate, Sink} { OtherRolesGiveNothing(name, role, e, sig); }
  }

  lemma LinearListsAre(name: Name, e: Entities, sig: Signals)
    requires Extracted(e) && IsLinear(name)
    ensures ListsAre(LinearLists(name, e, sig), name, e, sig)
  {
    ListsGiven(name, e, sig);
  }

  lemma LinearRowGiven(e: Entities, sig: Signals, d: Draft, role: Role)
    requires Extracted(e) && IsLinear(d.name) && d.nodes == LinearNodes(LinearLists(d.name, e, sig))
    ensures Row(d.nodes, role) == NodesFor(role, LinearGiven(d.name, role, e, sig))
  {
    LinearListsAre(d.name, e, sig);
    LinearListsAreRows(d.name, e, sig);
    RowOfLists(LinearLists(d.name, e, sig), d.name, role, e, sig);
  }

  /** In every draft but a content delivery, each role has exactly the node types given, numbered in order. */
  lemma RowsExactly(e: Entities, sig: Signals, d: Draft, role: Role)
    requires Extracted(e) && Assembled(e, sig) == Some(d) && d.name != ContentDelivery
    ensures Row(d.nodes, role)
         == NodesFor(role, if IsLinear(d.name) then LinearGiven(d.name, role, e, sig) else Given(d.name, role, e, sig))
  {
    if Unshaped(e) {
      UnshapedOrigin(e, sig, d);
      LinearRowGiven(e, sig, d, role);
    } else {
      ShapedRow(e, sig, d, role);
      FilledExactly(d.name, role, e, sig);
    }
  }

  lemma {:induction false} RowsBeginWith(row: Layout, roles: seq<Role>)
    requires roles != [] && row(roles[0]) != []
    ensures Rows(row, roles) != [] && Rows(row, roles)[0] == row(roles[0])[0]
    decreases |roles|
  {
    var n := |roles| - 1;
    if n > 0 {
      assert roles[..n][0] == roles[0];
      RowsBeginWith(row, roles[..n]);
    } else {
      assert roles[..0] == [];
      assert Rows(row, []) == [];
    }
  }

  lemma LaidOutBegins(name: Name)
    requires IsShaped(name)
    ensures LaidOut(name) != [] && LaidOut(name)[0] == Trigger
  {}

  lemma RowsBegin(name: Name, nodes: seq<Node>, e: Entities, sig: Signals)
    requires IsShaped(name) && nodes == Rows(FilledBy(name, e, sig), LaidOut(name))
    ensures nodes != [] && nodes[0] == NodesFor(Trigger, Given(name, Trigger, e, sig))[0]
  {
    LaidOutBegins(name);
    TriggerGiven(name, e, sig);
    RowsBeginWith(FilledBy(name, e, sig), LaidOut(name));
  }

  lemma ShapedBegins(e: Entities, sig: Signals, d: Draft)
    requires Extracted(e) && Assembled(e, sig) == Some(d) && !Unshaped(e)
    ensures d.name != ContentDelivery && d.nodes != []
    ensures d.nodes[0] == NodesFor(Trigger, Given(d.name, Trigger, e, sig))[0]
  {
    var shape := ShapeOfDraft(e, sig, d);
    ShapeIsRows(shape, e, sig, d);
    RowsBegin(d.name, d.nodes, e, sig);
  }

  lemma ListsBegin(l: Lists)
    requires l.trigger != []
    ensures LinearNodes(l) != [] && LinearNodes(l)[0] == l.trigger[0]
  {}

  lemma UnshapedBegins(e: Entities, sig: Signals, d: Draft)
    requires Extracted(e) && Assembled(e, sig) == Some(d) && Unshaped(e) && d.name != ContentDelivery
    ensures d.nodes != [] && d.nodes[0] == NodesFor(Trigger, Given(d.name, Trigger, e, sig))[0]
  {
    UnshapedOrigin(e, sig, d);
    ListsGiven(d.name, e, sig);
    ListsBegin(LinearLists(d.name, e, sig));
  }

  /** A draft that is no content delivery begins with its trigger: the first that the ensemble picks for it, or else
      the one the request names, or else a schedule for a pipeline, a web hook for an event and a manual one for the
      rest. */
  lemma BeginsWithTrigger(e: Entities, sig: Signals, d: Draft)
    requires Extracted(e) && Assembled(e, sig) == Some(d) && d.name != ContentDelivery
    ensures d.nodes != [] && d.nodes[0].ref == At(Trigger, 0) && d.nodes[0].role == Trigger
    ensures var picks := if Trigger in sig.resolved then Filter((x: string) => x in PoolOf(Trigger), sig.resolved[Trigger]) else [];
            d.nodes[0].nodeType
            == if picks != [] then picks[0]
               else if e.trigger.Some? && e.trigger.value in TRIGGERS then e.trigger.value
               else if d.name == ScheduledPipeline then "schedule_trigger"
               else if d.name == EventResponse then "webhook_trigger"
               else "manual_trigger"
  {
    if Unshaped(e) { UnshapedBegins(e, sig, d); } else { ShapedBegins(e, sig, d); }
  }

  /** A content delivery is one generator and the channels named, those that make a file first. */
  lemma DeliveryRows(e: Entities, sig: Signals, d: Draft)
    requires Extracted(e) && Assembled(e, sig) == Some(d) && d.name == ContentDelivery
    ensures var files := Filter((t: string) => t == "pdf_generate" || t == "file_write", e.sinks);
            var others := Filter((t: string) => t != "pdf_generate" && t != "file_write", e.sinks);
            d.nodes == [Node(At(Transform, 0), "gemma_chat", Transform)] + ArtifactNodes(files) + NodesFor(Sink, others)
  {
    if Unshaped(e) {
      UnshapedOrigin(e, sig, d);
      DeliveryTypes(e);
    } else {
      var shape := ShapeOfDraft(e, sig, d);
      assert false;
    }
  }

  lemma DeliveryTypes(e: Entities)
    ensures DeliveryDraft(e).nodes
         == [Node(At(Transform, 0), "gemma_chat", Transform)]
            + ArtifactNodes(Filter((t: string) => t == "pdf_generate" || t == "file_write", e.sinks))
            + NodesFor(Sink, Filter((t: string) => t != "pdf_generate" && t != "file_write", e.sinks))
  {
    FilterAgree((t: string) => IsArtifactSink(t), (t: string) => t == "pdf_generate" || t == "file_write", e.sinks);
    FilterAgree((t: string) => !IsArtifactSink(t), (t: string) => t != "pdf_generate" && t != "file_write", e.sinks);
  }

  lemma LinearWarnings(name: Name, e: Entities, sig: Signals)
    requires IsLinear(name)
    ensures var l := LinearLists(name, e, sig);
            LinearDraft(name, e, sig).warnings == if l.gate != [] && l.transforms == [] then [GateIgnored] else []
  {
    LinearSlotsFill(name, e, sig);
    assert [] + [GateIgnored] == [GateIgnored];
  }

  lemma ListsEmpty(l: Lists, name: Name, e: Entities, sig: Signals)
    requires l.gate == NodesFor(Gate, Given(name, Gate, e, sig))
    requires l.transforms == NodesFor(Transform, Given(name, Transform, e, sig))
    ensures l.gate == [] <==> Given(name, Gate, e, sig) == []
    ensures l.transforms == [] <==> Given(name, Transform, e, sig) == []
  {}

  lemma UnshapedWarnings(e: Entities, sig: Signals, d: Draft)
    requires Extracted(e) && IsLinear(d.name) && d.warnings == LinearDraft(d.name, e, sig).warnings
    ensures d.warnings
         == if Given(d.name, Gate, e, sig) != [] && Given(d.name, Transform, e, sig) == [] then [GateIgnored] else []
  {
    LinearWarnings(d.name, e, sig);
    ListsGiven(d.name, e, sig);
    ListsEmpty(LinearLists(d.name, e, sig), d.name, e, sig);
  }

  lemma ShapedHasNoWarning(shape: Shape, e: Entities, sig: Signals, d: Draft)
    requires Extracted(e) && DraftOf(shape, e, sig) == Some(d)
    ensures d.warnings == []
  {}

  /** The only warning a draft can have is that a check was left out for want of anything to check. */
  lemma WarningsExactly(e: Entities, sig: Signals, d: Draft)
    requires Extracted(e) && Assembled(e, sig) == Some(d)
    ensures d.warnings
         == if IsLinear(d.name) && Given(d.name, Gate, e, sig) != [] && Given(d.name, Transform, e, sig) == []
            then [GateIgnored] else []
  {
    if Unshaped(e) {
      UnshapedOrigin(e, sig, d);
      if !SaysOnlyChannels(e) { UnshapedWarnings(e, sig, d); }
    } else {
      var shape := ShapeOfDraft(e, sig, d);
      ShapedHasNoWarning(shape, e, sig, d);
    }
  }
}
