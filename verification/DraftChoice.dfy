/** Which requests are assembled, and from which template
    (modules/ai_agent/domain/services/skeleton_assembler.py, `assemble` and `_select`), said of the request alone. */
module DraftChoice {
  import opened Basics
  import opened Graph
  import opened Library
  import opened Assembler
  import opened DraftGraphs
  import opened DraftHandles
  import R = ResolvedDrafts

  // ---------------------------------------------------------------- what the request says

  predicate Unshaped(e: Entities) {
    !e.hasApproval && !e.hasRetry && !e.hasFanout && !e.hasBranch && !e.hasGuard
  }

  /** More than one shape, where approval takes branch and guard along and branch takes guard along. */
  predicate Tangled(e: Entities) {
    || (e.hasApproval && (e.hasRetry || e.hasFanout))
    || (e.hasRetry && e.hasFanout)
    || (!e.hasApproval && (e.hasBranch || e.hasGuard) && (e.hasRetry || e.hasFanout))
  }

  /** Nothing to work on, whatever the trigger. */
  predicate SaysNothing(e: Entities) {
    e.sources == [] && e.transforms == [] && e.sinks == [] && !e.needsGate
  }

  /** Several channels and nothing else. */
  predicate SaysOnlyChannels(e: Entities) {
    e.trigger == None && e.sources == [] && e.transforms == [] && |e.sinks| > 1
  }

  /** It has the best score of the three linear templates; among equals the first of them wins, and zero does not. */
  predicate Wins(score: Name -> nat, name: Name) {
    var s, r, q := score(ScheduledPipeline), score(EventResponse), score(QualityLoop);
    match name
    case ScheduledPipeline => s > 0 && s >= r && s >= q
    case EventResponse => r > 0 && r > s && r >= q
    case QualityLoop => q > 0 && q > s && q > r
    case _ => false
  }

  predicate Unscored(score: Name -> nat) {
    score(ScheduledPipeline) == score(EventResponse) == score(QualityLoop) == 0
  }

  predicate OnEvent(e: Entities) {
    e.trigger == Some("webhook_trigger") || e.trigger == Some("event_trigger") || e.trigger == Some("file_watch_trigger")
  }

  predicate OnSchedule(e: Entities) {
    e.trigger == Some("schedule_trigger")
  }

  /** From somewhere, or through some operation, to a channel. */
  predicate Flows(e: Entities) {
    (e.sources != [] || e.transforms != []) && e.sinks != []
  }

  // ---------------------------------------------------------------- the linear templates

  lemma BestOfThree(score: Name -> nat)
    ensures Best(LINEAR_FAMILY, score).Some?
    ensures score(Best(LINEAR_FAMILY, score).value) > 0 <==> !Unscored(score)
    ensures forall name :: Wins(score, name) <==> Best(LINEAR_FAMILY, score).value == name && score(name) > 0
  {
    var k := BestIsEarliestMaximum(LINEAR_FAMILY, score);
    assert LINEAR_FAMILY[0] == ScheduledPipeline && LINEAR_FAMILY[1] == EventResponse && LINEAR_FAMILY[2] == QualityLoop;
    assert |LINEAR_FAMILY| == 3;
  }

  lemma SelectedExactly(e: Entities, score: Name -> nat)
    ensures Selected(e, score) == Some(QualityLoop) <==> e.needsGate || Wins(score, QualityLoop)
    ensures Selected(e, score) == Some(EventResponse) <==>
              !e.needsGate && (Wins(score, EventResponse) || (Unscored(score) && OnEvent(e)))
    ensures Selected(e, score) == Some(ScheduledPipeline) <==>
              !e.needsGate
              && (Wins(score, ScheduledPipeline) || (Unscored(score) && !OnEvent(e) && (OnSchedule(e) || Flows(e))))
    ensures Selected(e, score) == None <==>
              !e.needsGate && Unscored(score) && !OnEvent(e) && !OnSchedule(e) && !Flows(e)
  {
    BestOfThree(score);
  }

  lemma LinearSlotsFill(name: Name, e: Entities, sig: Signals)
    requires name in LINEAR_FAMILY
    ensures Missing(SlotsOf(name), e, sig) == []
  {
    var slots := SlotsOf(name);
    forall i | 0 <= i < |slots| && slots[i].required ensures Fill(slots[i], e, sig) != [] {
      LinearSinkIsOptional(name, i);
      SlotsAreRegular(name, i);
      FilledSlot(name, i, e, sig);
    }
    R.NothingMissing(slots, e, sig);
  }

  lemma LinearSinkIsOptional(name: Name, i: nat)
    requires name in LINEAR_FAMILY && i < |SlotsOf(name)| && SlotsOf(name)[i].required
    ensures SlotsOf(name)[i].role != Sink
  {
    assert name == ScheduledPipeline || name == EventResponse || name == QualityLoop;
  }

  lemma LinearIsComplete(name: Name, e: Entities, sig: Signals)
    requires name in LINEAR_FAMILY
    ensures Complete(LinearDraft(name, e, sig)) == Some(LinearDraft(name, e, sig))
  {
    LinearSlotsFill(name, e, sig);
  }

  lemma LinearExactly(e: Entities, sig: Signals)
    ensures Linear(e, sig).None? <==> Selected(e, sig.score).None?
    ensures Linear(e, sig).Some? ==> Some(Linear(e, sig).value.name) == Selected(e, sig.score)
  {
    if Selected(e, sig.score).Some? {
      SelectedIsLinear(e, sig.score);
      LinearIsComplete(Selected(e, sig.score).value, e, sig);
    }
  }

  predicate Gets(d: Option<Draft>, name: Name) {
    d.Some? && d.value.name == name
  }

  lemma UnshapedIs(e: Entities, sig: Signals)
    requires Extracted(e) && Unshaped(e)
    ensures Assembled(e, sig)
         == if SaysNothing(e) then None else if SaysOnlyChannels(e) then Some(DeliveryDraft(e)) else Linear(e, sig)
  {
    assert Shapes(e) == {};
    UnshapedRoute(e, sig);
  }

  /** A request without a shape. Several channels and nothing else are a content delivery. Otherwise a check asked for
      makes a quality loop, then the best score decides, then an event or a schedule; then what flows from somewhere
      to a channel is a scheduled pipeline, and the rest is not assembled. */
  lemma TemplateExactly(e: Entities, sig: Signals)
    requires Extracted(e) && Unshaped(e)
    ensures var d, score, delivers := Assembled(e, sig), sig.score, SaysOnlyChannels(e);
            && (Gets(d, ContentDelivery) <==> delivers)
            && (Gets(d, QualityLoop) <==> !SaysNothing(e) && !delivers && (e.needsGate || Wins(score, QualityLoop)))
            && (Gets(d, EventResponse) <==>
                  !SaysNothing(e) && !delivers && !e.needsGate
                  && (Wins(score, EventResponse) || (Unscored(score) && OnEvent(e))))
            && (Gets(d, ScheduledPipeline) <==>
                  !SaysNothing(e) && !delivers && !e.needsGate
                  && (Wins(score, ScheduledPipeline)
                      || (Unscored(score) && !OnEvent(e) && (OnSchedule(e) || Flows(e)))))
            && (d.None? <==>
                  SaysNothing(e)
                  || (!delivers && !e.needsGate && Unscored(score) && !OnEvent(e) && !OnSchedule(e) && !Flows(e)))
  {
    UnshapedIs(e, sig);
    if !SaysNothing(e) && !SaysOnlyChannels(e) {
      LinearExactly(e, sig);
      SelectedExactly(e, sig.score);
    }
  }

  // ---------------------------------------------------------------- the shaped templates

  lemma ShapedSlotsFill(name: Name, e: Entities, sig: Signals)
    requires Extracted(e) && e.sinks != [] && name in {ApprovalGate, FanOutMap, BranchOnClassification, ConditionalAction}
    ensures Missing(SlotsOf(name), e, sig) == []
  {
    var slots := SlotsOf(name);
    forall i | 0 <= i < |slots| && slots[i].required ensures Fill(slots[i], e, sig) != [] {
      SlotsAreRegular(name, i);
      FilledSlot(name, i, e, sig);
      if slots[i].role == Sink {
        ShapedSinkSlot(name, i);
        R.SinkSlotFills(e, sig);
      }
    }
    R.NothingMissing(slots, e, sig);
  }

  lemma ShapedSinkSlot(name: Name, i: nat)
    requires name in {ApprovalGate, FanOutMap, BranchOnClassification, ConditionalAction}
    requires i < |SlotsOf(name)| && SlotsOf(name)[i].role == Sink
    ensures SlotsOf(name)[i] == SinkSlot(true)
  {}

  /** What is to be retried: something read or done, named, picked or, for what is read, ranked. */
  predicate HasOperation(e: Entities, sig: Signals) {
    || e.sources != [] || e.transforms != []
    || (Source in sig.resolved && exists x :: x in sig.resolved[Source] && x in SOURCES)
    || (Transform in sig.resolved && exists x :: x in sig.resolved[Transform] && x in AI)
    || exists x :: x in sig.grounding && x in SOURCES
  }

  lemma AmongNone(types: seq<string>, pool: seq<string>)
    ensures Among(types, pool) == [] <==> forall x :: x in types ==> x !in pool
  {
    FilterKeeps((t: string) => t in pool, types);
    HasSome(Among(types, pool));
    if Among(types, pool) != [] {
      var x :| x in Among(types, pool);
      assert x in types && x in pool;
    }
  }

  lemma HasSome(s: seq<string>)
    ensures s != [] ==> exists x :: x in s
  {
    assert s != [] ==> s[0] in s;
  }

  lemma SourceFilledExactly(e: Entities, sig: Signals)
    requires Extracted(e)
    ensures Fill(SourceSlot(), e, sig) == [] <==>
              && e.sources == []
              && (Source in sig.resolved ==> forall x :: x in sig.resolved[Source] ==> x !in SOURCES)
              && forall x :: x in sig.grounding ==> x !in SOURCES
  {
    AmongAll(e.sources, SOURCES);
    AmongNone(sig.grounding, SOURCES);
    if Source in sig.resolved { AmongNone(sig.resolved[Source], SOURCES); }
  }

  lemma TransformFilledExactly(e: Entities, sig: Signals)
    requires Extracted(e)
    ensures Fill(SlotsOf(RetryBackoff)[2], e, sig) == [] <==>
              && e.transforms == []
              && (Transform in sig.resolved ==> forall x :: x in sig.resolved[Transform] ==> x !in AI)
  {
    AmongAll(e.transforms, AI);
    if Transform in sig.resolved { AmongNone(sig.resolved[Transform], AI); }
  }

  lemma OperationsExactly(e: Entities, sig: Signals)
    requires Extracted(e)
    ensures Operations(e, sig) != [] <==> HasOperation(e, sig)
  {
    FilledSlot(RetryBackoff, 1, e, sig);
    FilledSlot(RetryBackoff, 2, e, sig);
    SourceFilledExactly(e, sig);
    TransformFilledExactly(e, sig);
  }

  /** The shape that counts, when there is one and they are not tangled. */
  function ShapeOf(e: Entities): Shape {
    if e.hasApproval then Approval else if e.hasRetry then Retry else if e.hasFanout then FanOut
    else if e.hasBranch then Branch else Guard
  }

  lemma TwoAreTwo(shapes: set<Shape>, x: Shape, y: Shape)
    requires x in shapes && y in shapes && x != y
    ensures |shapes| >= 2
  {
    assert |{x, y}| == 2 && {x, y} <= shapes;
    CardinalityGrows({x, y}, shapes);
  }

  lemma {:induction false} CardinalityGrows(a: set<Shape>, b: set<Shape>)
    requires a <= b
    ensures |a| <= |b|
    decreases a
  {
    if x :| x in a { CardinalityGrows(a - {x}, b - {x}); }
  }

  ghost predicate Holds(shapes: set<Shape>, e: Entities) {
    && (Approval in shapes <==> e.hasApproval)
    && (Retry in shapes <==> e.hasRetry)
    && (FanOut in shapes <==> e.hasFanout)
    && (Branch in shapes <==> e.hasBranch && !e.hasApproval)
    && (Guard in shapes <==> e.hasGuard && !e.hasApproval && !e.hasBranch)
  }

  lemma ShapesHold(e: Entities)
    ensures Holds(Shapes(e), e)
  {}

  lemma TangledAreTwo(e: Entities, shapes: set<Shape>)
    requires Holds(shapes, e) && Tangled(e)
    ensures |shapes| >= 2
  {
    var other := if e.hasRetry then Retry else FanOut;
    var one := if e.hasApproval then Approval else if e.hasRetry && e.hasFanout then FanOut
               else if e.hasBranch then Branch else Guard;
    TwoAreTwo(shapes, one, other);
  }

  lemma UntangledIsOne(e: Entities, shapes: set<Shape>)
    requires Holds(shapes, e) && !Tangled(e) && !Unshaped(e)
    ensures shapes == {ShapeOf(e)} && |shapes| == 1
  {
    forall shape ensures shape in shapes <==> shape == ShapeOf(e) {
      match shape {
        case Approval =>
        case Retry =>
        case FanOut =>
        case Branch =>
        case Guard =>
      }
    }
  }

  lemma ShapesExactly(e: Entities)
    requires !Unshaped(e)
    ensures |Shapes(e)| >= 2 <==> Tangled(e)
    ensures !Tangled(e) ==> Shapes(e) == {ShapeOf(e)}
  {
    ShapesHold(e);
    if Tangled(e) { TangledAreTwo(e, Shapes(e)); } else { UntangledIsOne(e, Shapes(e)); }
  }

  lemma ApprovalExactly(e: Entities, sig: Signals)
    requires Extracted(e)
    ensures if e.sinks != [] then Gets(ApprovalDraft(e, sig), ApprovalGate) else ApprovalDraft(e, sig).None?
  {
    if e.sinks != [] { ShapedSlotsFill(ApprovalGate, e, sig); }
  }

  lemma RetryExactly(e: Entities, sig: Signals)
    requires Extracted(e)
    ensures if HasOperation(e, sig) then Gets(RetryDraft(e, sig), RetryBackoff) else RetryDraft(e, sig).None?
  {
    OperationsExactly(e, sig);
  }

  lemma FanOutExactly(e: Entities, sig: Signals)
    requires Extracted(e)
    ensures if e.sinks != [] then Gets(FanOutDraft(e, sig), FanOutMap) else FanOutDraft(e, sig).None?
  {
    if e.sinks != [] { ShapedSlotsFill(FanOutMap, e, sig); }
  }

  lemma BranchExactly(e: Entities, sig: Signals)
    requires Extracted(e)
    ensures if |e.sinks| == 2 then Gets(BranchDraft(e, sig), BranchOnClassification) else BranchDraft(e, sig).None?
  {
    if |e.sinks| == 2 { ShapedSlotsFill(BranchOnClassification, e, sig); }
  }

  lemma GuardExactly(e: Entities, sig: Signals)
    requires Extracted(e)
    ensures if e.sinks != [] then Gets(ConditionalDraft(e, sig), ConditionalAction) else ConditionalDraft(e, sig).None?
  {
    if e.sinks != [] { ShapedSlotsFill(ConditionalAction, e, sig); }
  }

  /** What a shape needs to be assembled. */
  predicate Feasible(shape: Shape, e: Entities, sig: Signals) {
    match shape
    case Approval => e.sinks != []
    case Retry => HasOperation(e, sig)
    case FanOut => e.sinks != []
    case Branch => |e.sinks| == 2
    case Guard => e.sinks != []
  }

  lemma ByShapeExactly(shape: Shape, e: Entities, sig: Signals)
    requires Extracted(e)
    ensures if Feasible(shape, e, sig) then Gets(DraftOf(shape, e, sig), NameOf(shape)) else DraftOf(shape, e, sig).None?
  {
    match shape {
      case Approval => ApprovalExactly(e, sig);
      case Retry => RetryExactly(e, sig);
      case FanOut => FanOutExactly(e, sig);
      case Branch => BranchExactly(e, sig);
      case Guard => GuardExactly(e, sig);
    }
  }

  lemma RoutedByShape(e: Entities, sig: Signals)
    requires Extracted(e) && !Unshaped(e)
    ensures Assembled(e, sig) == if SaysNothing(e) || Tangled(e) then None else DraftOf(ShapeOf(e), e, sig)
  {
    ShapesExactly(e);
    if !Tangled(e) {
      var shape := RoutedToAShape({ShapeOf(e)}, e, sig);
      assert shape == ShapeOf(e);
    }
  }

  /** What a request gets that asks for some shape. */
  predicate ShapedResult(e: Entities, sig: Signals, d: Option<Draft>) {
    if SaysNothing(e) || Tangled(e) then d.None?
    else if e.hasApproval then if e.sinks != [] then Gets(d, ApprovalGate) else d.None?
    else if e.hasRetry then if HasOperation(e, sig) then Gets(d, RetryBackoff) else d.None?
    else if e.hasFanout then if e.sinks != [] then Gets(d, FanOutMap) else d.None?
    else if e.hasBranch then if |e.sinks| == 2 then Gets(d, BranchOnClassification) else d.None?
    else if e.sinks != [] then Gets(d, ConditionalAction) else d.None?
  }

  lemma FeasibleIsShaped(e: Entities, sig: Signals, d: Option<Draft>)
    requires !SaysNothing(e) && !Tangled(e) && !Unshaped(e)
    requires if Feasible(ShapeOf(e), e, sig) then Gets(d, NameOf(ShapeOf(e))) else d.None?
    ensures ShapedResult(e, sig, d)
  {}

  /** A request with a shape. Nothing is assembled when shapes are tangled or nothing is said. Otherwise approval goes
      before retry, fan-out, branch and guard; a retry needs something to retry, a branch exactly two named channels,
      and the others at least one; then the template of the shape is used. */
  lemma ShapedExactly(e: Entities, sig: Signals)
    requires Extracted(e) && !Unshaped(e)
    ensures ShapedResult(e, sig, Assembled(e, sig))
  {
    RoutedByShape(e, sig);
    if !SaysNothing(e) && !Tangled(e) {
      ByShapeExactly(ShapeOf(e), e, sig);
      FeasibleIsShaped(e, sig, Assembled(e, sig));
    }
  }
}
