/** Which of an edit's plans are applied: the planning and applying nodes of the composer
    (modules/ai_agent/adapters/langgraph/composer_graph.py), over whole runs. */
module ComposerEdits {
  import opened Basics
  import opened Composer

  // ---------------------------------------------------------------- what a run has been through

  /** Whether the plan in hand, if any, has operations: what the last planning node has left. */
  function Holds(r: Run, c: Choice, held: bool): bool {
    if r.at != RefinePlan then held
    else
      match c.planning
      case Planned(hasOps) => hasOps
      case UnknownTypes => if r.n.planAttempts + 1 < REFINE_PLAN_MAX_ATTEMPTS then false else held
      case _ => held
  }

  /** A planning node without a plan to go on with, or an applying node that could not apply the one in hand. */
  predicate FallsBack(r: Run, c: Choice, held: bool) {
    || (r.at == RefinePlan
        && (c.planning.Fallback? || (c.planning.UnknownTypes? && r.n.planAttempts + 1 >= REFINE_PLAN_MAX_ATTEMPTS)))
    || (r.at == RefineApply && !(held && c.applied.Some?))
  }

  function PlanHeld(start: Run, moves: seq<Move>): bool
    decreases |moves|
  {
    if moves == [] then false
    else
      var n := |moves| - 1;
      Holds(After(start, moves[..n]), moves[n].1, PlanHeld(start, moves[..n]))
  }

  /** Some planning or applying node of the run fell back. */
  predicate FellBack(start: Run, moves: seq<Move>)
    decreases |moves|
  {
    if moves == [] then false
    else
      var n := |moves| - 1;
      FellBack(start, moves[..n]) || FallsBack(After(start, moves[..n]), moves[n].1, PlanHeld(start, moves[..n]))
  }

  // ---------------------------------------------------------------- the state remembers it

  predicate Remembers(r: Run, held: bool, fell: bool) {
    r.at != Ended ==> r.edit == Edit(held, fell)
  }

  /** The nodes that plan or apply an edit. */
  predicate EditNode(at: Place) {
    at.RefinePlan? || at.RefineApply?
  }

  lemma OpeningRemembers(r: Run, c: Choice)
    requires Opening(r.at)
    ensures OpeningNode(r, c).edit == r.edit
  {}

  lemma ClosingRemembers(r: Run, store: Store, c: Choice)
    requires Closing(r.at)
    ensures ClosingNode(r, store, c).run.edit == r.edit
  {}

  lemma WorkRemembers(r: Run, store: Store, c: Choice)
    requires !EditNode(r.at)
    ensures WorkNode(r, store, c).run.edit == r.edit
  {}

  lemma PlanRemembers(r: Run, c: Choice, held: bool, fell: bool)
    requires r.at == RefinePlan && r.edit == Edit(held, fell)
    ensures Remembers(RefinePlanNode(r, c), Holds(r, c, held), fell || FallsBack(r, c, held))
  {}

  lemma ApplyRemembers(r: Run, c: Choice, held: bool, fell: bool)
    requires r.at == RefineApply && r.edit == Edit(held, fell)
    ensures Remembers(RefineApplyNode(r, c), Holds(r, c, held), fell || FallsBack(r, c, held))
  {}

  lemma StepRemembers(r: Run, store: Store, c: Choice, held: bool, fell: bool)
    requires Remembers(r, held, fell)
    ensures Remembers(Step(r, store, c).run, Holds(r, c, held), fell || FallsBack(r, c, held))
  {
    if r.at == RefinePlan {
      PlanRemembers(r, c, held, fell);
    } else if r.at == RefineApply {
      ApplyRemembers(r, c, held, fell);
    } else if Opening(r.at) {
      OpeningRemembers(r, c);
    } else if Closing(r.at) {
      ClosingRemembers(r, store, c);
    } else {
      WorkRemembers(r, store, c);
    }
  }

  lemma {:induction false} PastIsRemembered(caller: Caller, moves: seq<Move>)
    ensures var start := Begin(caller); Remembers(After(start, moves), PlanHeld(start, moves), FellBack(start, moves))
    decreases |moves|
  {
    if moves != [] {
      var n, start := |moves| - 1, Begin(caller);
      PastIsRemembered(caller, moves[..n]);
      StepRemembers(After(start, moves[..n]), moves[n].0, moves[n].1, PlanHeld(start, moves[..n]),
                    FellBack(start, moves[..n]));
    }
  }

  // ---------------------------------------------------------------- exactly which plans are applied

  /** At the applying node of any run: the plan in hand makes the workflow if and only if it has operations, can
      be applied, and nothing in the run has fallen back before. Otherwise the drafter makes it, or the run ends. */
  lemma PlanIsAppliedExactly(caller: Caller, moves: seq<Move>, store: Store, c: Choice)
    requires After(Begin(caller), moves).at == RefineApply
    ensures var start := Begin(caller);
            var t := Step(After(start, moves), store, c).run;
            var applies := PlanHeld(start, moves) && c.applied.Some? && !FellBack(start, moves);
            && (c.prior.Some? && c.applied != c.edited ==>
                  ((t.at == Validate && t.w.draft == c.applied) <==> applies))
            && (c.prior.Some? && applies ==> t.at == Validate && t.w.draft == c.applied)
            && (c.prior.None? || !applies ==> t.at == Ended || (t.at == Validate && t.w.draft == c.edited))
  {
    PastIsRemembered(caller, moves);
    ApplyingNode(After(Begin(caller), moves), store, c);
  }

  lemma ApplyingNode(r: Run, store: Store, c: Choice)
    requires r.at == RefineApply
    ensures var t := Step(r, store, c).run;
            if c.prior.Some? && r.edit.hasPlan && !r.edit.fallback && c.applied.Some?
            then t.at == Validate && t.w.draft == c.applied
            else t.at == Ended || (t.at == Validate && t.w.draft == c.edited && c.edited.Some?)
  {}

  // ---------------------------------------------------------------- a plan that is made in vain

  /** On the way to the planning node, in a first round. */
  predicate BeforeEdit(r: Run, at: Place) {
    && r.at == at && r.edit == Edit(false, false) && r.n.planAttempts == 0 && r.n.plans == 0
    && (at.Search? || at.Suggest? || at.RefinePlan? ==> r.intent == Refine && r.hasSpec)
  }

  /** In the middle of an edit. */
  predicate Editing(r: Run, at: Place, edit: Edit, plans: nat) {
    r.at == at && r.intent == Refine && r.hasSpec && r.edit == edit && r.n.planAttempts == r.n.plans == plans
  }

  function TowardsEdit(at: Place): Place {
    match at
    case Compress => Security
    case Security => AnalyzeIntent
    case AnalyzeIntent => Search
    case Search => Suggest
    case _ => RefinePlan
  }

  const BLANK: Workflow := Workflow(true, [], [])

  /** The choices of a run that edits: what planning, applying, the drafter and the validator answer. */
  function Edits(planning: Planning, applied: Option<Workflow>, edited: Option<Workflow>, verdict: Verdict): Choice {
    Choice(false, Refine, [], Lost, true, Sketch([], []), Some(BLANK), None, planning, applied, edited, verdict,
           false, true, false)
  }

  predicate IsEdit(c: Choice) {
    c == Edits(c.planning, c.applied, c.edited, c.verdict)
  }

  /** Nothing but the run changes. */
  predicate Quiet(e: Effect, store: Store) {
    e.store == store && e.stored.None? && e.shown.None? && e.saved.None?
  }

  lemma TowardsEditOne(r: Run, at: Place, store: Store, c: Choice)
    requires BeforeEdit(r, at) && IsEdit(c)
    requires at.Compress? || at.Security? || at.AnalyzeIntent? || at.Search? || at.Suggest?
    ensures BeforeEdit(Step(r, store, c).run, TowardsEdit(at)) && Quiet(Step(r, store, c), store)
  {}

  lemma PlanOne(r: Run, edit: Edit, plans: nat, store: Store, c: Choice)
    requires Editing(r, RefinePlan, edit, plans) && IsEdit(c) && c.planning == Planned(true)
    ensures Editing(Step(r, store, c).run, RefineApply, Edit(true, edit.fallback), plans + 1)
    ensures Quiet(Step(r, store, c), store)
  {}

  lemma FailedApplyOne(r: Run, plans: nat, store: Store, c: Choice)
    requires Editing(r, RefineApply, Edit(true, false), plans) && IsEdit(c) && c.applied.None? && c.edited.Some?
    ensures Editing(Step(r, store, c).run, Validate, Edit(true, true), plans)
    ensures Step(r, store, c).run.w.draft == c.edited
  {}

  lemma RejectOne(r: Run, edit: Edit, store: Store, c: Choice)
    requires Editing(r, Validate, edit, 1) && r.w.draft.Some? && IsEdit(c) && c.verdict == Raises
    ensures Editing(Step(r, store, c).run, RefinePlan, edit, 1)
  {}

  lemma EditOpeningOne(start: Run, r: Run, at: Place) returns (r': Run)
    requires Leads(start, r) && BeforeEdit(r, at)
    requires at.Compress? || at.Security? || at.AnalyzeIntent? || at.Search? || at.Suggest?
    ensures Leads(start, r') && BeforeEdit(r', TowardsEdit(at))
  {
    var c := Edits(Fallback, None, None, Raises);
    TowardsEditOne(r, at, map[], c);
    r' := Step(r, map[], c).run;
    LeadsOne(r, c);
    LeadsOn(start, r, r');
  }

  lemma EditOpening(start: Run) returns (r: Run)
    requires BeforeEdit(start, Compress)
    ensures Leads(start, r) && BeforeEdit(r, RefinePlan)
  {
    LeadsNowhere(start);
    r := EditOpeningOne(start, start, Compress);
    r := EditOpeningOne(start, r, Security);
    r := EditOpeningOne(start, r, AnalyzeIntent);
    r := EditOpeningOne(start, r, Search);
    r := EditOpeningOne(start, r, Suggest);
  }

  /** A first plan that cannot be applied, a fallback that the validator rejects, and a second plan: it has
      operations and can be applied, but the drafter makes the workflow. */
  lemma LaterPlanIsMadeInVain(user: nat, session: nat) returns (r: Run)
    ensures Leads(Begin(Caller(1, user, session, None)), r) && r.at == RefineApply
    ensures r.n.plans == 2 && r.edit == Edit(true, true)
    ensures forall store, c: Choice :: c.prior.Some? && c.applied.Some? && c.edited.Some? ==>
              var t := Step(r, store, c).run; t.at == Validate && t.w.draft == c.edited
  {
    var start := Begin(Caller(1, user, session, None));
    var plan := Edits(Planned(true), None, Some(BLANK), Raises);
    var a := EditOpening(start);
    PlanOne(a, Edit(false, false), 0, map[], plan);
    var b := Step(a, map[], plan).run;
    LeadsOne(a, plan);
    LeadsOn(start, a, b);
    FailedApplyOne(b, 1, map[], plan);
    var v := Step(b, map[], plan).run;
    LeadsOne(b, plan);
    LeadsOn(start, b, v);
    RejectOne(v, Edit(true, true), map[], plan);
    var p := Step(v, map[], plan).run;
    LeadsOne(v, plan);
    LeadsOn(start, v, p);
    PlanOne(p, Edit(true, true), 1, map[], plan);
    r := Step(p, map[], plan).run;
    LeadsOne(p, plan);
    LeadsOn(start, p, r);
    forall store, c: Choice | c.prior.Some? && c.applied.Some? && c.edited.Some?
      ensures var t := Step(r, store, c).run; t.at == Validate && t.w.draft == c.edited
    {
      DraftedInstead(r, store, c);
    }
  }

  lemma DraftedInstead(r: Run, store: Store, c: Choice)
    requires Editing(r, RefineApply, Edit(true, true), 2) && c.prior.Some? && c.edited.Some?
    ensures var t := Step(r, store, c).run; t.at == Validate && t.w.draft == c.edited
  {}

  // ---------------------------------------------------------------- from any state

  /** Once an edit has fallen back to the drafter, no later plan of the run is applied: applying does not
      depend on whether there is one. */
  lemma FallbackIsSticky(r: Run, moves: seq<Move>, c: Choice, planned: bool)
    requires r.edit.fallback
    ensures var s := After(r, moves);
            s.edit.fallback && RefineApplyNode(s, c) == RefineApplyNode(s.(edit := s.edit.(hasPlan := planned)), c)
                               .(edit := RefineApplyNode(s, c).edit)
  {
    forall r: Run, m: Move | r.edit.fallback ensures Stepping()(r, m).edit.fallback {
      StickyStep(r, m.0, m.1);
    }
    KeptForever(Stepping(), (r: Run) => r.edit.fallback, r, moves);
    ApplyingIgnoresPlan(After(r, moves), c, planned);
  }

  lemma ApplyingIgnoresPlan(s: Run, c: Choice, planned: bool)
    requires s.edit.fallback
    ensures RefineApplyNode(s, c) == RefineApplyNode(s.(edit := s.edit.(hasPlan := planned)), c)
                               .(edit := RefineApplyNode(s, c).edit)
  {}

  lemma StickyStep(r: Run, store: Store, c: Choice)
    requires r.edit.fallback
    ensures Step(r, store, c).run.edit.fallback
  {
    if Opening(r.at) {
      OpeningRemembers(r, c);
    } else if Closing(r.at) {
      ClosingRemembers(r, store, c);
    } else if !EditNode(r.at) {
      WorkRemembers(r, store, c);
    }
  }
}
