/** The composer as a state machine (modules/ai_agent/adapters/langgraph/composer_graph.py): one step is
    one node of the graph, and the choices of a step are what language model, validator, stores and the
    user do. */
module Composer {
  import opened Basics

  // ---------------------------------------------------------------- workflows

  type Skill = nat
  datatype Node = Node(instance: nat, nodeId: nat, skill: Option<Skill>)
  datatype Workflow = Workflow(isDraft: bool, nodes: seq<Node>, edges: seq<(nat, nat)>)

  /** What the drafter answers: nodes without skills. */
  datatype Sketch = Sketch(nodes: seq<(nat, nat)>, edges: seq<(nat, nat)>)

  function Drafted(s: Sketch): Workflow {
    Workflow(true, seq(|s.nodes|, i requires 0 <= i < |s.nodes| => Node(s.nodes[i].0, s.nodes[i].1, None)), s.edges)
  }

  /** The node id of an instance; of a repeated instance the last. */
  function NodeIdOf(nodes: seq<Node>, instance: nat): Option<nat>
    decreases |nodes|
  {
    if nodes == [] then None
    else if nodes[|nodes| - 1].instance == instance then Some(nodes[|nodes| - 1].nodeId)
    else NodeIdOf(nodes[..|nodes| - 1], instance)
  }

  datatype Signature = Signature(nodes: multiset<nat>, edges: multiset<(Option<nat>, Option<nat>)>)

  function NodeIds(nodes: seq<Node>): multiset<nat>
    decreases |nodes|
  {
    if nodes == [] then multiset{}
    else NodeIds(nodes[..|nodes| - 1]) + multiset{nodes[|nodes| - 1].nodeId}
  }

  function EdgeIds(nodes: seq<Node>, edges: seq<(nat, nat)>): multiset<(Option<nat>, Option<nat>)>
    decreases |edges|
  {
    if edges == [] then multiset{}
    else
      var e := edges[|edges| - 1];
      EdgeIds(nodes, edges[..|edges| - 1]) + multiset{(NodeIdOf(nodes, e.0), NodeIdOf(nodes, e.1))}
  }

  /** `_draft_signature`: sorted lists there, multisets here. */
  function SignatureOf(w: Workflow): Signature {
    Signature(NodeIds(w.nodes), EdgeIds(w.nodes, w.edges))
  }

  // ---------------------------------------------------------------- one run

  datatype Intent = Unset | Draft | Refine | Clarify | Propose

  datatype Place =
    | Compress | Security | AnalyzeIntent | Consultant | SlotFill | Search | Suggest | Resume
    | DraftWorkflow | BindSkill | RefinePlan | RefineApply | Validate | RetryDraft | EvaluateQa
    | ValidationFailed | QaFailed | Promote | SaveWorkflow | Explain | Confirm | SaveMemory | Ended

  /** Who asks: round, user, session, and the skill chosen for the second round. */
  datatype Caller = Caller(round: int, user: nat, session: nat, selected: Option<Skill>)

  /** The counters of the graph, and (`steps`, `drafts`, `plans`) how many nodes, drafts and plans there were. */
  datatype Counts = Counts(qaAttempts: nat, retryCount: nat, planAttempts: nat, steps: nat, drafts: nat, plans: nat)

  datatype Edit = Edit(hasPlan: bool, fallback: bool)

  /** The workflow of the run. `latest`, `accepted`, `judged`, `refined` and `reportedOk` are history: the
      last workflow drafted, bound or edited; whether since then the validator has not raised and QA has
      passed; whether it came from an edit; and what the validator last reported. */
  datatype Work = Work(
    draft: Option<Workflow>, lastSignature: Option<Signature>, repeated: bool,
    latest: Option<Workflow>, accepted: bool, judged: bool, refined: bool, reportedOk: bool)

  /** The graph state of one run. */
  datatype Run = Run(
    at: Place, caller: Caller, intent: Intent, hasSpec: bool, offered: seq<Skill>, pass: bool,
    n: Counts, edit: Edit, w: Work)

  function Begin(caller: Caller): Run {
    Run(if caller.round == 2 then Resume else Compress, caller, Unset, false, [], false,
        Counts(0, 0, 0, 0, 0, 0), Edit(false, false), Work(None, None, false, None, false, false, false, false))
  }

  /** The resume state kept between the rounds of a session. */
  datatype Blob = Blob(user: nat, offered: seq<Skill>, hasSpec: bool, intent: Intent)
  type Store = map<nat, Blob>

  datatype Saving = Kept | Lost | KeptButRaised
  datatype Verdict = Raises | Reports(ok: bool)
  datatype Planning = NoPrior | Fallback | UnknownTypes | Planned(hasOps: bool)

  /** Everything a node may run into. `applied` is what applying the plan to the prior workflow yields, unless it
      fails; `edited` is what the drafter makes of the prior workflow instead. */
  datatype Choice = Choice(
    fails: bool, intent: Intent, options: seq<Skill>, saving: Saving, reachable: bool, sketch: Sketch,
    prior: Option<Workflow>, target: Option<nat>, planning: Planning, applied: Option<Workflow>,
    edited: Option<Workflow>, verdict: Verdict, exceeds: bool, qaPasses: bool, deletes: bool)

  const QA_MAX_RETRY := 3
  const REFINE_PLAN_MAX_ATTEMPTS := 2
  const RECURSION_LIMIT := 40

  // ---------------------------------------------------------------- routers

  function RouteAfterIntent(intent: Intent): Place {
    match intent
    case Clarify => Consultant
    case Draft => Search
    case Refine => Search
    case Unset => Search
    case Propose => Ended
  }

  function RouteAfterSuggest(waiting: bool, intent: Intent): Place {
    if waiting then Ended else if intent == Refine then RefinePlan else DraftWorkflow
  }

  function RouteAfterValidate(intent: Intent, pass: bool, repeated: bool, n: Counts): Place {
    if intent == Refine then
      if pass then Promote else if n.planAttempts < REFINE_PLAN_MAX_ATTEMPTS then RefinePlan else ValidationFailed
    else if pass then EvaluateQa
    else if repeated then ValidationFailed
    else if n.retryCount < QA_MAX_RETRY then RetryDraft
    else ValidationFailed
  }

  function RouteAfterQa(pass: bool, repeated: bool, n: Counts): Place {
    if pass then Promote
    else if repeated then QaFailed
    else if n.qaAttempts < QA_MAX_RETRY then RetryDraft
    else QaFailed
  }

  // ---------------------------------------------------------------- nodes

  /** What a node changes: the run, the session store, the options it puts there, the options it shows to the
      user, the workflow it saves. */
  datatype Effect = Effect(
    run: Run, store: Store, stored: Option<seq<Skill>>, shown: Option<seq<Skill>>, saved: Option<Workflow>)

  function Only(r: Run, store: Store): Effect {
    Effect(r, store, None, None, None)
  }

  function Goto(r: Run, at: Place): Run {
    r.(at := at)
  }

  /** A store that raises after keeping the state has options in it that the user never sees. */
  function SuggestNode(r: Run, store: Store, c: Choice): Effect {
    var go := Goto(r, RouteAfterSuggest(false, r.intent));
    if r.intent == Refine || c.fails || c.options == [] then Only(go, store)
    else
      var stored := store[r.caller.session := Blob(r.caller.user, c.options, r.hasSpec, r.intent)];
      match c.saving
      case Kept => Effect(Goto(r, RouteAfterSuggest(true, r.intent)), stored, Some(c.options), Some(c.options), None)
      case Lost => Only(go, store)
      case KeptButRaised => Effect(go, stored, Some(c.options), None, None)
  }

  function ResumeNode(r: Run, store: Store, c: Choice): Run {
    if !c.reachable || r.caller.session !in store || store[r.caller.session].user != r.caller.user then Goto(r, Ended)
    else
      var blob := store[r.caller.session];
      r.(hasSpec := blob.hasSpec, intent := blob.intent, offered := blob.offered, at := DraftWorkflow)
  }

  function NewDraft(w: Work, made: Workflow, edited: bool): Work {
    var signature := SignatureOf(made);
    Work(Some(made), Some(signature), w.lastSignature == Some(signature), Some(made), false, false, edited, w.reportedOk)
  }

  function DrafterNode(r: Run, c: Choice): Run {
    if !r.hasSpec || c.fails || (r.intent == Refine && c.prior.None?) then Goto(r, Ended)
    else
      var made := if r.intent == Refine then c.prior.value else Drafted(c.sketch);
      r.(w := NewDraft(r.w, made, r.intent == Refine), n := r.n.(drafts := r.n.drafts + 1), at := BindSkill)
  }

  function Bind(w: Workflow, target: nat, skill: Skill): Workflow
    requires target < |w.nodes|
  {
    w.(nodes := w.nodes[target := w.nodes[target].(skill := Some(skill))])
  }

  /** The selected skill goes to the first LLM node, if there is one and the skill was offered. */
  function Bound(r: Run, c: Choice): Option<Workflow> {
    if r.caller.selected.None? || r.w.draft.None? || r.caller.selected.value !in r.offered || c.target.None? then None
    else
      var draft := r.w.draft.value;
      if c.target.value >= |draft.nodes| then None
      else Some(Bind(draft, c.target.value, r.caller.selected.value))
  }

  function BindSkillNode(r: Run, c: Choice): Run {
    match Bound(r, c)
    case None => Goto(r, Validate)
    case Some(bound) => r.(w := r.w.(draft := Some(bound), latest := Some(bound)), at := Validate)
  }

  function RefinePlanNode(r: Run, c: Choice): Run {
    var attempts := r.n.planAttempts + 1;
    var n := r.n.(planAttempts := attempts, plans := r.n.plans + 1);
    match c.planning
    case NoPrior => r.(n := r.n.(plans := r.n.plans + 1), at := Ended)
    case Fallback => r.(n := n, edit := r.edit.(fallback := true), at := RefineApply)
    case UnknownTypes =>
      if attempts < REFINE_PLAN_MAX_ATTEMPTS then r.(n := n, edit := r.edit.(hasPlan := false), at := RefinePlan)
      else r.(n := n, edit := r.edit.(fallback := true), at := RefineApply)
    case Planned(hasOps) => r.(n := n, edit := r.edit.(hasPlan := hasOps), at := RefineApply)
  }

  function NewEdit(r: Run, made: Workflow, byPlan: bool): Run {
    r.(w := r.w.(draft := Some(made), latest := Some(made), accepted := false, judged := false, refined := true),
       edit := r.edit.(fallback := !byPlan), at := Validate)
  }

  /** The plan if there is one with operations, no fallback so far, and it can be applied; or else the drafter. */
  function RefineApplyNode(r: Run, c: Choice): Run {
    if c.prior.None? then Goto(r, Ended)
    else if r.edit.hasPlan && !r.edit.fallback && c.applied.Some? then NewEdit(r, c.applied.value, true)
    else if !r.hasSpec || c.edited.None? then Goto(r, Ended)
    else NewEdit(r, c.edited.value, false)
  }

  /** The node looks only at whether the validator raises, not at the report it returns. */
  function ValidatorNode(r: Run, c: Choice): Run {
    if r.w.draft.None? then Goto(r, RouteAfterValidate(r.intent, r.pass, r.w.repeated, r.n))
    else if c.verdict.Raises? then
      r.(pass := false, at := RouteAfterValidate(r.intent, false, r.w.repeated, r.n))
    else if c.exceeds then Goto(r, Ended)
    else
      r.(pass := true, w := r.w.(accepted := true, reportedOk := c.verdict.ok),
         at := RouteAfterValidate(r.intent, true, r.w.repeated, r.n))
  }

  function QaEvaluatorNode(r: Run, c: Choice): Run {
    if r.w.draft.None? || !r.hasSpec then Goto(r, RouteAfterQa(r.pass, r.w.repeated, r.n))
    else if c.fails then Goto(r, Ended)
    else
      var n := r.n.(qaAttempts := r.n.qaAttempts + 1);
      r.(n := n, pass := c.qaPasses, w := r.w.(judged := c.qaPasses),
         at := RouteAfterQa(c.qaPasses, r.w.repeated, n))
  }

  function RetryNode(r: Run): Run {
    r.(n := r.n.(retryCount := r.n.retryCount + 1), at := DraftWorkflow)
  }

  function PromoteNode(r: Run): Run {
    if r.w.draft.None? then Goto(r, Ended)
    else r.(w := r.w.(draft := Some(r.w.draft.value.(isDraft := false))), at := SaveWorkflow)
  }

  predicate Opening(at: Place) {
    at.Compress? || at.Security? || at.AnalyzeIntent? || at.Consultant? || at.SlotFill? || at.Search?
  }

  /** The nodes before there is anything to edit or draft. */
  function OpeningNode(r: Run, c: Choice): Run
    requires Opening(r.at)
  {
    match r.at
    case Compress => Goto(r, Security)
    case Security => Goto(r, if c.fails then Ended else AnalyzeIntent)
    case AnalyzeIntent =>
      if c.fails then r.(intent := Clarify, at := Ended)
      else r.(intent := c.intent, hasSpec := true, at := RouteAfterIntent(c.intent))
    case Consultant => Goto(r, SlotFill)
    case SlotFill => Goto(r, Ended)
    case Search => Goto(r, if c.fails then Ended else Suggest)
  }

  predicate Closing(at: Place) {
    at.ValidationFailed? || at.QaFailed? || at.SaveWorkflow? || at.Explain? || at.Confirm? || at.SaveMemory?
  }

  function ClosingPlace(at: Place, fails: bool): Place
    requires Closing(at)
  {
    match at
    case SaveWorkflow => if fails then Ended else Explain
    case Explain => Confirm
    case Confirm => SaveMemory
    case _ => Ended
  }

  function ClosingNode(r: Run, store: Store, c: Choice): Effect
    requires Closing(r.at)
  {
    var go := Goto(r, ClosingPlace(r.at, c.fails));
    match r.at
    case SaveWorkflow => Effect(go, store, None, None, r.w.draft)
    case SaveMemory => Only(go, if r.caller.round == 2 && c.deletes then store - {r.caller.session} else store)
    case _ => Only(go, store)
  }

  /** One node: what it changes, and where the graph goes next. A node that returns an error ends the run. */
  function RunNode(r: Run, store: Store, c: Choice): Effect {
    if Opening(r.at) then Only(OpeningNode(r, c), store)
    else if Closing(r.at) then ClosingNode(r, store, c)
    else WorkNode(r, store, c)
  }

  /** The nodes between the first and the last ones. */
  function WorkNode(r: Run, store: Store, c: Choice): Effect {
    match r.at
    case Suggest => SuggestNode(r, store, c)
    case Resume => Only(ResumeNode(r, store, c), store)
    case DraftWorkflow => Only(DrafterNode(r, c), store)
    case BindSkill => Only(BindSkillNode(r, c), store)
    case RefinePlan => Only(RefinePlanNode(r, c), store)
    case RefineApply => Only(RefineApplyNode(r, c), store)
    case Validate => Only(ValidatorNode(r, c), store)
    case RetryDraft => Only(RetryNode(r), store)
    case EvaluateQa => Only(QaEvaluatorNode(r, c), store)
    case Promote => Only(PromoteNode(r), store)
    case _ => Only(r, store)
  }

  function Step(r: Run, store: Store, c: Choice): Effect {
    if r.at == Ended then Only(r, store)
    else
      var e := RunNode(r, store, c);
      e.(run := e.run.(n := e.run.n.(steps := r.n.steps + 1)))
  }

  // ---------------------------------------------------------------- the step bound

  function Left(limit: nat, used: nat): nat {
    if used < limit then limit - used else 0
  }

  /** Nodes from a draft to the end at most: three rejected drafts cost four nodes each, two drafts that
      fail QA five each, and the last one nine. */
  function FromDraft(n: Counts): nat {
    9 + 4 * Left(3, n.retryCount) + 5 * Left(2, n.qaAttempts)
  }

  /** Nodes still to run, at most. */
  function Remaining(at: Place, intent: Intent, n: Counts): nat {
    match at
    case Ended => 0
    case SaveMemory => 1
    case Confirm => 2
    case Explain => 3
    case SaveWorkflow => 4
    case Promote => 5
    case ValidationFailed => 1
    case QaFailed => 1
    case SlotFill => 1
    case Consultant => 2
    case DraftWorkflow => FromDraft(n)
    case BindSkill => FromDraft(n) - 1
    case Validate =>
      if intent != Refine then FromDraft(n) - 2
      else if n.planAttempts == 0 then 12 else if n.planAttempts == 1 then 9 else 6
    case EvaluateQa => FromDraft(n) - 3
    case RetryDraft => 10 + 4 * Left(3, n.retryCount + 1) + 5 * Left(2, n.qaAttempts)
    case RefinePlan => if n.planAttempts == 0 then 11 else 8
    case RefineApply => if n.planAttempts <= 1 then 10 else 7
    case Suggest => 1 + FromDraft(n)
    case Resume => 1 + FromDraft(n)
    case Search => 2 + FromDraft(n)
    case AnalyzeIntent => 3 + FromDraft(n)
    case Security => 4 + FromDraft(n)
    case Compress => 5 + FromDraft(n)
  }

  /** Drafts made and still to come. */
  function Drafts(at: Place, n: Counts): nat {
    match at
    case DraftWorkflow => n.drafts + 1 + Left(3, n.retryCount) + Left(2, n.qaAttempts)
    case RetryDraft => n.drafts + 1 + Left(3, n.retryCount + 1) + Left(2, n.qaAttempts)
    case BindSkill => n.drafts + Left(3, n.retryCount) + Left(2, n.qaAttempts)
    case Validate => n.drafts + Left(3, n.retryCount) + Left(2, n.qaAttempts)
    case EvaluateQa => n.drafts + Left(3, n.retryCount) + Left(2, n.qaAttempts)
    case _ => n.drafts
  }

  predicate Early(at: Place) {
    || at.Compress? || at.Security? || at.AnalyzeIntent? || at.Consultant? || at.SlotFill? || at.Search?
    || at.Suggest? || at.Resume?
  }

  predicate DuringRefine(at: Place) {
    at.RefinePlan? || at.RefineApply?
  }

  /** The counters are still zero where the graph cannot have counted yet, and count as the limits say. */
  predicate Counted(at: Place, intent: Intent, pass: bool, n: Counts) {
    && (Early(at) || DuringRefine(at) || intent == Refine ==> n.retryCount == 0 && n.qaAttempts == 0)
    && (Early(at) ==> n.planAttempts == 0 && n.plans == 0 && n.drafts == 0)
    && (DuringRefine(at) ==> intent == Refine && n.drafts <= 1)
    && (at.RefineApply? ==> n.planAttempts >= 1)
    && (at.EvaluateQa? || at.RetryDraft? ==> intent != Refine)
    && (at.EvaluateQa? ==> pass)
    && n.plans <= REFINE_PLAN_MAX_ATTEMPTS
    && (at != Ended ==> n.plans == n.planAttempts)
    && (at.RefinePlan? ==> n.planAttempts < REFINE_PLAN_MAX_ATTEMPTS)
    && Drafts(at, n) <= 6
  }

  predicate CountedRun(r: Run) {
    Counted(r.at, r.intent, r.pass, r.n)
  }

  predicate Advances(r: Run, r': Run) {
    CountedRun(r') && Remaining(r'.at, r'.intent, r'.n) < Remaining(r.at, r.intent, r.n)
  }

  lemma SuggestCounts(r: Run, store: Store, c: Choice)
    requires CountedRun(r) && r.at == Suggest
    ensures Advances(r, SuggestNode(r, store, c).run)
  {}

  lemma ResumeCounts(r: Run, store: Store, c: Choice)
    requires CountedRun(r) && r.at == Resume
    ensures Advances(r, ResumeNode(r, store, c))
  {}

  lemma DrafterCounts(r: Run, c: Choice)
    requires CountedRun(r) && r.at == DraftWorkflow
    ensures Advances(r, DrafterNode(r, c))
  {}

  lemma BindCounts(r: Run, c: Choice)
    requires CountedRun(r) && r.at == BindSkill
    ensures Advances(r, BindSkillNode(r, c))
  {}

  lemma PlanCounts(r: Run, c: Choice)
    requires CountedRun(r) && r.at == RefinePlan
    ensures Advances(r, RefinePlanNode(r, c))
  {}

  lemma ApplyCounts(r: Run, c: Choice)
    requires CountedRun(r) && r.at == RefineApply
    ensures Advances(r, RefineApplyNode(r, c))
  {}

  lemma ValidateRoutes(intent: Intent, before: bool, pass: bool, repeated: bool, n: Counts)
    requires Counted(Validate, intent, before, n)
    ensures var next := RouteAfterValidate(intent, pass, repeated, n);
            Counted(next, intent, pass, n) && Remaining(next, intent, n) < Remaining(Validate, intent, n)
  {}

  lemma ValidateCounts(r: Run, c: Choice)
    requires CountedRun(r) && r.at == Validate
    ensures Advances(r, ValidatorNode(r, c))
  {
    if r.w.draft.None? {
      ValidateRoutes(r.intent, r.pass, r.pass, r.w.repeated, r.n);
    } else if c.verdict.Raises? {
      ValidateRoutes(r.intent, r.pass, false, r.w.repeated, r.n);
    } else if !c.exceeds {
      ValidateRoutes(r.intent, r.pass, true, r.w.repeated, r.n);
    }
  }

  lemma QaCounts(r: Run, c: Choice)
    requires CountedRun(r) && r.at == EvaluateQa
    ensures Advances(r, QaEvaluatorNode(r, c))
  {}

  lemma OpeningCounts(r: Run, c: Choice)
    requires CountedRun(r) && Opening(r.at)
    ensures Advances(r, OpeningNode(r, c))
  {}

  lemma ClosingCounts(r: Run, store: Store, c: Choice)
    requires CountedRun(r) && Closing(r.at)
    ensures Advances(r, ClosingNode(r, store, c).run)
  {}

  lemma RetryCounts(r: Run)
    requires CountedRun(r) && r.at == RetryDraft
    ensures Advances(r, RetryNode(r))
  {}

  lemma PromoteCounts(r: Run)
    requires CountedRun(r) && r.at == Promote
    ensures Advances(r, PromoteNode(r))
  {}

  lemma WorkCounts(r: Run, store: Store, c: Choice)
    requires CountedRun(r) && !Opening(r.at) && !Closing(r.at) && r.at != Ended
    ensures Advances(r, WorkNode(r, store, c).run)
  {
    match r.at {
      case Suggest => SuggestCounts(r, store, c);
      case Resume => ResumeCounts(r, store, c);
      case DraftWorkflow => DrafterCounts(r, c);
      case BindSkill => BindCounts(r, c);
      case RefinePlan => PlanCounts(r, c);
      case RefineApply => ApplyCounts(r, c);
      case Validate => ValidateCounts(r, c);
      case EvaluateQa => QaCounts(r, c);
      case RetryDraft => RetryCounts(r);
      case Promote => PromoteCounts(r);
      case _ =>
    }
  }

  lemma NodeCounts(r: Run, store: Store, c: Choice)
    requires CountedRun(r) && r.at != Ended
    ensures Advances(r, RunNode(r, store, c).run)
  {
    if Opening(r.at) {
      OpeningCounts(r, c);
    } else if Closing(r.at) {
      ClosingCounts(r, store, c);
    } else {
      WorkCounts(r, store, c);
    }
  }

  lemma StepCounts(r: Run, store: Store, c: Choice)
    requires CountedRun(r)
    ensures var r' := Step(r, store, c).run;
            if r.at == Ended then r' == r else Advances(r, r') && r'.n.steps == r.n.steps + 1
  {
    if r.at != Ended { NodeCounts(r, store, c); }
  }

  /** A step of a run among others finds the session store in some state. */
  type Move = (Store, Choice)
  type Stepper = (Run, Move) -> Run

  function Stepping(): Stepper {
    (r: Run, m: Move) => Step(r, m.0, m.1).run
  }

  function After(r: Run, moves: seq<Move>): Run {
    Iterate(Stepping(), r, moves)
  }

  ghost predicate Counting(next: Stepper) {
    forall r: Run, m: Move :: CountedRun(r) ==>
      if r.at == Ended then next(r, m) == r
      else Advances(r, next(r, m)) && next(r, m).n.steps == r.n.steps + 1
  }

  lemma SteppingCounts()
    ensures Counting(Stepping())
  {
    forall r: Run, m: Move | CountedRun(r)
      ensures if r.at == Ended then Stepping()(r, m) == r
              else Advances(r, Stepping()(r, m)) && Stepping()(r, m).n.steps == r.n.steps + 1
    {
      StepCounts(r, m.0, m.1);
    }
  }

  lemma {:induction false} RunsAreCounted(next: Stepper, r: Run, moves: seq<Move>)
    requires Counting(next) && CountedRun(r)
    ensures var s := Iterate(next, r, moves);
            && CountedRun(s)
            && s.n.steps + Remaining(s.at, s.intent, s.n) <= r.n.steps + Remaining(r.at, r.intent, r.n)
            && (s.at == Ended || s.n.steps == r.n.steps + |moves|)
    decreases |moves|
  {
    if moves != [] {
      RunsAreCounted(next, r, moves[..|moves| - 1]);
    }
  }

  lemma BeginCounts(caller: Caller)
    ensures var r := Begin(caller);
            CountedRun(r) && r.n.steps == 0 && Remaining(r.at, r.intent, r.n) == if caller.round == 2 then 32 else 36
  {}

  /** Every run, in either round and whatever happens to it, ends within 36 nodes (32 in the second round),
      with at most five redrafts and two plans; the recursion limit is never reached. */
  lemma RunsEnd(caller: Caller, moves: seq<Move>)
    ensures var r := After(Begin(caller), moves);
            && r.n.steps <= (if caller.round == 2 then 32 else 36) < RECURSION_LIMIT
            && (|moves| >= 36 ==> r.at == Ended)
            && r.n.drafts <= 6 && r.n.plans <= 2
  {
    BeginCounts(caller);
    SteppingCounts();
    RunsAreCounted(Stepping(), Begin(caller), moves);
    var s := After(Begin(caller), moves);
    assert s.n.drafts <= Drafts(s.at, s.n);
  }

  // ---------------------------------------------------------------- the bound is reached

  /** A choice with which a node does its normal work. */
  function Normal(sketch: Sketch, accepts: bool, qaPasses: bool): Choice {
    Choice(false, Draft, [], Lost, true, sketch, None, None, Fallback, None, None,
           if accepts then Reports(true) else Raises, false, qaPasses, false)
  }

  /** Some moves lead from one state of a run to the other. */
  ghost predicate LeadsBy(next: Stepper, r: Run, r': Run) {
    exists moves: seq<Move> :: Iterate(next, r, moves) == r'
  }

  ghost predicate Leads(r: Run, r': Run) {
    LeadsBy(Stepping(), r, r')
  }

  lemma LeadsOne(r: Run, c: Choice)
    ensures Leads(r, Step(r, map[], c).run)
  {
    var m: seq<Move> := [(map[], c)];
    assert m[..0] == [];
    assert Iterate(Stepping(), r, m) == Stepping()(Iterate(Stepping(), r, m[..0]), m[0]);
  }

  lemma LeadsNowhere(r: Run)
    ensures Leads(r, r)
  {
    assert Iterate(Stepping(), r, []) == r;
  }

  lemma LeadsOn(a: Run, b: Run, c: Run)
    requires Leads(a, b) && Leads(b, c)
    ensures Leads(a, c)
  {
    LeadsByOn(Stepping(), a, b, c);
  }

  lemma LeadsByOn(next: Stepper, a: Run, b: Run, c: Run)
    requires LeadsBy(next, a, b) && LeadsBy(next, b, c)
    ensures LeadsBy(next, a, c)
  {
    var first: seq<Move> :| Iterate(next, a, first) == b;
    var rest: seq<Move> :| Iterate(next, b, rest) == c;
    IterateBoth(next, a, first, rest);
  }

  /** On the way to the draft, in a run without a chosen skill. */
  predicate Started(r: Run, at: Place, steps: nat) {
    && r.at == at && r.caller.selected.None? && r.w.lastSignature.None?
    && r.n.steps == steps && r.n.retryCount == 0 && r.n.qaAttempts == 0
    && (at.Search? || at.Suggest? || at.DraftWorkflow? ==> r.hasSpec && r.intent == Draft)
  }

  /** About to draft. */
  predicate Drafting(r: Run, steps: nat, retryCount: nat, qaAttempts: nat) {
    && r.at == DraftWorkflow && r.hasSpec && r.intent == Draft && r.caller.selected.None?
    && r.n.steps == steps && r.n.retryCount == retryCount && r.n.qaAttempts == qaAttempts
  }

  predicate NewTo(r: Run, s: Sketch) {
    r.w.lastSignature != Some(SignatureOf(Drafted(s)))
  }

  /** Drafted from `s`, at some later node. */
  predicate Holding(r: Run, at: Place, s: Sketch, repeated: bool, steps: nat, retryCount: nat, qaAttempts: nat) {
    && r.at == at && r.hasSpec && r.intent == Draft && r.caller.selected.None? && r.w.draft.Some?
    && r.n.steps == steps && r.n.retryCount == retryCount && r.n.qaAttempts == qaAttempts
    && r.w.lastSignature == Some(SignatureOf(Drafted(s))) && r.w.repeated == repeated
  }

  predicate Reaching(r: Run, at: Place, steps: nat) {
    r.at == at && r.n.steps == steps
  }

  function OpeningPlace(at: Place): Place {
    match at
    case Compress => Security
    case Security => AnalyzeIntent
    case AnalyzeIntent => Search
    case Search => Suggest
    case _ => Ended
  }

  lemma OpenOne(a: Run, at: Place, steps: nat) returns (b: Run)
    requires Started(a, at, steps) && (at.Compress? || at.Security? || at.AnalyzeIntent? || at.Search?)
    ensures Leads(a, b) && Started(b, OpeningPlace(at), steps + 1)
  {
    var c := Normal(OneNode(0), true, true);
    b := Step(a, map[], c).run;
    LeadsOne(a, c);
  }

  lemma SuggestOne(a: Run, steps: nat) returns (b: Run)
    requires Started(a, Suggest, steps)
    ensures Leads(a, b) && Started(b, DraftWorkflow, steps + 1)
  {
    var c := Normal(OneNode(0), true, true);
    b := Step(a, map[], c).run;
    LeadsOne(a, c);
  }

  lemma DraftOne(r: Run, s: Sketch, steps: nat, k: nat, q: nat) returns (b: Run)
    requires Drafting(r, steps, k, q)
    ensures Leads(r, b) && Holding(b, BindSkill, s, !NewTo(r, s), steps + 1, k, q)
  {
    var c := Normal(s, true, true);
    b := Step(r, map[], c).run;
    LeadsOne(r, c);
  }

  lemma BindOne(b: Run, s: Sketch, repeated: bool, steps: nat, k: nat, q: nat) returns (v: Run)
    requires Holding(b, BindSkill, s, repeated, steps, k, q)
    ensures Leads(b, v) && Holding(v, Validate, s, repeated, steps + 1, k, q)
  {
    var c := Normal(s, true, true);
    v := Step(b, map[], c).run;
    LeadsOne(b, c);
    assert Bound(b, c).None?;
  }

  lemma DraftAndBind(r: Run, s: Sketch, steps: nat, k: nat, q: nat) returns (v: Run)
    requires Drafting(r, steps, k, q)
    ensures Leads(r, v) && Holding(v, Validate, s, !NewTo(r, s), steps + 2, k, q)
  {
    var b := DraftOne(r, s, steps, k, q);
    v := BindOne(b, s, !NewTo(r, s), steps + 1, k, q);
    LeadsOn(r, b, v);
  }

  /** Validation, with any verdict. */
  lemma ValidateOne(v: Run, verdict: Verdict, s: Sketch, repeated: bool, steps: nat, k: nat, q: nat) returns (t: Run)
    requires Holding(v, Validate, s, repeated, steps, k, q)
    ensures Leads(v, t) && Holding(t, RouteAfterValidate(Draft, !verdict.Raises?, repeated, v.n), s, repeated, steps + 1, k, q)
  {
    var c := Normal(s, true, true).(verdict := verdict);
    t := Step(v, map[], c).run;
    LeadsOne(v, c);
  }

  lemma RetryOne(t: Run, s: Sketch, repeated: bool, steps: nat, k: nat, q: nat) returns (u: Run)
    requires Holding(t, RetryDraft, s, repeated, steps, k, q)
    ensures Leads(t, u) && Drafting(u, steps + 1, k + 1, q) && u.w.lastSignature == Some(SignatureOf(Drafted(s)))
  {
    var c := Normal(s, true, true);
    u := Step(t, map[], c).run;
    LeadsOne(t, c);
  }

  lemma QaOne(t: Run, passes: bool, s: Sketch, repeated: bool, steps: nat, k: nat, q: nat) returns (u: Run)
    requires Holding(t, EvaluateQa, s, repeated, steps, k, q)
    ensures Leads(t, u) && Holding(u, RouteAfterQa(passes, repeated, u.n), s, repeated, steps + 1, k, q + 1)
  {
    var c := Normal(s, true, passes);
    u := Step(t, map[], c).run;
    LeadsOne(t, c);
  }

  lemma PromotedBy(u: Run, c: Choice)
    requires u.at == Promote
    ensures Step(u, map[], c).run == PromoteNode(u).(n := u.n.(steps := u.n.steps + 1))
  {}

  lemma PromoteOne(u: Run, steps: nat) returns (p: Run)
    requires Reaching(u, Promote, steps) && u.w.draft.Some?
    ensures Leads(u, p) && Reaching(p, SaveWorkflow, steps + 1)
  {
    var c := Normal(OneNode(0), true, true);
    p := Step(u, map[], c).run;
    LeadsOne(u, c);
    PromotedBy(u, c);
  }

  lemma CloseOne(a: Run, at: Place, steps: nat) returns (b: Run)
    requires Reaching(a, at, steps) && Closing(at)
    ensures Leads(a, b) && Reaching(b, ClosingPlace(at, false), steps + 1)
  {
    var c := Normal(OneNode(0), true, true);
    b := Step(a, map[], c).run;
    LeadsOne(a, c);
  }

  lemma OpeningRun(user: nat, session: nat) returns (r: Run)
    ensures Leads(Begin(Caller(1, user, session, None)), r) && Started(r, DraftWorkflow, 5)
  {
    r := OpeningFrom(Begin(Caller(1, user, session, None)));
  }

  lemma OpeningHalf(start: Run) returns (r: Run)
    requires Started(start, Compress, 0)
    ensures Leads(start, r) && Started(r, Search, 3)
  {
    var a := OpenOne(start, Compress, 0);
    var b := OpenOne(a, Security, 1);
    LeadsOn(start, a, b);
    r := OpenOne(b, AnalyzeIntent, 2);
    LeadsOn(start, b, r);
  }

  lemma OpeningFrom(start: Run) returns (r: Run)
    requires Started(start, Compress, 0)
    ensures Leads(start, r) && Started(r, DraftWorkflow, 5)
  {
    var c := OpeningHalf(start);
    var d := OpenOne(c, Search, 3);
    LeadsOn(start, c, d);
    r := SuggestOne(d, 4);
    LeadsOn(start, d, r);
  }

  lemma RejectedRound(r: Run, s: Sketch, steps: nat, k: nat) returns (u: Run)
    requires Drafting(r, steps, k, 0) && k < 3 && NewTo(r, s)
    ensures Leads(r, u) && Drafting(u, steps + 4, k + 1, 0) && u.w.lastSignature == Some(SignatureOf(Drafted(s)))
  {
    var v := DraftAndBind(r, s, steps, k, 0);
    var t := ValidateOne(v, Raises, s, false, steps + 2, k, 0);
    LeadsOn(r, v, t);
    u := RetryOne(t, s, false, steps + 3, k, 0);
    LeadsOn(r, t, u);
  }

  lemma FailedQaRound(r: Run, s: Sketch, steps: nat, k: nat, q: nat) returns (u: Run)
    requires Drafting(r, steps, k, q) && q < 2 && NewTo(r, s)
    ensures Leads(r, u) && Drafting(u, steps + 5, k + 1, q + 1) && u.w.lastSignature == Some(SignatureOf(Drafted(s)))
  {
    var v := DraftAndBind(r, s, steps, k, q);
    var t := ValidateOne(v, Reports(true), s, false, steps + 2, k, q);
    LeadsOn(r, v, t);
    var j := QaOne(t, false, s, false, steps + 3, k, q);
    LeadsOn(r, t, j);
    u := RetryOne(j, s, false, steps + 4, k, q + 1);
    LeadsOn(r, j, u);
  }

  lemma PassingRound(r: Run, s: Sketch, steps: nat, k: nat, q: nat) returns (p: Run)
    requires Drafting(r, steps, k, q)
    ensures Leads(r, p) && Reaching(p, SaveWorkflow, steps + 5)
  {
    var v := DraftAndBind(r, s, steps, k, q);
    var t := ValidateOne(v, Reports(true), s, !NewTo(r, s), steps + 2, k, q);
    LeadsOn(r, v, t);
    var u := QaOne(t, true, s, !NewTo(r, s), steps + 3, k, q);
    LeadsOn(r, t, u);
    p := PromoteOne(u, steps + 4);
    LeadsOn(r, u, p);
  }

  lemma ClosingRun(p: Run, steps: nat) returns (r: Run)
    requires Reaching(p, SaveWorkflow, steps)
    ensures Leads(p, r) && Reaching(r, Ended, steps + 4)
  {
    var a := CloseOne(p, SaveWorkflow, steps);
    var b := CloseOne(a, Explain, steps + 1);
    LeadsOn(p, a, b);
    var c := CloseOne(b, Confirm, steps + 2);
    LeadsOn(p, b, c);
    r := CloseOne(c, SaveMemory, steps + 3);
    LeadsOn(p, c, r);
  }

  /** Sketches that look different. */
  function OneNode(k: nat): Sketch {
    Sketch([(0, k)], [])
  }

  lemma OneNodeSignature(k: nat)
    ensures SignatureOf(Drafted(OneNode(k))).nodes == multiset{k}
  {
    var nodes := Drafted(OneNode(k)).nodes;
    assert |nodes| == 1 && nodes[0] == Node(0, k, None);
    assert nodes[..0] == [];
    assert NodeIds(nodes) == NodeIds(nodes[..0]) + multiset{k};
  }

  lemma OneNodesDiffer(j: nat, k: nat)
    requires j != k
    ensures SignatureOf(Drafted(OneNode(j))) != SignatureOf(Drafted(OneNode(k)))
  {
    OneNodeSignature(j);
    OneNodeSignature(k);
    assert j in multiset{j} && j !in multiset{k};
  }

  predicate Made(r: Run, k: nat) {
    r.w.lastSignature == Some(SignatureOf(Drafted(OneNode(k))))
  }

  lemma ThreeRejected(r: Run) returns (u: Run)
    requires Started(r, DraftWorkflow, 5)
    ensures Leads(r, u) && Drafting(u, 17, 3, 0) && Made(u, 2)
  {
    var a := RejectedRound(r, OneNode(0), 5, 0);
    OneNodesDiffer(0, 1);
    var b := RejectedRound(a, OneNode(1), 9, 1);
    LeadsOn(r, a, b);
    OneNodesDiffer(1, 2);
    u := RejectedRound(b, OneNode(2), 13, 2);
    LeadsOn(r, b, u);
  }

  lemma TwoFailQa(r: Run) returns (u: Run)
    requires Drafting(r, 17, 3, 0) && Made(r, 2)
    ensures Leads(r, u) && Drafting(u, 27, 5, 2)
  {
    OneNodesDiffer(2, 3);
    var a := FailedQaRound(r, OneNode(3), 17, 3, 0);
    OneNodesDiffer(3, 4);
    u := FailedQaRound(a, OneNode(4), 22, 4, 1);
    LeadsOn(r, a, u);
  }

  /** The bound is exact: three rejected drafts, two that fail QA and a good one take 36 nodes. */
  lemma BoundIsReached(user: nat, session: nat) returns (r: Run)
    ensures Leads(Begin(Caller(1, user, session, None)), r) && r.at == Ended && r.n.steps == 36
  {
    var start := Begin(Caller(1, user, session, None));
    var a := OpeningRun(user, session);
    var b := ThreeRejected(a);
    LeadsOn(start, a, b);
    var c := TwoFailQa(b);
    LeadsOn(start, b, c);
    var d := PassingRound(c, OneNode(5), 27, 5, 2);
    LeadsOn(start, c, d);
    r := ClosingRun(d, 32);
    LeadsOn(start, d, r);
  }
}
