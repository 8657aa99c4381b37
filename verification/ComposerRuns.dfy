/** What every run of the composer has been through before it offers, drafts, plans or saves
    (modules/ai_agent/adapters/langgraph/composer_graph.py), over any interleaving of any number of runs: kept in a
    book that is written from the places of the runs and the answers they get there, not from their state. */
module ComposerRuns {
  import opened Basics
  import opened Composer
  import opened ComposerSafety

  // ---------------------------------------------------------------- the book

  datatype Check = Open | Passed | Refused

  /** One run so far: the checks at security, intent and search, the intent that was answered, the last workflow that
      was made, whether an edit made it, and whether the validator and QA have let it pass; and whether the run has
      put options into the store, planned an edit, or saved. */
  datatype Log = Log(
    caller: Caller, security: Check, intent: Check, search: Check, said: Intent,
    made: Option<Workflow>, byEdit: bool, accepted: bool, judged: bool, offered: bool, planned: bool, saved: bool)

  function NewLog(caller: Caller): Log {
    Log(caller, Open, Open, Open, Unset, None, false, false, false, false, false, false)
  }

  function Answered(c: Choice): Check {
    if c.fails then Refused else Passed
  }

  /** What a node at place `at` adds, having left the run as `t` and, perhaps, put options into the store. */
  function Noted(log: Log, at: Place, c: Choice, t: Run, puts: bool): Log {
    match at
    case Security => log.(security := Answered(c))
    case AnalyzeIntent => log.(intent := Answered(c), said := c.intent)
    case Search => log.(search := Answered(c))
    case Suggest => log.(offered := puts)
    case DraftWorkflow =>
      if t.at == Ended then log else log.(made := t.w.draft, byEdit := false, accepted := false, judged := false)
    case BindSkill => log.(made := t.w.draft)
    case RefinePlan => log.(planned := true)
    case RefineApply =>
      if t.at == Ended then log else log.(made := t.w.draft, byEdit := true, accepted := false, judged := false)
    case Validate => log.(accepted := c.verdict.Reports? && !c.exceeds)
    case EvaluateQa => log.(judged := c.qaPasses && !c.fails)
    case SaveWorkflow => log.(saved := true)
    case _ => log
  }

  /** The logs of all runs; and of the run that did it, at each offer, each frame shown and each save. */
  datatype Book = Book(logs: seq<Log>, offers: seq<Log>, frames: seq<Log>, saves: seq<Log>)

  function If<T>(cond: bool, x: T): seq<T> {
    if cond then [x] else []
  }

  function Entered(b: Book, i: nat, log: Log, e: Effect): Book
    requires i < |b.logs|
  {
    Book(b.logs[i := log], b.offers + If(e.stored.Some?, log), b.frames + If(e.shown.Some?, log),
         b.saves + If(e.saved.Some?, log))
  }

  function Written(b: Book, w: World, ev: Event): Book {
    match ev
    case Start(caller) => b.(logs := b.logs + [NewLog(caller)])
    case Advance(i, c) =>
      if i < |w.runs| && i < |b.logs| then
        var e := Step(w.runs[i], w.store, c);
        Entered(b, i, Noted(b.logs[i], w.runs[i].at, c, e.run, e.stored.Some?), e)
      else b
  }

  function BookOf(events: seq<Event>): Book
    decreases |events|
  {
    if events == [] then Book([], [], [], [])
    else
      var n := |events| - 1;
      Written(BookOf(events[..n]), History(events[..n]), events[n])
  }

  // ---------------------------------------------------------------- what a log says of a run

  predicate Cleared(log: Log) {
    log.security == Passed && log.intent == Passed && log.search == Passed
  }

  /** The request is to be worked on: neither to be clarified nor a mere proposal. */
  predicate Works(said: Intent) {
    said == Unset || said == Draft || said == Refine
  }

  predicate Nothing(log: Log) {
    log.made == None && !log.byEdit && !log.offered && !log.planned && !log.saved
  }

  /** No check is made after one that was not passed. */
  predicate InOrder(log: Log) {
    (log.security != Passed ==> log.intent == Open) && (log.intent != Passed ==> log.search == Open)
  }

  /** A first round: what it has passed by the time it is at its place, and that it has done nothing before. */
  predicate FirstLine(r: Run, log: Log) {
    match r.at
    case Compress => log == NewLog(r.caller)
    case Security => log == NewLog(r.caller)
    case AnalyzeIntent => log == NewLog(r.caller).(security := Passed)
    case Consultant => log == NewLog(r.caller).(security := Passed, intent := Passed, said := Clarify)
    case SlotFill => log == NewLog(r.caller).(security := Passed, intent := Passed, said := Clarify)
    case Search => log == NewLog(r.caller).(security := Passed, intent := Passed, said := r.intent) && Works(r.intent)
    case Suggest => Cleared(log) && Nothing(log) && r.intent == log.said && Works(log.said)
    case Resume => false
    case Ended => (Nothing(log) && InOrder(log)) || (Cleared(log) && Works(log.said))
    case _ => Cleared(log) && r.intent == log.said && Works(log.said) && (log.byEdit ==> log.said == Refine)
  }

  /** A second round passes no checks of its own, and neither offers nor plans. */
  predicate SecondLine(r: Run, log: Log) {
    && !log.offered && !log.planned && !log.byEdit
    && (r.at == Resume ==> log == NewLog(r.caller))
  }

  predicate CheckLine(r: Run, log: Log) {
    log.caller == r.caller && if r.caller.round == 2 then SecondLine(r, log) else FirstLine(r, log)
  }

  /** The workflow in hand is the last one made, and has passed what its place asks for. */
  predicate WorkLine(r: Run, log: Log) {
    && (r.at.BindSkill? || r.at.Validate? || r.at.EvaluateQa? || r.at.Promote? ==> log.made.Some? && r.w.draft == log.made)
    && (r.at.BindSkill? ==> !log.byEdit && !log.accepted && !log.judged)
    && (r.at.Validate? ==> !log.accepted && !log.judged && (log.byEdit <==> r.intent == Refine))
    && (r.at.EvaluateQa? ==> log.accepted && !log.byEdit)
    && (r.at.Promote? ==> Approved(log))
    && (r.at.SaveWorkflow? ==> Approved(log) && r.w.draft == Some(log.made.value.(isDraft := false)))
  }

  predicate Approved(log: Log) {
    log.made.Some? && log.accepted && (log.byEdit || log.judged)
  }

  predicate Line(r: Run, log: Log) {
    CheckLine(r, log) && WorkLine(r, log)
  }

  // ---------------------------------------------------------------- a step is a node

  /** The nodes up to the suggestion, or the resumption, have this property. */
  ghost predicate EarlyDoes(p: Effect -> bool, r: Run, store: Store, c: Choice) {
    && (Opening(r.at) ==> p(Only(OpeningNode(r, c), store)))
    && (r.at == Suggest ==> p(SuggestNode(r, store, c)))
    && (r.at == Resume ==> p(Only(ResumeNode(r, store, c), store)))
    && (r.at == Ended ==> p(Only(r, store)))
  }

  /** The nodes that make a workflow have it. */
  ghost predicate MakingDoes(p: Effect -> bool, r: Run, store: Store, c: Choice) {
    && (r.at == DraftWorkflow ==> p(Only(DrafterNode(r, c), store)))
    && (r.at == BindSkill ==> p(Only(BindSkillNode(r, c), store)))
    && (r.at == RefinePlan ==> p(Only(RefinePlanNode(r, c), store)))
    && (r.at == RefineApply ==> p(Only(RefineApplyNode(r, c), store)))
  }

  /** The nodes behind them have it. */
  ghost predicate LateDoes(p: Effect -> bool, r: Run, store: Store, c: Choice) {
    && (r.at == Validate ==> p(Only(ValidatorNode(r, c), store)))
    && (r.at == RetryDraft ==> p(Only(RetryNode(r), store)))
    && (r.at == EvaluateQa ==> p(Only(QaEvaluatorNode(r, c), store)))
    && (r.at == Promote ==> p(Only(PromoteNode(r), store)))
  }

  ghost predicate ClosingDoes(p: Effect -> bool, r: Run, store: Store, c: Choice) {
    Closing(r.at) ==> p(ClosingNode(r, store, c))
  }

  ghost predicate NodeDoes(p: Effect -> bool, r: Run, store: Store, c: Choice) {
    EarlyDoes(p, r, store, c) && MakingDoes(p, r, store, c) && LateDoes(p, r, store, c) && ClosingDoes(p, r, store, c)
  }

  ghost predicate IgnoresCounts(p: Effect -> bool) {
    forall e: Effect, n: Counts :: p(e) ==> p(e.(run := e.run.(n := n)))
  }

  lemma NodeIsOneOf(p: Effect -> bool, r: Run, store: Store, c: Choice)
    requires NodeDoes(p, r, store, c)
    ensures p(RunNode(r, store, c))
  {
    match r.at {
      case Suggest =>
      case Resume =>
      case DraftWorkflow =>
      case BindSkill =>
      case RefinePlan =>
      case RefineApply =>
      case Validate =>
      case RetryDraft =>
      case EvaluateQa =>
      case Promote =>
      case _ =>
    }
  }

  lemma StepDoes(p: Effect -> bool, r: Run, store: Store, c: Choice)
    requires NodeDoes(p, r, store, c) && IgnoresCounts(p)
    ensures p(Step(r, store, c))
  {
    if r.at != Ended { NodeIsOneOf(p, r, store, c); }
  }

  // ---------------------------------------------------------------- every node keeps it

  lemma OpeningKeepsLine(r: Run, c: Choice, log: Log)
    requires Line(r, log) && IntentOk(r) && Opening(r.at)
    ensures var t := OpeningNode(r, c); Line(t, Noted(log, r.at, c, t, false))
  {}

  /** Leaving the suggestion, with or without options in the store. */
  lemma LeavingSuggest(r: Run, at: Place, log: Log, puts: bool)
    requires Line(r, log) && IntentOk(r) && r.at == Suggest
    requires at == Ended || (at == DraftWorkflow && r.intent != Refine) || (at == RefinePlan && r.intent == Refine)
    ensures Line(Goto(r, at), log.(offered := puts))
  {}

  lemma SuggestLeaves(r: Run, store: Store, c: Choice)
    requires r.at == Suggest
    ensures var t := SuggestNode(r, store, c).run;
            t == Goto(r, t.at)
            && (t.at == Ended || (t.at == DraftWorkflow && r.intent != Refine) || (t.at == RefinePlan && r.intent == Refine))
  {}

  lemma SuggestKeepsLine(r: Run, store: Store, c: Choice, log: Log)
    requires Line(r, log) && IntentOk(r) && r.at == Suggest
    ensures var e := SuggestNode(r, store, c); Line(e.run, Noted(log, r.at, c, e.run, e.stored.Some?))
  {
    var e := SuggestNode(r, store, c);
    SuggestLeaves(r, store, c);
    LeavingSuggest(r, e.run.at, log, e.stored.Some?);
  }

  lemma ResumeKeepsLine(r: Run, store: Store, c: Choice, log: Log)
    requires Line(r, log) && IntentOk(r) && r.at == Resume
    ensures var t := ResumeNode(r, store, c); Line(t, Noted(log, r.at, c, t, false))
  {}

  lemma DraftKeepsLine(r: Run, c: Choice, log: Log)
    requires Line(r, log) && IntentOk(r) && r.at == DraftWorkflow
    ensures var t := DrafterNode(r, c); Line(t, Noted(log, r.at, c, t, false))
  {}

  lemma BindKeepsLine(r: Run, c: Choice, log: Log)
    requires Line(r, log) && IntentOk(r) && r.at == BindSkill
    ensures var t := BindSkillNode(r, c); Line(t, Noted(log, r.at, c, t, false))
  {}

  lemma PlanKeepsLine(r: Run, c: Choice, log: Log)
    requires Line(r, log) && IntentOk(r) && r.at == RefinePlan
    ensures var t := RefinePlanNode(r, c); Line(t, Noted(log, r.at, c, t, false))
  {}

  lemma ApplyKeepsChecks(r: Run, c: Choice, log: Log)
    requires CheckLine(r, log) && IntentOk(r) && r.at == RefineApply
    ensures var t := RefineApplyNode(r, c); CheckLine(t, Noted(log, r.at, c, t, false))
  {}

  lemma ApplyKeepsWork(r: Run, c: Choice, log: Log)
    requires WorkLine(r, log) && IntentOk(r) && r.at == RefineApply
    ensures var t := RefineApplyNode(r, c); WorkLine(t, Noted(log, r.at, c, t, false))
  {}

  lemma ApplyKeepsLine(r: Run, c: Choice, log: Log)
    requires Line(r, log) && IntentOk(r) && r.at == RefineApply
    ensures var t := RefineApplyNode(r, c); Line(t, Noted(log, r.at, c, t, false))
  {
    ApplyKeepsChecks(r, c, log);
    ApplyKeepsWork(r, c, log);
  }

  lemma ValidateKeepsChecks(r: Run, c: Choice, log: Log)
    requires CheckLine(r, log) && r.at == Validate
    ensures var t := ValidatorNode(r, c); CheckLine(t, Noted(log, r.at, c, t, false))
  {}

  lemma ValidateKeepsWork(r: Run, c: Choice, log: Log)
    requires WorkLine(r, log) && r.at == Validate
    ensures var t := ValidatorNode(r, c); WorkLine(t, Noted(log, r.at, c, t, false))
  {}

  lemma ValidateKeepsLine(r: Run, c: Choice, log: Log)
    requires Line(r, log) && r.at == Validate
    ensures var t := ValidatorNode(r, c); Line(t, Noted(log, r.at, c, t, false))
  {
    ValidateKeepsChecks(r, c, log);
    ValidateKeepsWork(r, c, log);
  }

  lemma QaKeepsLine(r: Run, c: Choice, log: Log)
    requires Line(r, log) && IntentOk(r) && WorkOk(r) && r.at == EvaluateQa
    ensures var t := QaEvaluatorNode(r, c); Line(t, Noted(log, r.at, c, t, false))
  {}

  lemma RetryKeepsLine(r: Run, c: Choice, log: Log)
    requires Line(r, log) && IntentOk(r) && r.at == RetryDraft
    ensures var t := RetryNode(r); Line(t, Noted(log, r.at, c, t, false))
  {}

  lemma PromoteKeepsLine(r: Run, c: Choice, log: Log)
    requires Line(r, log) && IntentOk(r) && r.at == Promote
    ensures var t := PromoteNode(r); Line(t, Noted(log, r.at, c, t, false))
  {}

  predicate Leaving(at: Place) {
    at.Explain? || at.Confirm? || at.SaveMemory? || at.Ended?
  }

  lemma LeavingKeepsLine(r: Run, at: Place, log: Log)
    requires Line(r, log) && Closing(r.at) && Leaving(at)
    ensures Line(Goto(r, at), log)
    ensures r.at == SaveWorkflow ==> Line(Goto(r, at), log.(saved := true))
  {}

  lemma ClosingLeaves(r: Run, store: Store, c: Choice)
    requires Closing(r.at)
    ensures ClosingNode(r, store, c).run == Goto(r, ClosingPlace(r.at, c.fails)) && Leaving(ClosingPlace(r.at, c.fails))
  {}

  lemma ClosingNotes(r: Run, c: Choice, log: Log, t: Run)
    requires Closing(r.at)
    ensures Noted(log, r.at, c, t, false) == if r.at == SaveWorkflow then log.(saved := true) else log
  {}

  lemma ClosingKeepsLine(r: Run, store: Store, c: Choice, log: Log)
    requires Line(r, log) && Closing(r.at)
    ensures var t := ClosingNode(r, store, c).run; Line(t, Noted(log, r.at, c, t, false))
  {
    ClosingLeaves(r, store, c);
    ClosingNotes(r, c, log, ClosingNode(r, store, c).run);
    LeavingKeepsLine(r, ClosingPlace(r.at, c.fails), log);
  }

  /** What is to be kept, of the effect of a node. */
  function Keeping(log: Log, at: Place, c: Choice): Effect -> bool {
    (e: Effect) => Line(e.run, Noted(log, at, c, e.run, e.stored.Some?))
  }

  lemma KeepingIgnoresCounts(log: Log, at: Place, c: Choice)
    ensures IgnoresCounts(Keeping(log, at, c))
  {
    var p := Keeping(log, at, c);
    forall e: Effect, n: Counts | p(e) ensures p(e.(run := e.run.(n := n))) {
      CountingKeepsLine(e.run, n, log, at, c, e.stored.Some?);
    }
  }

  /** Counting the step changes neither the line nor what is noted. */
  lemma CountingKeepsLine(r: Run, n: Counts, log: Log, at: Place, c: Choice, puts: bool)
    requires Line(r, Noted(log, at, c, r, puts))
    ensures Line(r.(n := n), Noted(log, at, c, r.(n := n), puts))
  {
    assert Noted(log, at, c, r.(n := n), puts) == Noted(log, at, c, r, puts);
  }

  lemma EarlyKeepLine(r: Run, store: Store, c: Choice, log: Log)
    requires Line(r, log) && IntentOk(r)
    ensures EarlyDoes(Keeping(log, r.at, c), r, store, c)
  {
    if Opening(r.at) { OpeningKeepsLine(r, c, log); }
    if r.at == Suggest { SuggestKeepsLine(r, store, c, log); }
    if r.at == Resume { ResumeKeepsLine(r, store, c, log); }
  }

  lemma MakingKeepLine(r: Run, store: Store, c: Choice, log: Log)
    requires Line(r, log) && IntentOk(r)
    ensures MakingDoes(Keeping(log, r.at, c), r, store, c)
  {
    if r.at == DraftWorkflow { DraftKeepsLine(r, c, log); }
    if r.at == BindSkill { BindKeepsLine(r, c, log); }
    if r.at == RefinePlan { PlanKeepsLine(r, c, log); }
    if r.at == RefineApply { ApplyKeepsLine(r, c, log); }
  }

  lemma LateKeepLine(r: Run, store: Store, c: Choice, log: Log)
    requires Line(r, log) && IntentOk(r) && WorkOk(r)
    ensures LateDoes(Keeping(log, r.at, c), r, store, c)
  {
    if r.at == Validate { ValidateKeepsLine(r, c, log); }
    if r.at == RetryDraft { RetryKeepsLine(r, c, log); }
    if r.at == EvaluateQa { QaKeepsLine(r, c, log); }
    if r.at == Promote { PromoteKeepsLine(r, c, log); }
  }

  lemma ClosingKeepLine(r: Run, store: Store, c: Choice, log: Log)
    requires Line(r, log)
    ensures ClosingDoes(Keeping(log, r.at, c), r, store, c)
  {
    if Closing(r.at) {
      ClosingKeepsLine(r, store, c, log);
      ClosingIsQuiet(r, store, c);
    }
  }

  lemma ClosingIsQuiet(r: Run, store: Store, c: Choice)
    requires Closing(r.at)
    ensures ClosingNode(r, store, c).stored.None?
  {}

  lemma StepKeepsLine(r: Run, store: Store, c: Choice, log: Log)
    requires Line(r, log) && IntentOk(r) && WorkOk(r)
    ensures Keeping(log, r.at, c)(Step(r, store, c))
  {
    EarlyKeepLine(r, store, c, log);
    MakingKeepLine(r, store, c, log);
    LateKeepLine(r, store, c, log);
    ClosingKeepLine(r, store, c, log);
    KeepingIgnoresCounts(log, r.at, c);
    StepDoes(Keeping(log, r.at, c), r, store, c);
  }

  // ---------------------------------------------------------------- what a step changes

  /** Options are put into the store and shown by the suggestion only, and never none; only the save node saves, and
      it saves what is in hand. */
  predicate Touches(r: Run, e: Effect) {
    && (e.stored.Some? ==> r.at == Suggest && r.intent != Refine && e.stored.value != [])
    && (e.shown.Some? ==> e.shown == e.stored)
    && (e.saved.Some? ==> r.at == SaveWorkflow && e.saved == r.w.draft)
    && e.run.caller == r.caller && (r.at != Resume ==> e.run.offered == r.offered)
  }

  function Touching(r: Run): Effect -> bool {
    (e: Effect) => Touches(r, e)
  }

  lemma OpeningTouches(r: Run, store: Store, c: Choice)
    requires Opening(r.at)
    ensures Touches(r, Only(OpeningNode(r, c), store))
  {}

  lemma ClosingTouches(r: Run, store: Store, c: Choice)
    requires Closing(r.at)
    ensures Touches(r, ClosingNode(r, store, c))
  {}

  lemma SuggestTouches(r: Run, store: Store, c: Choice)
    requires r.at == Suggest
    ensures Touches(r, SuggestNode(r, store, c))
  {}

  lemma MakingTouches(r: Run, store: Store, c: Choice)
    ensures Touches(r, Only(DrafterNode(r, c), store)) && Touches(r, Only(BindSkillNode(r, c), store))
  {}

  lemma EditingTouches(r: Run, store: Store, c: Choice)
    ensures Touches(r, Only(RefinePlanNode(r, c), store)) && Touches(r, Only(RefineApplyNode(r, c), store))
  {}

  lemma CheckingTouches(r: Run, store: Store, c: Choice)
    ensures Touches(r, Only(ValidatorNode(r, c), store)) && Touches(r, Only(QaEvaluatorNode(r, c), store))
  {}

  lemma LateTouches(r: Run, store: Store)
    ensures Touches(r, Only(RetryNode(r), store)) && Touches(r, Only(PromoteNode(r), store)) && Touches(r, Only(r, store))
  {}

  lemma ResumeTouches(r: Run, store: Store, c: Choice)
    requires r.at == Resume
    ensures Touches(r, Only(ResumeNode(r, store, c), store))
  {}

  lemma EarlyTouch(r: Run, store: Store, c: Choice)
    ensures EarlyDoes(Touching(r), r, store, c)
  {
    if Opening(r.at) { OpeningTouches(r, store, c); }
    if r.at == Suggest { SuggestTouches(r, store, c); }
    if r.at == Resume { ResumeTouches(r, store, c); }
    LateTouches(r, store);
  }

  lemma MakingTouch(r: Run, store: Store, c: Choice)
    ensures MakingDoes(Touching(r), r, store, c)
  {
    MakingTouches(r, store, c);
    EditingTouches(r, store, c);
  }

  lemma LateTouch(r: Run, store: Store, c: Choice)
    ensures LateDoes(Touching(r), r, store, c)
  {
    CheckingTouches(r, store, c);
    LateTouches(r, store);
  }

  lemma NodesTouch(r: Run, store: Store, c: Choice, p: Effect -> bool)
    requires p == Touching(r)
    ensures NodeDoes(p, r, store, c)
  {
    EarlyTouch(r, store, c);
    MakingTouch(r, store, c);
    LateTouch(r, store, c);
    if Closing(r.at) { ClosingTouches(r, store, c); }
  }

  lemma TouchingIgnoresCounts(r: Run)
    ensures IgnoresCounts(Touching(r))
  {}

  lemma StepTouches(r: Run, store: Store, c: Choice)
    ensures Touching(r)(Step(r, store, c))
  {
    NodesTouch(r, store, c, Touching(r));
    TouchingIgnoresCounts(r);
    StepDoes(Touching(r), r, store, c);
  }

  // ---------------------------------------------------------------- over histories

  /** The offer was made by a first round that had been cleared, and is not for an edit. */
  predicate OfferLine(o: Offer, log: Log) {
    && o.session == log.caller.session && o.user == log.caller.user && o.skills != []
    && log.caller.round != 2 && Cleared(log) && Works(log.said) && log.said != Refine
    && log.made == None && !log.planned && !log.saved
  }

  /** A second round that has been resumed has in hand an offer that was made to its user in its session. */
  predicate ResumedOk(r: Run, offers: seq<Offer>) {
    r.caller.round == 2 && r.at != Resume && r.at != Ended ==> Offer(r.caller.session, r.caller.user, r.offered) in offers
  }

  /** What was saved was the last workflow made, accepted by the validator and, unless it was an edit, by QA; in a
      first round that had been cleared, or in a second round that had been resumed. */
  predicate SaveLine(s: Saved, log: Log, offers: seq<Offer>) {
    && s.run.caller == log.caller && Approved(log) && s.workflow == log.made.value.(isDraft := false)
    && if log.caller.round == 2 then !log.byEdit && Offer(log.caller.session, log.caller.user, s.run.offered) in offers
       else Cleared(log) && Works(log.said) && (log.byEdit ==> log.said == Refine)
  }

  ghost predicate BookOk(w: World, b: Book) {
    && |b.logs| == |w.runs| && |b.offers| == |w.offers| && |b.frames| == |w.frames| && |b.saves| == |w.saves|
    && (forall i :: 0 <= i < |w.runs| ==> Line(w.runs[i], b.logs[i]) && ResumedOk(w.runs[i], w.offers))
    && (forall j :: 0 <= j < |w.offers| ==> OfferLine(w.offers[j], b.offers[j]))
    && (forall j :: 0 <= j < |w.frames| ==> OfferLine(w.frames[j], b.frames[j]))
    && (forall k :: 0 <= k < |w.saves| ==> SaveLine(w.saves[k], b.saves[k], w.offers))
  }

  lemma BeginsInLine(caller: Caller)
    ensures Line(Begin(caller), NewLog(caller))
  {}

  /** An offer that is made is made in line. */
  lemma OfferIsInLine(r: Run, c: Choice, log: Log, e: Effect)
    requires Line(r, log) && IntentOk(r) && Touches(r, e) && e.stored.Some?
    ensures OfferLine(Offer(r.caller.session, r.caller.user, e.stored.value), Noted(log, r.at, c, e.run, true))
  {}

  lemma SaveIsInLine(r: Run, c: Choice, log: Log, e: Effect, offers: seq<Offer>)
    requires Line(r, log) && IntentOk(r) && WorkOk(r) && ResumedOk(r, offers) && Touches(r, e) && e.saved.Some?
    ensures SaveLine(Saved(r, e.saved.value), Noted(log, r.at, c, e.run, false), offers)
  {}

  /** A resumption that goes on has in hand what the store held, which was offered. */
  lemma ResumptionIsOk(r: Run, store: Store, c: Choice, offers: seq<Offer>)
    requires StoreOk(store, offers) && r.at == Resume
    ensures ResumedOk(Step(r, store, c).run, offers)
  {}

  lemma StepKeepsResumed(r: Run, store: Store, c: Choice, offers: seq<Offer>)
    requires StoreOk(store, offers) && IntentOk(r) && ResumedOk(r, offers)
    ensures ResumedOk(Step(r, store, c).run, offers)
  {
    if r.at == Resume {
      ResumptionIsOk(r, store, c, offers);
    } else {
      StepTouches(r, store, c);
    }
  }

  // ---------------------------------------------------------------- the theorems

  lemma MoreOffers(r: Run, s: Saved, log: Log, offers: seq<Offer>, more: seq<Offer>)
    ensures ResumedOk(r, offers) ==> ResumedOk(r, offers + more)
    ensures SaveLine(s, log, offers) ==> SaveLine(s, log, offers + more)
  {}

  /** What a node has done, and what is noted of it, is in line. */
  ghost predicate InLine(r: Run, e: Effect, log: Log, offers: seq<Offer>) {
    && Line(e.run, log) && ResumedOk(e.run, offers)
    && (e.stored.Some? ==> OfferLine(Offer(r.caller.session, r.caller.user, e.stored.value), log))
    && (e.shown.Some? ==> OfferLine(Offer(r.caller.session, r.caller.user, e.shown.value), log))
    && (e.saved.Some? ==> SaveLine(Saved(r, e.saved.value), log, offers))
  }

  lemma EffectIsInLine(r: Run, c: Choice, log: Log, e: Effect, offers: seq<Offer>)
    requires Line(r, log) && RunOk(r, offers) && ResumedOk(r, offers) && Touches(r, e) && ResumedOk(e.run, offers)
    requires Line(e.run, Noted(log, r.at, c, e.run, e.stored.Some?))
    ensures InLine(r, e, Noted(log, r.at, c, e.run, e.stored.Some?), offers + Offers(r, e.stored))
  {
    var more := Offers(r, e.stored);
    MoreOffers(e.run, Saved(r, Workflow(false, [], [])), log, offers, more);
    if e.stored.Some? { OfferIsInLine(r, c, log, e); }
    if e.saved.Some? {
      SaveIsInLine(r, c, log, e, offers);
      MoreOffers(e.run, Saved(r, e.saved.value), Noted(log, r.at, c, e.run, false), offers, more);
    }
  }

  lemma MoveIsInLine(w: World, i: nat, c: Choice, log: Log)
    requires Safe(w) && i < |w.runs| && Line(w.runs[i], log) && ResumedOk(w.runs[i], w.offers)
    ensures var r, e := w.runs[i], Step(w.runs[i], w.store, c);
            InLine(r, e, Noted(log, r.at, c, e.run, e.stored.Some?), w.offers + Offers(r, e.stored))
  {
    var r, e := w.runs[i], Step(w.runs[i], w.store, c);
    assert RunOk(r, w.offers);
    StepKeepsLine(r, w.store, c, log);
    StepKeepsResumed(r, w.store, c, w.offers);
    StepTouches(r, w.store, c);
    EffectIsInLine(r, c, log, e, w.offers);
  }

  lemma BookAfterEffect(w: World, b: Book, i: nat, e: Effect, log: Log)
    requires BookOk(w, b) && i < |w.runs| && InLine(w.runs[i], e, log, w.offers + Offers(w.runs[i], e.stored))
    ensures BookOk(Moved(w, i, e), Entered(b, i, log, e))
  {
    var r, w', b' := w.runs[i], Moved(w, i, e), Entered(b, i, log, e);
    var more := Offers(r, e.stored);
    forall k | 0 <= k < |w'.runs| ensures Line(w'.runs[k], b'.logs[k]) && ResumedOk(w'.runs[k], w'.offers) {
      if k != i { MoreOffers(w.runs[k], Saved(w.runs[k], Workflow(false, [], [])), b.logs[k], w.offers, more); }
    }
    forall k | 0 <= k < |w'.saves| ensures SaveLine(w'.saves[k], b'.saves[k], w'.offers) {
      if k < |w.saves| { MoreOffers(r, w.saves[k], b.saves[k], w.offers, more); }
    }
  }

  lemma BookAfterMove(w: World, b: Book, i: nat, c: Choice)
    requires BookOk(w, b) && Safe(w) && i < |w.runs|
    ensures BookOk(Moved(w, i, Step(w.runs[i], w.store, c)), Written(b, w, Advance(i, c)))
  {
    var r, e := w.runs[i], Step(w.runs[i], w.store, c);
    MoveIsInLine(w, i, c, b.logs[i]);
    BookAfterEffect(w, b, i, e, Noted(b.logs[i], r.at, c, e.run, e.stored.Some?));
  }

  /** Over every history the book is in line with the runs, the offers, the frames and the saves. */
  lemma {:induction false} HistoriesAreInLine(events: seq<Event>)
    ensures BookOk(History(events), BookOf(events))
    decreases |events|
  {
    if events != [] {
      var n := |events| - 1;
      var before := History(events[..n]);
      HistoriesAreInLine(events[..n]);
      EverySaveIsSafe(events[..n]);
      match events[n] {
        case Start(caller) => BeginsInLine(caller);
        case Advance(i, c) => if i < |before.runs| { BookAfterMove(before, BookOf(events[..n]), i, c); }
      }
    }
  }

  /** Everything that is saved has been through the checks: in a first round, security, the analysis of the intent and
      the search have not failed; in a second round they had not for a first round of the same user in the same
      session, which made the offer in hand. And it is the last workflow made, which the validator has accepted and,
      unless it comes from an edit, QA has passed. */
  lemma EverySaveWasCleared(events: seq<Event>, k: nat)
    requires k < |History(events).saves|
    ensures |BookOf(events).saves| == |History(events).saves| && |BookOf(events).offers| == |History(events).offers|
    ensures var s, log := History(events).saves[k], BookOf(events).saves[k];
            && log.made.Some? && s.workflow == log.made.value.(isDraft := false) && log.accepted && (log.byEdit || log.judged)
            && if s.run.caller.round == 2 then
                 !log.byEdit
                 && exists j :: 0 <= j < |History(events).offers|
                      && History(events).offers[j] == Offer(s.run.caller.session, s.run.caller.user, s.run.offered)
                      && Cleared(BookOf(events).offers[j]) && BookOf(events).offers[j].caller.round != 2
               else Cleared(log) && (log.byEdit ==> log.said == Refine)
  {
    HistoriesAreInLine(events);
    var w, b := History(events), BookOf(events);
    assert SaveLine(w.saves[k], b.saves[k], w.offers);
    if w.saves[k].run.caller.round == 2 {
      var caller := w.saves[k].run.caller;
      var j :| 0 <= j < |w.offers| && w.offers[j] == Offer(caller.session, caller.user, w.saves[k].run.offered);
      assert OfferLine(w.offers[j], b.offers[j]);
    }
  }

  /** Whatever is offered, in the store or on the screen, is offered by a first round that had passed security, intent
      and search, wants a new workflow, and has not made anything yet. */
  lemma EveryOfferWasCleared(events: seq<Event>)
    ensures |BookOf(events).offers| == |History(events).offers| && |BookOf(events).frames| == |History(events).frames|
    ensures forall j :: 0 <= j < |History(events).offers| ==> OfferLine(History(events).offers[j], BookOf(events).offers[j])
    ensures forall j :: 0 <= j < |History(events).frames| ==> OfferLine(History(events).frames[j], BookOf(events).frames[j])
  {
    HistoriesAreInLine(events);
  }

  predicate TurnedAway(log: Log) {
    log.security == Refused || log.intent == Refused || log.search == Refused
  }

  lemma LineTurnsAway(r: Run, log: Log)
    requires Line(r, log) && r.caller.round != 2
    ensures TurnedAway(log) ==> r.at == Ended && Nothing(log) && InOrder(log)
    ensures log.intent == Passed && !Works(log.said) ==> Nothing(log)
  {}

  /** A first round that is refused at one of the checks has ended there: it makes no further check, and neither
      offers, makes, plans nor saves anything; likewise one that is to be clarified or only proposes something. */
  lemma RefusedRunsDoNothing(events: seq<Event>, i: nat)
    requires i < |History(events).runs| && History(events).runs[i].caller.round != 2
    ensures |BookOf(events).logs| == |History(events).runs|
    ensures var r, log := History(events).runs[i], BookOf(events).logs[i];
            && (TurnedAway(log) ==> r.at == Ended && Nothing(log) && InOrder(log))
            && (log.intent == Passed && !Works(log.said) ==> Nothing(log))
  {
    HistoriesAreInLine(events);
    LineTurnsAway(History(events).runs[i], BookOf(events).logs[i]);
  }

  // ---------------------------------------------------------------- sessions

  /** The suggestion waits for the user exactly when a new workflow is wanted, there are options and the store has kept
      them without raising; these and no others are shown. They are in the store, with all that the second round will
      need, whenever the store has kept them; otherwise the run goes on and the store is as before. */
  lemma SuggestsExactly(r: Run, store: Store, c: Choice)
    requires r.at == Suggest
    ensures var e := SuggestNode(r, store, c);
            var offers := r.intent != Refine && !c.fails && c.options != [];
            && (e.run.at == Ended <==> offers && c.saving == Kept)
            && e.shown == (if offers && c.saving == Kept then Some(c.options) else None)
            && (e.run.at != Ended ==> e.run.at == if r.intent == Refine then RefinePlan else DraftWorkflow)
            && (if offers && c.saving != Lost then
                  && r.caller.session in e.store
                  && e.store[r.caller.session] == Blob(r.caller.user, c.options, r.hasSpec, r.intent)
                  && forall s :: s != r.caller.session ==> (s in e.store <==> s in store) && (s in store ==> e.store[s] == store[s])
                else e.store == store)
  {}

  /** A second round goes on exactly when the store can be reached and holds the session for this user; with what it
      holds. */
  lemma ResumesExactly(r: Run, store: Store, c: Choice)
    requires r.at == Resume
    ensures var t, s := ResumeNode(r, store, c), r.caller.session;
            if c.reachable && s in store && store[s].user == r.caller.user then
              && t.at == DraftWorkflow && t.hasSpec == store[s].hasSpec && t.intent == store[s].intent
              && t.offered == store[s].offered && t.w == r.w
            else t.at == Ended
  {}

  lemma BoundAt(w: Workflow, target: nat, skill: Skill, k: nat)
    requires target < |w.nodes| && k < |w.nodes|
    ensures |Bind(w, target, skill).nodes| == |w.nodes| && Bind(w, target, skill).edges == w.edges
    ensures Bind(w, target, skill).nodes[k] == if k == target then w.nodes[k].(skill := Some(skill)) else w.nodes[k]
  {}

  predicate Binds(r: Run, c: Choice, k: nat) {
    r.caller.selected.Some? && r.caller.selected.value in r.offered && c.target == Some(k)
  }

  /** Binding gives the chosen skill to one node, the first that runs a language model, if the skill is among those
      offered; no other node changes, and nothing is bound otherwise. */
  lemma BindsExactly(r: Run, c: Choice, k: nat)
    requires r.at == BindSkill && r.w.draft.Some? && k < |r.w.draft.value.nodes|
    ensures var t, w := BindSkillNode(r, c), r.w.draft.value;
            && t.at == Validate && t.w.draft.Some? && |t.w.draft.value.nodes| == |w.nodes|
            && t.w.draft.value.edges == w.edges
            && t.w.draft.value.nodes[k] == if Binds(r, c, k) then w.nodes[k].(skill := r.caller.selected) else w.nodes[k]
  {
    match Bound(r, c) {
      case None =>
      case Some(bound) => BoundAt(r.w.draft.value, c.target.value, r.caller.selected.value, k);
    }
  }

  /** A draft is what the drafter answers, unless it fails or there is no specification; then the run ends. */
  lemma DraftsExactly(r: Run, c: Choice)
    requires r.at == DraftWorkflow && r.intent != Refine
    ensures var t := DrafterNode(r, c);
            if r.hasSpec && !c.fails then t.at == BindSkill && t.w.draft == Some(Drafted(c.sketch)) else t.at == Ended
  {}

  predicate LeavesOthers(r: Run, store: Store, c: Choice, after: Store) {
    && (forall s :: s in store.Keys + after.Keys ==>
          s == r.caller.session || (s in store && s in after && after[s] == store[s]))
    && (r.caller.session in store && r.caller.session !in after
        <==> r.caller.session in store && r.at == SaveMemory && r.caller.round == 2 && c.deletes)
  }

  function LeavingOthers(r: Run, store: Store, c: Choice): Effect -> bool {
    (e: Effect) => LeavesOthers(r, store, c, e.store)
  }

  lemma SuggestLeavesOthers(r: Run, store: Store, c: Choice)
    requires r.at == Suggest
    ensures LeavesOthers(r, store, c, SuggestNode(r, store, c).store)
  {}

  lemma ClosingLeavesOthers(r: Run, store: Store, c: Choice)
    requires Closing(r.at)
    ensures LeavesOthers(r, store, c, ClosingNode(r, store, c).store)
  {}

  lemma QuietLeavesOthers(r: Run, store: Store, c: Choice, t: Run)
    requires !Closing(r.at)
    ensures LeavingOthers(r, store, c)(Only(t, store))
  {}

  /** A property of every node that changes nothing but the run. */
  lemma QuietDoes(p: Effect -> bool, r: Run, store: Store, c: Choice)
    requires !Closing(r.at) && forall t :: p(Only(t, store))
    requires r.at == Suggest ==> p(SuggestNode(r, store, c))
    ensures NodeDoes(p, r, store, c)
  {}

  lemma ClosingDoesOnly(p: Effect -> bool, r: Run, store: Store, c: Choice)
    requires Closing(r.at) && p(ClosingNode(r, store, c))
    ensures NodeDoes(p, r, store, c)
  {}

  lemma ClosingIsolates(r: Run, store: Store, c: Choice)
    requires Closing(r.at)
    ensures NodeDoes(LeavingOthers(r, store, c), r, store, c)
  {
    ClosingLeavesOthers(r, store, c);
    ClosingDoesOnly(LeavingOthers(r, store, c), r, store, c);
  }

  lemma OthersIsolate(r: Run, store: Store, c: Choice)
    requires !Closing(r.at)
    ensures NodeDoes(LeavingOthers(r, store, c), r, store, c)
  {
    forall t ensures LeavingOthers(r, store, c)(Only(t, store)) { QuietLeavesOthers(r, store, c, t); }
    if r.at == Suggest { SuggestLeavesOthers(r, store, c); }
    QuietDoes(LeavingOthers(r, store, c), r, store, c);
  }

  /** No step touches the session of another run's caller; and its own session ends exactly when a second round has
      come to its last node and the store deletes it. */
  lemma SessionsAreIsolated(r: Run, store: Store, c: Choice)
    ensures LeavingOthers(r, store, c)(Step(r, store, c))
  {
    if Closing(r.at) { ClosingIsolates(r, store, c); } else { OthersIsolate(r, store, c); }
    assert IgnoresCounts(LeavingOthers(r, store, c));
    StepDoes(LeavingOthers(r, store, c), r, store, c);
  }

  // ---------------------------------------------------------------- runs that go on

  lemma IterateOne(next: Stepper, r: Run, moves: seq<Move>, k: nat)
    requires k < |moves|
    ensures Iterate(next, r, moves[..0]) == r
    ensures Iterate(next, r, moves[..k + 1]) == next(Iterate(next, r, moves[..k]), moves[k])
  {
    assert moves[..k + 1][..k] == moves[..k] && moves[..0] == [];
  }

  /** Where an opening node leads. */
  predicate OpensTo(r: Run, c: Choice, t: Run) {
    match r.at
    case Compress => t.at == Security
    case Security => t.at == if c.fails then Ended else AnalyzeIntent
    case AnalyzeIntent =>
      if c.fails then t.at == Ended
      else t.intent == c.intent && t.at == if Works(c.intent) then Search else if c.intent == Clarify then Consultant else Ended
    case Search => t.intent == r.intent && t.at == if c.fails then Ended else Suggest
    case _ => true
  }

  /** Where a closing node leads. */
  predicate ClosesTo(r: Run, c: Choice, t: Run) {
    t.at == match r.at
            case SaveWorkflow => if c.fails then Ended else Explain
            case Explain => Confirm
            case Confirm => SaveMemory
            case _ => Ended
  }

  ghost predicate OpensAndCloses(next: Stepper) {
    && (forall r: Run, m: Move :: Opening(r.at) ==> OpensTo(r, m.1, next(r, m)))
    && (forall r: Run, m: Move :: Closing(r.at) ==> ClosesTo(r, m.1, next(r, m)))
  }

  lemma OpensOne(r: Run, store: Store, c: Choice)
    requires Opening(r.at)
    ensures OpensTo(r, c, Step(r, store, c).run)
  {}

  lemma ClosesOne(r: Run, store: Store, c: Choice)
    requires Closing(r.at)
    ensures ClosesTo(r, c, Step(r, store, c).run)
  {}

  lemma SteppingOpensAndCloses()
    ensures OpensAndCloses(Stepping())
  {
    forall r: Run, m: Move | Opening(r.at) ensures OpensTo(r, m.1, Stepping()(r, m)) { OpensOne(r, m.0, m.1); }
    forall r: Run, m: Move | Closing(r.at) ensures ClosesTo(r, m.1, Stepping()(r, m)) { ClosesOne(r, m.0, m.1); }
  }

  lemma OpeningGoesOn(next: Stepper, r: Run, moves: seq<Move>)
    requires OpensAndCloses(next) && r.at == Compress && |moves| >= 4 && !moves[1].1.fails && !moves[2].1.fails
    ensures var said := moves[2].1.intent;
            && Iterate(next, r, moves[..3]).at == (if Works(said) then Search else if said == Clarify then Consultant else Ended)
            && (Works(said) && !moves[3].1.fails ==>
                  Iterate(next, r, moves[..4]).at == Suggest && Iterate(next, r, moves[..4]).intent == said)
  {
    IterateOne(next, r, moves, 0);
    IterateOne(next, r, moves, 1);
    IterateOne(next, r, moves, 2);
    IterateOne(next, r, moves, 3);
  }

  /** A first round whose security check and intent analysis do not fail is worked on, clarified or ended by the intent
      that was answered, none included; and if it is worked on and the search does not fail, it comes to the
      suggestion. */
  lemma PassedChecksGoOn(caller: Caller, moves: seq<Move>)
    requires caller.round != 2 && |moves| >= 4 && !moves[1].1.fails && !moves[2].1.fails
    ensures var said := moves[2].1.intent;
            && After(Begin(caller), moves[..3]).at
               == (if Works(said) then Search else if said == Clarify then Consultant else Ended)
            && (Works(said) && !moves[3].1.fails ==>
                  After(Begin(caller), moves[..4]).at == Suggest && After(Begin(caller), moves[..4]).intent == said)
  {
    SteppingOpensAndCloses();
    OpeningGoesOn(Stepping(), Begin(caller), moves);
  }

  lemma FirstThree(next: Stepper, r: Run, moves: seq<Move>)
    requires |moves| >= 3
    ensures Iterate(next, r, moves[..1]) == next(r, moves[0])
    ensures Iterate(next, r, moves[..2]) == next(next(r, moves[0]), moves[1])
    ensures Iterate(next, r, moves[..3]) == next(next(next(r, moves[0]), moves[1]), moves[2])
  {
    IterateOne(next, r, moves, 0);
    IterateOne(next, r, moves, 1);
    IterateOne(next, r, moves, 2);
  }

  lemma ClosesThrice(next: Stepper, r: Run, m0: Move, m1: Move, m2: Move)
    requires OpensAndCloses(next) && r.at == SaveWorkflow
    ensures if m0.1.fails then next(r, m0).at == Ended
            else
              && next(r, m0).at == Explain && next(next(r, m0), m1).at == Confirm
              && next(next(next(r, m0), m1), m2).at == SaveMemory
  {}

  lemma ClosingGoesOn(next: Stepper, r: Run, moves: seq<Move>)
    requires OpensAndCloses(next) && r.at == SaveWorkflow && |moves| >= 3
    ensures if moves[0].1.fails then Iterate(next, r, moves[..1]).at == Ended
            else
              && Iterate(next, r, moves[..1]).at == Explain && Iterate(next, r, moves[..2]).at == Confirm
              && Iterate(next, r, moves[..3]).at == SaveMemory
  {
    FirstThree(next, r, moves);
    ClosesThrice(next, r, moves[0], moves[1], moves[2]);
  }

  /** What is saved without failing is explained, confirmed and remembered; a save that fails ends the run. */
  lemma SavedIsConfirmed(r: Run, moves: seq<Move>)
    requires r.at == SaveWorkflow && |moves| >= 3
    ensures if moves[0].1.fails then After(r, moves[..1]).at == Ended
            else After(r, moves[..1]).at == Explain && After(r, moves[..2]).at == Confirm && After(r, moves[..3]).at == SaveMemory
  {
    SteppingOpensAndCloses();
    ClosingGoesOn(Stepping(), r, moves);
  }
}
