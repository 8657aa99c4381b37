/** Whether the composer hears its validator
    (modules/ai_agent/adapters/langgraph/composer_graph.py, `_validator_node`) and shows what it keeps, over all
    histories; with histories in which a workflow is saved that should surprise. */
module ComposerReports {
  import opened Basics
  import opened Composer
  import opened ComposerSafety
  import opened ComposerEdits

  // ---------------------------------------------------------------- reports that are not read

  predicate NeverReportsFailure(ev: Event) {
    ev.Advance? ==> ev.choice.verdict != Reports(false)
  }

  predicate CleanRun(r: Run) {
    r.w.accepted ==> r.w.reportedOk
  }

  /** The nodes that draft, bind or edit. */
  predicate Making(at: Place) {
    at.DraftWorkflow? || at.BindSkill? || at.RefinePlan? || at.RefineApply?
  }

  lemma CleanOpening(r: Run, c: Choice)
    requires CleanRun(r) && c.verdict != Reports(false) && Opening(r.at)
    ensures CleanRun(OpeningNode(r, c))
  {}

  lemma CleanClosing(r: Run, store: Store, c: Choice)
    requires CleanRun(r) && c.verdict != Reports(false) && Closing(r.at)
    ensures CleanRun(ClosingNode(r, store, c).run)
  {}

  lemma CleanStart(r: Run, store: Store, c: Choice)
    requires CleanRun(r) && c.verdict != Reports(false) && (r.at.Suggest? || r.at.Resume?)
    ensures CleanRun(WorkNode(r, store, c).run)
  {}

  lemma CleanMaking(r: Run, store: Store, c: Choice)
    requires CleanRun(r) && c.verdict != Reports(false) && Making(r.at)
    ensures CleanRun(WorkNode(r, store, c).run)
  {}

  lemma CleanValidating(r: Run, c: Choice)
    requires CleanRun(r) && c.verdict != Reports(false)
    ensures CleanRun(ValidatorNode(r, c))
  {}

  lemma CleanChecking(r: Run, store: Store, c: Choice)
    requires CleanRun(r) && (r.at.EvaluateQa? || r.at.RetryDraft? || r.at.Promote? || r.at.Ended?)
    ensures CleanRun(WorkNode(r, store, c).run)
  {}

  lemma CleanWork(r: Run, store: Store, c: Choice)
    requires CleanRun(r) && c.verdict != Reports(false) && !Opening(r.at) && !Closing(r.at)
    ensures CleanRun(WorkNode(r, store, c).run)
  {
    if r.at.Suggest? || r.at.Resume? {
      CleanStart(r, store, c);
    } else if Making(r.at) {
      CleanMaking(r, store, c);
    } else if r.at == Validate {
      CleanValidating(r, c);
    } else {
      CleanChecking(r, store, c);
    }
  }

  lemma StepIsClean(r: Run, store: Store, c: Choice)
    requires CleanRun(r) && c.verdict != Reports(false)
    ensures CleanRun(Step(r, store, c).run)
  {
    if Opening(r.at) {
      CleanOpening(r, c);
    } else if Closing(r.at) {
      CleanClosing(r, store, c);
    } else {
      CleanWork(r, store, c);
    }
  }

  ghost predicate Clean(w: World) {
    && (forall i :: 0 <= i < |w.runs| ==> CleanRun(w.runs[i]))
    && forall k :: 0 <= k < |w.saves| ==> CleanRun(w.saves[k].run)
  }

  /** If the validator raises whenever it finds errors, every saved workflow has a clean report. */
  lemma {:induction false} RaisingValidatorKeepsSavesClean(events: seq<Event>)
    requires forall k :: 0 <= k < |events| ==> NeverReportsFailure(events[k])
    ensures Clean(History(events))
    ensures forall k :: 0 <= k < |History(events).saves| ==> History(events).saves[k].run.w.reportedOk
    decreases |events|
  {
    if events != [] {
      var n := |events| - 1;
      var before := History(events[..n]);
      RaisingValidatorKeepsSavesClean(events[..n]);
      if events[n].Advance? && events[n].i < |before.runs| {
        StepIsClean(before.runs[events[n].i], before.store, events[n].choice);
      }
    }
    EverySaveIsSafe(events);
  }

  // ---------------------------------------------------------------- a validator as a function

  /** What the validator does with each workflow, and which workflows drafting, binding and editing can yield. */
  type Validator = Workflow -> Verdict
  type Maker = Workflow -> bool

  /** At a validating node the choice is this validator's verdict on the run's workflow. */
  predicate Judged(v: Validator, r: Run, c: Choice) {
    r.at == Validate && r.w.draft.Some? ==> c.verdict == v(r.w.draft.value)
  }

  /** What a node that makes a workflow leaves is one of these. */
  predicate Yields(makes: Maker, r: Run, store: Store, c: Choice) {
    var latest := Step(r, store, c).run.w.latest;
    r.at.DraftWorkflow? || r.at.BindSkill? || r.at.RefineApply? ==> latest.Some? ==> makes(latest.value)
  }

  predicate Obeys(v: Validator, makes: Maker, w: World, ev: Event) {
    ev.Advance? && ev.i < |w.runs| ==>
      Judged(v, w.runs[ev.i], ev.choice) && Yields(makes, w.runs[ev.i], w.store, ev.choice)
  }

  predicate Follows(v: Validator, makes: Maker, events: seq<Event>)
    decreases |events|
  {
    if events == [] then true
    else
      var n := |events| - 1;
      Follows(v, makes, events[..n]) && Obeys(v, makes, History(events[..n]), events[n])
  }

  /** What the run last heard is the verdict on its latest workflow. */
  predicate Heard(v: Validator, makes: Maker, r: Run) {
    && (r.at.BindSkill? ==> !r.w.accepted)
    && (r.w.accepted ==> r.w.latest.Some? && v(r.w.latest.value) == Reports(r.w.reportedOk))
    && (r.w.latest.Some? ==> makes(r.w.latest.value))
  }

  lemma OpeningHears(v: Validator, makes: Maker, r: Run, c: Choice)
    requires Heard(v, makes, r) && Opening(r.at)
    ensures Heard(v, makes, OpeningNode(r, c))
  {}

  lemma ClosingHears(v: Validator, makes: Maker, r: Run, store: Store, c: Choice)
    requires Heard(v, makes, r) && Closing(r.at)
    ensures Heard(v, makes, ClosingNode(r, store, c).run)
  {}

  lemma StartHears(v: Validator, makes: Maker, r: Run, store: Store, c: Choice)
    requires Heard(v, makes, r) && (r.at.Suggest? || r.at.Resume?)
    ensures Heard(v, makes, WorkNode(r, store, c).run)
  {}

  /** What a making node leaves in the run, in short. */
  lemma MadeBy(r: Run, store: Store, c: Choice)
    requires Making(r.at)
    ensures Step(r, store, c).run.w == WorkNode(r, store, c).run.w
  {}

  lemma PlanningHears(v: Validator, makes: Maker, r: Run, c: Choice)
    requires Heard(v, makes, r) && r.at == RefinePlan
    ensures Heard(v, makes, RefinePlanNode(r, c))
  {}

  /** A workflow that is new is not accepted, and is one of those that can be made. */
  lemma NewIsHeard(v: Validator, makes: Maker, r: Run, t: Run)
    requires t.at.BindSkill? ==> !t.w.accepted
    requires Heard(v, makes, r) && (t.w == r.w || !t.w.accepted) && (t.w.latest.Some? ==> makes(t.w.latest.value))
    ensures Heard(v, makes, t)
  {}

  lemma MakingIsNew(v: Validator, makes: Maker, r: Run, store: Store, c: Choice)
    requires Heard(v, makes, r) && (r.at.DraftWorkflow? || r.at.BindSkill? || r.at.RefineApply?)
    ensures var t := WorkNode(r, store, c).run;
            (t.at.BindSkill? ==> !t.w.accepted) && (t.w == r.w || !t.w.accepted)
  {}

  lemma MakingHears(v: Validator, makes: Maker, r: Run, store: Store, c: Choice)
    requires Heard(v, makes, r) && Making(r.at) && Yields(makes, r, store, c)
    ensures Heard(v, makes, WorkNode(r, store, c).run)
  {
    if r.at == RefinePlan {
      PlanningHears(v, makes, r, c);
    } else {
      MadeBy(r, store, c);
      MakingIsNew(v, makes, r, store, c);
      NewIsHeard(v, makes, r, WorkNode(r, store, c).run);
    }
  }

  lemma ValidatorHears(v: Validator, makes: Maker, r: Run, c: Choice)
    requires Heard(v, makes, r) && r.at == Validate && HasLatest(r) && c.verdict == v(r.w.draft.value)
    ensures Heard(v, makes, ValidatorNode(r, c))
  {}

  lemma CheckingHears(v: Validator, makes: Maker, r: Run, store: Store, c: Choice)
    requires Heard(v, makes, r) && (r.at.EvaluateQa? || r.at.RetryDraft? || r.at.Promote? || r.at.Ended?)
    ensures Heard(v, makes, WorkNode(r, store, c).run)
  {}

  lemma StepHears(v: Validator, makes: Maker, r: Run, store: Store, c: Choice)
    requires Heard(v, makes, r) && WorkOk(r)
    requires Judged(v, r, c) && Yields(makes, r, store, c)
    ensures Heard(v, makes, Step(r, store, c).run)
  {
    if Opening(r.at) {
      OpeningHears(v, makes, r, c);
    } else if Closing(r.at) {
      ClosingHears(v, makes, r, store, c);
    } else if Making(r.at) {
      MakingHears(v, makes, r, store, c);
    } else if r.at == Validate {
      ValidatorHears(v, makes, r, c);
    } else if r.at.Suggest? || r.at.Resume? {
      StartHears(v, makes, r, store, c);
    } else {
      CheckingHears(v, makes, r, store, c);
    }
  }

  ghost predicate AllHeard(v: Validator, makes: Maker, w: World) {
    && (forall i :: 0 <= i < |w.runs| ==> Heard(v, makes, w.runs[i]))
    && forall k :: 0 <= k < |w.saves| ==> Heard(v, makes, w.saves[k].run)
  }

  lemma {:induction false} HistoriesHear(v: Validator, makes: Maker, events: seq<Event>)
    requires Follows(v, makes, events)
    ensures AllHeard(v, makes, History(events))
    decreases |events|
  {
    if events != [] {
      var n := |events| - 1;
      var before := History(events[..n]);
      HistoriesHear(v, makes, events[..n]);
      EverySaveIsSafe(events[..n]);
      if events[n].Advance? && events[n].i < |before.runs| {
        assert RunOk(before.runs[events[n].i], before.offers);
        StepHears(v, makes, before.runs[events[n].i], before.store, events[n].choice);
      }
    }
  }

  // ---------------------------------------------------------------- histories that exist

  /** A validator, what is made, and what the session store does throughout. */
  datatype Setting = Setting(verdict: Validator, makes: Maker, saving: Saving)

  /** A history in this setting that ends in this world. */
  ghost predicate Ends(v: Setting, events: seq<Event>, w: World) {
    && Follows(v.verdict, v.makes, events) && History(events) == w
    && forall k :: 0 <= k < |events| ==> StoreDoes(events[k], {v.saving})
  }

  /** This choice may be made in this setting. */
  predicate Fits(v: Setting, r: Run, store: Store, c: Choice) {
    c.saving == v.saving && Judged(v.verdict, r, c) && Yields(v.makes, r, store, c)
  }

  /** The youngest run takes a step. */
  lemma Onward(v: Setting, events: seq<Event>, w: World, others: seq<Run>, r: Run, c: Choice)
    returns (more: seq<Event>)
    requires Ends(v, events, w) && w.runs == others + [r]
    requires Fits(v, r, w.store, c)
    ensures var e := Step(r, w.store, c);
            Ends(v, more, World(e.store, others + [e.run], w.offers + Offers(r, e.stored),
                                w.frames + Offers(r, e.shown),
                                w.saves + if e.saved.Some? then [Saved(r, e.saved.value)] else []))
  {
    var ev := Advance(|others|, c);
    more := events + [ev];
    assert more[..|events|] == events && more[|events|] == ev;
    assert w.runs[|others|] == r;
    assert w.runs[|others| := Step(r, w.store, c).run] == others + [Step(r, w.store, c).run];
  }

  lemma QuietOnward(v: Setting, events: seq<Event>, w: World, others: seq<Run>, r: Run, c: Choice)
    returns (more: seq<Event>, r': Run)
    requires Ends(v, events, w) && w.runs == others + [r] && Quiet(Step(r, w.store, c), w.store)
    requires Fits(v, r, w.store, c)
    ensures r' == Step(r, w.store, c).run && Ends(v, more, w.(runs := others + [r']))
  {
    more := Onward(v, events, w, others, r, c);
    r' := Step(r, w.store, c).run;
    assert w.offers + [] == w.offers && w.frames + [] == w.frames && w.saves + [] == w.saves;
  }

  lemma NewRun(v: Setting, events: seq<Event>, w: World, caller: Caller) returns (more: seq<Event>)
    requires Ends(v, events, w)
    ensures Ends(v, more, w.(runs := w.runs + [Begin(caller)]))
  {
    more := events + [Start(caller)];
    assert more[..|events|] == events && more[|events|] == Start(caller);
  }

  // ---------------------------------------------------------------- a failed report, saved

  lemma AppliedOne(r: Run, store: Store, c: Choice)
    requires Editing(r, RefineApply, Edit(true, false), 1) && IsEdit(c) && c.applied.Some?
    ensures Editing(Step(r, store, c).run, Validate, Edit(true, false), 1) && Quiet(Step(r, store, c), store)
    ensures Step(r, store, c).run.w.draft == Step(r, store, c).run.w.latest == c.applied
  {}

  lemma UnheardOne(r: Run, store: Store, c: Choice)
    requires Editing(r, Validate, Edit(true, false), 1) && r.w.draft.Some? && IsEdit(c) && c.verdict.Reports?
    ensures var t := Step(r, store, c).run;
            t.at == Promote && t.w.draft == r.w.draft && t.w.latest == r.w.latest
    ensures Quiet(Step(r, store, c), store)
  {}

  lemma PromotedOne(r: Run, store: Store, c: Choice)
    requires r.at == Promote && r.w.draft.Some?
    ensures var t := Step(r, store, c).run;
            t.at == SaveWorkflow && t.w.draft == Some(r.w.draft.value.(isDraft := false)) && t.w.latest == r.w.latest
    ensures Quiet(Step(r, store, c), store)
  {}

  lemma SavedOne(r: Run, store: Store, c: Choice)
    requires r.at == SaveWorkflow && r.w.draft.Some?
    ensures var e := Step(r, store, c); e.saved == r.w.draft && e.stored.None? && e.shown.None?
  {}

  /** Nothing has been shown or saved so far; the youngest run is `r`. */
  ghost predicate Unseen(v: Setting, events: seq<Event>, store: Store, others: seq<Run>, offers: seq<Offer>, r: Run) {
    Ends(v, events, World(store, others + [r], offers, [], []))
  }

  ghost predicate Alone(v: Setting, events: seq<Event>, r: Run) {
    Unseen(v, events, map[], [], [], r)
  }

  lemma UnseenOnward(v: Setting, events: seq<Event>, store: Store, others: seq<Run>, offers: seq<Offer>,
                     r: Run, c: Choice, r': Run)
    returns (more: seq<Event>)
    requires Unseen(v, events, store, others, offers, r) && r' == Step(r, store, c).run
    requires Quiet(Step(r, store, c), store)
    requires Fits(v, r, store, c)
    ensures Unseen(v, more, store, others, offers, r')
  {
    var s: Run;
    more, s := QuietOnward(v, events, World(store, others + [r], offers, [], []), others, r, c);
  }

  lemma AloneOnward(v: Setting, events: seq<Event>, r: Run, c: Choice, r': Run) returns (more: seq<Event>)
    requires Alone(v, events, r) && r' == Step(r, map[], c).run && Quiet(Step(r, map[], c), map[])
    requires Fits(v, r, map[], c)
    ensures Alone(v, more, r')
  {
    more := UnseenOnward(v, events, map[], [], [], r, c, r');
  }

  lemma EditBeginsOne(v: Setting, events: seq<Event>, r: Run, at: Place) returns (more: seq<Event>, r': Run)
    requires BeforeEdit(r, at) && Alone(v, events, r) && v.saving == Lost
    requires at.Compress? || at.Security? || at.AnalyzeIntent? || at.Search? || at.Suggest?
    ensures BeforeEdit(r', TowardsEdit(at)) && Alone(v, more, r')
  {
    var c := Edits(Fallback, None, None, Raises);
    TowardsEditOne(r, at, map[], c);
    r' := Step(r, map[], c).run;
    more := AloneOnward(v, events, r, c, r');
  }

  lemma EditBegins(v: Setting) returns (events: seq<Event>, r: Run)
    requires v.saving == Lost
    ensures Editing(r, RefinePlan, Edit(false, false), 0) && Alone(v, events, r)
  {
    events := NewRun(v, [], NOTHING, Caller(1, 0, 0, None));
    events, r := EditBeginsOne(v, events, Begin(Caller(1, 0, 0, None)), Compress);
    events, r := EditBeginsOne(v, events, r, Security);
    events, r := EditBeginsOne(v, events, r, AnalyzeIntent);
    events, r := EditBeginsOne(v, events, r, Search);
    events, r := EditBeginsOne(v, events, r, Suggest);
    BeginsEditing(r);
  }

  /** An edit that yields `made`, up to its validation. */
  lemma EditIsMade(v: Setting, made: Workflow) returns (events: seq<Event>, r: Run)
    requires v.saving == Lost && v.makes(made)
    ensures Alone(v, events, r) && Editing(r, Validate, Edit(true, false), 1)
    ensures r.w.draft == r.w.latest == Some(made)
  {
    var c := Edits(Planned(true), Some(made), None, v.verdict(made));
    events, r := EditBegins(v);
    PlanOne(r, Edit(false, false), 0, map[], c);
    var s := Step(r, map[], c).run;
    events := AloneOnward(v, events, r, c, s);
    AppliedOne(s, map[], c);
    r := Step(s, map[], c).run;
    events := AloneOnward(v, events, s, c, r);
  }

  /** Its report is not heard, and it is ready to be saved. */
  lemma EditIsPromoted(v: Setting, made: Workflow) returns (events: seq<Event>, r: Run)
    requires v.saving == Lost && v.makes(made) && v.verdict(made).Reports?
    ensures Alone(v, events, r) && r.at == SaveWorkflow
    ensures r.w.draft == Some(made.(isDraft := false)) && r.w.latest == Some(made)
  {
    var c := Edits(Planned(true), Some(made), None, v.verdict(made));
    var a: Run;
    events, a := EditIsMade(v, made);
    UnheardOne(a, map[], c);
    var p := Step(a, map[], c).run;
    events := AloneOnward(v, events, a, c, p);
    PromotedOne(p, map[], c);
    r := Step(p, map[], c).run;
    events := AloneOnward(v, events, p, c, r);
  }

  /** For any workflow that an edit may yield and on which the validator returns a failure there is a history that
      saves it. */
  lemma FailedReportIsSaved(v: Validator, makes: Maker, made: Workflow) returns (events: seq<Event>)
    requires makes(made) && v(made) == Reports(false)
    ensures Follows(v, makes, events) && |History(events).saves| == 1
    ensures var s := History(events).saves[0];
            s.workflow == made.(isDraft := false) && s.run.w.latest == Some(made)
  {
    var here := Setting(v, makes, Lost);
    var c := Edits(Planned(true), Some(made), None, v(made));
    var s: Run;
    events, s := EditIsPromoted(here, made);
    SavedOne(s, map[], c);
    events := Onward(here, events, NOTHING.(runs := [] + [s]), [], s, c);
  }

  lemma BeginsEditing(r: Run)
    requires BeforeEdit(r, RefinePlan)
    ensures Editing(r, RefinePlan, Edit(false, false), 0)
  {}

  // ---------------------------------------------------------------- exactly when saves are clean

  /** The validator reports that the workflow, as last drafted or edited, passes. */
  ghost predicate CleanSaves(v: Validator, w: World) {
    forall k :: 0 <= k < |w.saves| ==>
      w.saves[k].run.w.latest.Some? && v(w.saves[k].run.w.latest.value) == Reports(true)
  }

  /** Whatever happens otherwise, every saved workflow has a clean report if and only if the validator returns a
      failure on nothing that drafting and editing can yield. */
  lemma SavesAreCleanExactly(v: Validator, makes: Maker)
    ensures (forall events :: Follows(v, makes, events) ==> CleanSaves(v, History(events)))
       <==> (forall made :: makes(made) ==> v(made) != Reports(false))
  {
    if made :| makes(made) && v(made) == Reports(false) {
      var events := FailedReportIsSaved(v, makes, made);
      assert !CleanSaves(v, History(events));
    } else {
      forall events | Follows(v, makes, events) ensures CleanSaves(v, History(events)) {
        HistoriesHear(v, makes, events);
        EverySaveIsSafe(events);
        var w := History(events);
        forall k | 0 <= k < |w.saves|
          ensures w.saves[k].run.w.latest.Some? && v(w.saves[k].run.w.latest.value) == Reports(true)
        {
          assert Heard(v, makes, w.saves[k].run) && SaveOk(w.saves[k], w.offers);
        }
      }
    }
  }

  // ---------------------------------------------------------------- a skill that was never shown

  /** The choices of runs that draft: everything goes well, and the store raises after keeping the options. */
  function Drafts(skill: Skill): Choice {
    Normal(OneNode(0), true, true).(options := [skill], saving := KeptButRaised, target := Some(0))
  }

  const FIRST: Caller := Caller(1, 0, 0, None)

  function Second(skill: Skill): Caller {
    Caller(2, 0, 0, Some(skill))
  }

  function Kept(skill: Skill): Store {
    map[0 := Blob(0, [skill], true, Intent.Draft)]
  }

  function Approves(): Setting {
    Setting(_ => Reports(true), _ => true, KeptButRaised)
  }

  lemma TowardsDraftOne(r: Run, at: Place, steps: nat, skill: Skill)
    requires Started(r, at, steps) && r.caller == FIRST
    requires at.Compress? || at.Security? || at.AnalyzeIntent? || at.Search?
    ensures var e := Step(r, map[], Drafts(skill));
            Started(e.run, OpeningPlace(at), steps + 1) && e.run.caller == FIRST && Quiet(e, map[])
  {}

  lemma KeptOne(r: Run, steps: nat, skill: Skill)
    requires Started(r, Suggest, steps) && r.caller == FIRST
    ensures var e := Step(r, map[], Drafts(skill));
            e.store == Kept(skill) && e.stored == Some([skill]) && e.shown.None? && e.saved.None?
  {}

  lemma FirstStep(events: seq<Event>, r: Run, at: Place, steps: nat, skill: Skill)
    returns (more: seq<Event>, r': Run)
    requires Started(r, at, steps) && r.caller == FIRST && Alone(Approves(), events, r)
    requires at.Compress? || at.Security? || at.AnalyzeIntent? || at.Search?
    ensures Started(r', OpeningPlace(at), steps + 1) && r'.caller == FIRST && Alone(Approves(), more, r')
  {
    TowardsDraftOne(r, at, steps, skill);
    r' := Step(r, map[], Drafts(skill)).run;
    more := AloneOnward(Approves(), events, r, Drafts(skill), r');
  }

  lemma FirstSteps(skill: Skill) returns (events: seq<Event>, r: Run)
    ensures Started(r, Suggest, 4) && r.caller == FIRST && Alone(Approves(), events, r)
  {
    events := NewRun(Approves(), [], NOTHING, FIRST);
    events, r := FirstStep(events, Begin(FIRST), Compress, 0, skill);
    events, r := FirstStep(events, r, Security, 1, skill);
    events, r := FirstStep(events, r, AnalyzeIntent, 2, skill);
    events, r := FirstStep(events, r, Search, 3, skill);
  }

  lemma FirstRound(skill: Skill) returns (events: seq<Event>, r: Run)
    ensures Unseen(Approves(), events, Kept(skill), [], [Offer(0, 0, [skill])], r)
  {
    var s: Run;
    events, s := FirstSteps(skill);
    KeptOne(s, 4, skill);
    r := Step(s, map[], Drafts(skill)).run;
    events := Onward(Approves(), events, NOTHING.(runs := [] + [s]), [], s, Drafts(skill));
    assert [] + [Offer(0, 0, [skill])] == [Offer(0, 0, [skill])];
  }

  /** The second round, with a skill nobody was offered in sight. */
  predicate Resumed(r: Run, at: Place, skill: Skill) {
    r.at == at && r.caller == Second(skill) && r.intent == Intent.Draft && r.hasSpec && r.offered == [skill]
  }

  predicate Bears(r: Run, skill: Skill) {
    && !r.w.refined && r.w.draft.Some? && |r.w.draft.value.nodes| == 1
    && r.w.draft.value.nodes[0].skill == Some(skill)
  }

  lemma ResumeOne(skill: Skill)
    ensures var e := Step(Begin(Second(skill)), Kept(skill), Drafts(skill));
            Resumed(e.run, DraftWorkflow, skill) && Quiet(e, Kept(skill))
  {}

  lemma DraftedOne(r: Run, skill: Skill)
    requires Resumed(r, DraftWorkflow, skill)
    ensures var e := Step(r, Kept(skill), Drafts(skill));
            Resumed(e.run, BindSkill, skill) && Quiet(e, Kept(skill))
            && !e.run.w.refined && e.run.w.draft.Some? && |e.run.w.draft.value.nodes| == 1
  {}

  lemma BoundOne(r: Run, skill: Skill)
    requires Resumed(r, BindSkill, skill) && !r.w.refined && r.w.draft.Some? && |r.w.draft.value.nodes| == 1
    ensures var e := Step(r, Kept(skill), Drafts(skill));
            Resumed(e.run, Validate, skill) && Quiet(e, Kept(skill)) && Bears(e.run, skill)
  {}

  lemma ApprovedOne(r: Run, at: Place, skill: Skill)
    requires Resumed(r, at, skill) && Bears(r, skill) && (at.Validate? || at.EvaluateQa? || at.Promote?)
    ensures var e := Step(r, Kept(skill), Drafts(skill));
            && Resumed(e.run, if at.Validate? then EvaluateQa else if at.EvaluateQa? then Promote else SaveWorkflow, skill)
            && Quiet(e, Kept(skill)) && Bears(e.run, skill)
  {}

  lemma SecondRound(skill: Skill) returns (events: seq<Event>, others: seq<Run>, r: Run)
    ensures Unseen(Approves(), events, Kept(skill), others, [Offer(0, 0, [skill])], r)
    ensures Resumed(r, Validate, skill) && Bears(r, skill)
  {
    var v, c, store, offers := Approves(), Drafts(skill), Kept(skill), [Offer(0, 0, [skill])];
    var first: Run;
    events, first := FirstRound(skill);
    others := [] + [first];
    events := NewRun(v, events, World(store, others, offers, [], []), Second(skill));
    r := Begin(Second(skill));
    ResumeOne(skill);
    var a := Step(r, store, c).run;
    events := UnseenOnward(v, events, store, others, offers, r, c, a);
    DraftedOne(a, skill);
    var b := Step(a, store, c).run;
    events := UnseenOnward(v, events, store, others, offers, a, c, b);
    BoundOne(b, skill);
    r := Step(b, store, c).run;
    events := UnseenOnward(v, events, store, others, offers, b, c, r);
  }

  /** The second round, ready to save. */
  lemma SecondIsPromoted(skill: Skill) returns (events: seq<Event>, others: seq<Run>, r: Run)
    ensures Unseen(Approves(), events, Kept(skill), others, [Offer(0, 0, [skill])], r)
    ensures Resumed(r, SaveWorkflow, skill) && Bears(r, skill)
  {
    var v, c, store, offers := Approves(), Drafts(skill), Kept(skill), [Offer(0, 0, [skill])];
    var t: Run;
    events, others, t := SecondRound(skill);
    ApprovedOne(t, Validate, skill);
    var a := Step(t, store, c).run;
    events := UnseenOnward(v, events, store, others, offers, t, c, a);
    ApprovedOne(a, EvaluateQa, skill);
    var b := Step(a, store, c).run;
    events := UnseenOnward(v, events, store, others, offers, a, c, b);
    ApprovedOne(b, Promote, skill);
    r := Step(b, store, c).run;
    events := UnseenOnward(v, events, store, others, offers, b, c, r);
  }

  /** When the store raises after keeping the options, a second round can bind and save a skill although no options
      were ever shown. */
  lemma HiddenOfferIsSaved(skill: Skill) returns (events: seq<Event>)
    ensures forall k :: 0 <= k < |events| ==> StoreDoes(events[k], {KeptButRaised})
    ensures History(events).frames == [] && |History(events).saves| == 1
    ensures var s := History(events).saves[0];
            !s.run.w.refined && |s.workflow.nodes| == 1 && s.workflow.nodes[0].skill == Some(skill)
  {
    var others: seq<Run>, s: Run;
    events, others, s := SecondIsPromoted(skill);
    SavedOne(s, Kept(skill), Drafts(skill));
    events := Onward(Approves(), events, World(Kept(skill), others + [s], [Offer(0, 0, [skill])], [], []), others, s,
                     Drafts(skill));
  }

  /** Every skill of a freshly drafted workflow that is saved was shown to the same user in the same session. */
  ghost predicate SkillsShown(w: World) {
    forall k, i :: 0 <= k < |w.saves| && 0 <= i < |w.saves[k].workflow.nodes| ==>
      SkillShown(w.saves[k], i, w.frames)
  }

  ghost predicate SkillShown(s: Saved, i: nat, frames: seq<Offer>)
    requires i < |s.workflow.nodes|
  {
    s.run.w.refined || s.workflow.nodes[i].skill.None?
    || exists o :: o in frames && o.session == s.run.caller.session && o.user == s.run.caller.user
                   && s.workflow.nodes[i].skill.value in o.skills
  }

  /** Over all histories with a store that does nothing but these, saved skills were shown if and only if raising
      after keeping something is not among them. */
  lemma SkillsAreShownExactly(savings: set<Saving>)
    ensures (forall events :: (forall k :: 0 <= k < |events| ==> StoreDoes(events[k], savings)) ==>
               SkillsShown(History(events)))
       <==> KeptButRaised !in savings
  {
    if KeptButRaised in savings {
      var events := HiddenOfferIsSaved(0);
      forall k | 0 <= k < |events| ensures StoreDoes(events[k], savings) { assert StoreDoes(events[k], {KeptButRaised}); }
      assert !SkillShown(History(events).saves[0], 0, History(events).frames);
    } else {
      forall events | forall k :: 0 <= k < |events| ==> StoreDoes(events[k], savings)
        ensures SkillsShown(History(events))
      {
        forall k | 0 <= k < |events| ensures StoreIsHonest(events[k]) { HonestWithout(events[k], savings); }
        SavedSkillsWereShown(events);
        ShownSkills(History(events));
      }
    }
  }

  lemma HonestWithout(ev: Event, savings: set<Saving>)
    requires StoreDoes(ev, savings) && KeptButRaised !in savings
    ensures StoreIsHonest(ev)
  {
    if ev.Advance? {
      match ev.choice.saving {
        case Kept =>
        case Lost =>
        case KeptButRaised =>
      }
    }
  }

  lemma ShownSkills(w: World)
    requires forall k :: 0 <= k < |w.saves| ==> SaveOk(w.saves[k], w.frames)
    ensures SkillsShown(w)
  {
    forall k, i | 0 <= k < |w.saves| && 0 <= i < |w.saves[k].workflow.nodes|
      ensures SkillShown(w.saves[k], i, w.frames)
    {
      assert SaveOk(w.saves[k], w.frames);
    }
  }
}
