/** What holds of everything the composer saves, over any interleaving of any number of runs that share
    the session store; and when a run stops making progress. */
module ComposerSafety {
  import opened Basics
  import opened Composer

  // ---------------------------------------------------------------- many runs

  datatype Offer = Offer(session: nat, user: nat, skills: seq<Skill>)

  /** `run` is the run as it entered the save node. */
  datatype Saved = Saved(run: Run, workflow: Workflow)

  /** `offers` have been put into the session store, `frames` have been shown to the user. */
  datatype World = World(store: Store, runs: seq<Run>, offers: seq<Offer>, frames: seq<Offer>, saves: seq<Saved>)
  datatype Event = Start(caller: Caller) | Advance(i: nat, choice: Choice)

  const NOTHING: World := World(map[], [], [], [], [])

  function Offers(r: Run, skills: Option<seq<Skill>>): seq<Offer> {
    if skills.Some? then [Offer(r.caller.session, r.caller.user, skills.value)] else []
  }

  function Moved(w: World, i: nat, e: Effect): World
    requires i < |w.runs|
  {
    var r := w.runs[i];
    World(e.store, w.runs[i := e.run], w.offers + Offers(r, e.stored), w.frames + Offers(r, e.shown),
          w.saves + (if e.saved.Some? then [Saved(r, e.saved.value)] else []))
  }

  function Next(w: World, ev: Event): World {
    match ev
    case Start(caller) => w.(runs := w.runs + [Begin(caller)])
    case Advance(i, c) => if i < |w.runs| then Moved(w, i, Step(w.runs[i], w.store, c)) else w
  }

  function History(events: seq<Event>): World
    decreases |events|
  {
    if events == [] then NOTHING else Next(History(events[..|events| - 1]), events[|events| - 1])
  }

  // ---------------------------------------------------------------- the invariant

  predicate BlobOk(session: nat, blob: Blob, offers: seq<Offer>) {
    blob.intent != Refine && Offer(session, blob.user, blob.offered) in offers
  }

  ghost predicate StoreOk(store: Store, offers: seq<Offer>) {
    forall session :: session in store ==> BlobOk(session, store[session], offers)
  }

  /** Skills are bound to at most one node, and only the one chosen. */
  ghost predicate SkillsOk(nodes: seq<Node>, selected: Option<Skill>, offered: seq<Skill>) {
    && (forall i, j :: 0 <= i < j < |nodes| ==> nodes[i].skill.None? || nodes[j].skill.None?)
    && forall i :: 0 <= i < |nodes| && nodes[i].skill.Some? ==>
         selected == nodes[i].skill && nodes[i].skill.value in offered
  }

  ghost predicate NoSkills(nodes: seq<Node>) {
    forall i :: 0 <= i < |nodes| ==> nodes[i].skill.None?
  }

  /** The offer in a run's hands was made to the same user in the same session. */
  predicate OfferOk(r: Run, offers: seq<Offer>) {
    r.offered == [] || (r.caller.round == 2 && Offer(r.caller.session, r.caller.user, r.offered) in offers)
  }

  predicate IntentOk(r: Run) {
    && (r.caller.round == 2 ==> r.intent != Refine && !Opening(r.at) && r.at != Suggest)
    && (r.at.DraftWorkflow? || r.at.BindSkill? || r.at.EvaluateQa? || r.at.RetryDraft? ==> r.intent != Refine)
    && (r.at.RefinePlan? || r.at.RefineApply? ==> r.intent == Refine)
    && (r.at.Resume? ==> r.caller.round == 2)
  }

  ghost predicate HasLatest(r: Run) {
    && r.w.draft.Some? && r.w.draft == r.w.latest
    && (if r.w.refined then r.intent == Refine
        else r.hasSpec && SkillsOk(r.w.draft.value.nodes, r.caller.selected, r.offered))
  }

  ghost predicate WorkOk(r: Run) {
    && (r.at.BindSkill? ==> HasLatest(r) && !r.w.refined && NoSkills(r.w.draft.value.nodes))
    && (r.at.Validate? ==> HasLatest(r) && (r.intent == Refine ==> r.w.refined))
    && (r.at.EvaluateQa? ==> HasLatest(r) && !r.w.refined && r.w.accepted)
    && (r.at.Promote? ==> HasLatest(r) && r.w.accepted && (r.w.refined || r.w.judged))
    && (r.at.SaveWorkflow? ==>
          && r.w.latest.Some? && r.w.draft == Some(r.w.latest.value.(isDraft := false))
          && HasLatest(r.(w := r.w.(draft := r.w.latest))) && r.w.accepted && (r.w.refined || r.w.judged))
  }

  ghost predicate RunOk(r: Run, offers: seq<Offer>) {
    OfferOk(r, offers) && IntentOk(r) && WorkOk(r)
  }

  /** What is saved is the last workflow drafted, bound or edited, up to the draft flag. The validator has
      not raised on it; unless it came from an edit, QA has passed it; an edit is saved only in a first
      round; and a fresh workflow has a skill on at most one node, the chosen one, and only if it was
      offered in the first round to the same user in the same session. */
  ghost predicate SaveOk(s: Saved, offers: seq<Offer>) {
    var r := s.run;
    && r.w.latest.Some? && s.workflow == r.w.latest.value.(isDraft := false)
    && r.w.accepted
    && (if r.w.refined then r.caller.round != 2 && r.intent == Refine
        else
          && r.w.judged
          && (forall i, j :: 0 <= i < j < |s.workflow.nodes| ==>
                s.workflow.nodes[i].skill.None? || s.workflow.nodes[j].skill.None?)
          && forall i :: 0 <= i < |s.workflow.nodes| && s.workflow.nodes[i].skill.Some? ==>
               && r.caller.round == 2 && r.caller.selected == s.workflow.nodes[i].skill
               && exists o :: o in offers && o.session == r.caller.session && o.user == r.caller.user
                              && s.workflow.nodes[i].skill.value in o.skills)
  }

  ghost predicate Safe(w: World) {
    && StoreOk(w.store, w.offers)
    && (forall i :: 0 <= i < |w.runs| ==> RunOk(w.runs[i], w.offers))
    && forall k :: 0 <= k < |w.saves| ==> SaveOk(w.saves[k], w.offers)
  }

  // ---------------------------------------------------------------- every node keeps it

  lemma OffersGrow(r: Run, store: Store, offers: seq<Offer>, more: seq<Offer>)
    requires RunOk(r, offers) && StoreOk(store, offers)
    ensures RunOk(r, offers + more) && StoreOk(store, offers + more)
  {}

  /** Leaving the suggestion, with or without waiting for a choice. */
  lemma SuggestedIsSafe(r: Run, offers: seq<Offer>, waiting: bool)
    requires RunOk(r, offers) && r.at == Suggest
    ensures RunOk(Goto(r, RouteAfterSuggest(waiting, r.intent)), offers)
  {}

  lemma StoredIsSafe(r: Run, store: Store, offers: seq<Offer>, skills: seq<Skill>)
    requires StoreOk(store, offers) && r.intent != Refine
    ensures StoreOk(store[r.caller.session := Blob(r.caller.user, skills, r.hasSpec, r.intent)],
                    offers + Offers(r, Some(skills)))
  {}

  lemma SuggestIsSafe(r: Run, store: Store, c: Choice, offers: seq<Offer>)
    requires RunOk(r, offers) && StoreOk(store, offers) && r.at == Suggest
    ensures var e := SuggestNode(r, store, c);
            var offers' := offers + Offers(r, e.stored);
            RunOk(e.run, offers') && StoreOk(e.store, offers') && e.saved.None?
  {
    var offer := Offers(r, SuggestNode(r, store, c).stored);
    OffersGrow(r, store, offers, offer);
    SuggestedIsSafe(r, offers + offer, true);
    SuggestedIsSafe(r, offers + offer, false);
    if r.intent != Refine { StoredIsSafe(r, store, offers, c.options); }
  }

  lemma ResumeIsSafe(r: Run, store: Store, c: Choice, offers: seq<Offer>)
    requires RunOk(r, offers) && StoreOk(store, offers) && r.at == Resume
    ensures RunOk(ResumeNode(r, store, c), offers)
  {}

  lemma DrafterIsSafe(r: Run, c: Choice, offers: seq<Offer>)
    requires RunOk(r, offers) && r.at == DraftWorkflow
    ensures RunOk(DrafterNode(r, c), offers)
  {}

  lemma BindIsSafe(r: Run, c: Choice, offers: seq<Offer>)
    requires RunOk(r, offers) && r.at == BindSkill
    ensures RunOk(BindSkillNode(r, c), offers)
  {}

  lemma PlanIsSafe(r: Run, c: Choice, offers: seq<Offer>)
    requires RunOk(r, offers) && r.at == RefinePlan
    ensures RunOk(RefinePlanNode(r, c), offers)
  {}

  lemma ApplyIsSafe(r: Run, c: Choice, offers: seq<Offer>)
    requires RunOk(r, offers) && r.at == RefineApply
    ensures RunOk(RefineApplyNode(r, c), offers)
  {}

  lemma ValidatorIsSafe(r: Run, c: Choice, offers: seq<Offer>)
    requires RunOk(r, offers) && r.at == Validate
    ensures RunOk(ValidatorNode(r, c), offers)
  {}

  lemma QaIsSafe(r: Run, c: Choice, offers: seq<Offer>)
    requires RunOk(r, offers) && r.at == EvaluateQa
    ensures RunOk(QaEvaluatorNode(r, c), offers)
  {}

  lemma PromoteIsSafe(r: Run, offers: seq<Offer>)
    requires RunOk(r, offers) && r.at == Promote
    ensures RunOk(PromoteNode(r), offers)
  {}

  lemma OpeningIsSafe(r: Run, c: Choice, offers: seq<Offer>)
    requires RunOk(r, offers) && Opening(r.at)
    ensures RunOk(OpeningNode(r, c), offers)
  {}

  lemma SaveIsSafe(r: Run, offers: seq<Offer>)
    requires RunOk(r, offers) && r.at == SaveWorkflow
    ensures r.w.draft.Some? && SaveOk(Saved(r, r.w.draft.value), offers)
  {
    var l := r.w.latest.value;
    if !r.w.refined {
      forall i | 0 <= i < |l.nodes| && l.nodes[i].skill.Some?
        ensures exists o :: o in offers && o.session == r.caller.session && o.user == r.caller.user
                            && l.nodes[i].skill.value in o.skills
      {
        var o := Offer(r.caller.session, r.caller.user, r.offered);
        assert o in offers;
      }
    }
  }

  lemma ClosingIsSafe(r: Run, store: Store, c: Choice, offers: seq<Offer>)
    requires RunOk(r, offers) && StoreOk(store, offers) && Closing(r.at)
    ensures var e := ClosingNode(r, store, c);
            && RunOk(e.run, offers) && StoreOk(e.store, offers) && e.stored.None?
            && (e.saved.Some? ==> SaveOk(Saved(r, e.saved.value), offers))
  {
    if r.at == SaveWorkflow { SaveIsSafe(r, offers); }
  }

  lemma WorkIsSafe(r: Run, store: Store, c: Choice, offers: seq<Offer>)
    requires RunOk(r, offers) && StoreOk(store, offers) && !Opening(r.at) && !Closing(r.at)
    ensures var e := WorkNode(r, store, c);
            var offers' := offers + Offers(r, e.stored);
            RunOk(e.run, offers') && StoreOk(e.store, offers') && e.saved.None?
  {
    assert offers + [] == offers;
    match r.at {
      case Suggest => SuggestIsSafe(r, store, c, offers);
      case Resume => ResumeIsSafe(r, store, c, offers);
      case DraftWorkflow => DrafterIsSafe(r, c, offers);
      case BindSkill => BindIsSafe(r, c, offers);
      case RefinePlan => PlanIsSafe(r, c, offers);
      case RefineApply => ApplyIsSafe(r, c, offers);
      case Validate => ValidatorIsSafe(r, c, offers);
      case EvaluateQa => QaIsSafe(r, c, offers);
      case Promote => PromoteIsSafe(r, offers);
      case _ =>
    }
  }

  /** Counting the step changes nothing else. */
  lemma CountingIsSafe(r: Run, n: Counts, offers: seq<Offer>)
    requires RunOk(r, offers)
    ensures RunOk(r.(n := n), offers)
  {}

  lemma NodeIsSafe(r: Run, store: Store, c: Choice, offers: seq<Offer>)
    requires RunOk(r, offers) && StoreOk(store, offers)
    ensures var e := RunNode(r, store, c);
            && RunOk(e.run, offers + Offers(r, e.stored)) && StoreOk(e.store, offers + Offers(r, e.stored))
            && (e.saved.Some? ==> SaveOk(Saved(r, e.saved.value), offers))
  {
    assert offers + [] == offers;
    if Opening(r.at) {
      OpeningIsSafe(r, c, offers);
    } else if Closing(r.at) {
      ClosingIsSafe(r, store, c, offers);
    } else {
      WorkIsSafe(r, store, c, offers);
    }
  }

  lemma StepIsSafe(r: Run, store: Store, c: Choice, offers: seq<Offer>)
    requires RunOk(r, offers) && StoreOk(store, offers)
    ensures var e := Step(r, store, c);
            && RunOk(e.run, offers + Offers(r, e.stored)) && StoreOk(e.store, offers + Offers(r, e.stored))
            && (e.saved.Some? ==> SaveOk(Saved(r, e.saved.value), offers))
  {
    if r.at == Ended {
      assert offers + [] == offers;
    } else {
      NodeIsSafe(r, store, c, offers);
      var e := RunNode(r, store, c);
      CountingIsSafe(e.run, e.run.n.(steps := r.n.steps + 1), offers + Offers(r, e.stored));
    }
  }

  lemma OthersStaySafe(r: Run, s: Saved, offers: seq<Offer>, more: seq<Offer>)
    ensures RunOk(r, offers) ==> RunOk(r, offers + more)
    ensures SaveOk(s, offers) ==> SaveOk(s, offers + more)
  {
    if SaveOk(s, offers) && !s.run.w.refined {
      var nodes, caller := s.workflow.nodes, s.run.caller;
      forall i | 0 <= i < |nodes| && nodes[i].skill.Some?
        ensures exists o :: o in offers + more && o.session == caller.session && o.user == caller.user
                            && nodes[i].skill.value in o.skills
      {
        var o :| o in offers && o.session == caller.session && o.user == caller.user && nodes[i].skill.value in o.skills;
        assert o in offers + more;
      }
    }
  }

  lemma MoveIsSafe(w: World, i: nat, c: Choice)
    requires Safe(w) && i < |w.runs|
    ensures Safe(Moved(w, i, Step(w.runs[i], w.store, c)))
  {
    var r, e := w.runs[i], Step(w.runs[i], w.store, c);
    StepIsSafe(r, w.store, c, w.offers);
    var w' := Moved(w, i, e);
    var more := Offers(r, e.stored);
    forall k | 0 <= k < |w'.runs| ensures RunOk(w'.runs[k], w'.offers) {
      if k != i { OthersStaySafe(w.runs[k], Saved(w.runs[k], Workflow(false, [], [])), w.offers, more); }
    }
    forall k | 0 <= k < |w'.saves| ensures SaveOk(w'.saves[k], w'.offers) {
      if k < |w.saves| {
        OthersStaySafe(r, w.saves[k], w.offers, more);
      } else {
        OthersStaySafe(r, Saved(r, e.saved.value), w.offers, more);
      }
    }
  }

  lemma BeginIsSafe(caller: Caller, offers: seq<Offer>)
    ensures RunOk(Begin(caller), offers)
  {}

  /** Over every history of any number of runs and rounds, whatever is saved is safe to save. */
  lemma {:induction false} EverySaveIsSafe(events: seq<Event>)
    ensures Safe(History(events))
    decreases |events|
  {
    if events != [] {
      var before := History(events[..|events| - 1]);
      EverySaveIsSafe(events[..|events| - 1]);
      match events[|events| - 1] {
        case Start(caller) => BeginIsSafe(caller, before.offers);
        case Advance(i, c) => if i < |before.runs| { MoveIsSafe(before, i, c); }
      }
    }
  }

  // ---------------------------------------------------------------- stored and shown

  /** What the store does in this event, should it be asked to keep something, is one of these. */
  predicate StoreDoes(ev: Event, savings: set<Saving>) {
    ev.Advance? ==> ev.choice.saving in savings
  }

  predicate StoreIsHonest(ev: Event) {
    StoreDoes(ev, {Kept, Lost})
  }

  lemma StoredIsShown(r: Run, store: Store, c: Choice)
    ensures var e := Step(r, store, c);
            (e.shown.Some? ==> e.stored == e.shown) && (!c.saving.KeptButRaised? ==> e.stored == e.shown)
  {}

  /** What is shown has been stored; and unless the store raises after keeping something, the other way round. */
  lemma {:induction false} ShownIsStored(events: seq<Event>)
    ensures forall o :: o in History(events).frames ==> o in History(events).offers
    ensures (forall k :: 0 <= k < |events| ==> StoreIsHonest(events[k])) ==>
              History(events).offers == History(events).frames
    decreases |events|
  {
    if events != [] {
      var n := |events| - 1;
      var before := History(events[..n]);
      ShownIsStored(events[..n]);
      if events[n].Advance? && events[n].i < |before.runs| {
        StoredIsShown(before.runs[events[n].i], before.store, events[n].choice);
      }
    }
  }

  /** So with such a store every skill that is saved was shown to the same user, in the same session, in the
      first round. */
  lemma SavedSkillsWereShown(events: seq<Event>)
    requires forall k :: 0 <= k < |events| ==> StoreIsHonest(events[k])
    ensures forall k :: 0 <= k < |History(events).saves| ==> SaveOk(History(events).saves[k], History(events).frames)
  {
    EverySaveIsSafe(events);
    ShownIsStored(events);
  }

  // ---------------------------------------------------------------- progress

  /** A repeated draft that has been made, outside an edit. */
  predicate Stuck(r: Run, drafts: nat) {
    && r.w.repeated && r.intent != Refine && r.n.drafts == drafts
    && (r.at.BindSkill? || r.at.Validate? || r.at.EvaluateQa? || r.at.Promote? || Closing(r.at) || r.at.Ended?)
  }

  lemma StuckClosing(r: Run, store: Store, c: Choice, drafts: nat)
    requires Stuck(r, drafts) && Closing(r.at)
    ensures Stuck(ClosingNode(r, store, c).run, drafts)
  {}

  lemma StuckWork(r: Run, store: Store, c: Choice, drafts: nat)
    requires Stuck(r, drafts) && !Closing(r.at)
    ensures Stuck(WorkNode(r, store, c).run, drafts)
  {}

  lemma StuckStep(r: Run, store: Store, c: Choice, drafts: nat)
    requires Stuck(r, drafts)
    ensures Stuck(Step(r, store, c).run, drafts)
  {
    if Closing(r.at) {
      StuckClosing(r, store, c, drafts);
    } else {
      StuckWork(r, store, c, drafts);
    }
  }

  /** A draft with the signature of the one before is the run's last: it is accepted or the run fails. */
  lemma RepeatedDraftIsTheLast(r: Run, drafts: nat, moves: seq<Move>)
    requires Stuck(r, drafts)
    ensures After(r, moves).n.drafts == drafts
  {
    forall r: Run, m: Move | Stuck(r, drafts) ensures Stuck(Stepping()(r, m), drafts) {
      StuckStep(r, m.0, m.1, drafts);
    }
    KeptForever(Stepping(), (r: Run) => Stuck(r, drafts), r, moves);
  }

  /** The same workflow under new instance ids. */
  function Renamed(w: Workflow, f: nat -> nat): Workflow {
    w.(nodes := RenamedNodes(w.nodes, f), edges := RenamedEdges(w.edges, f))
  }

  function RenamedNodes(nodes: seq<Node>, f: nat -> nat): seq<Node>
    decreases |nodes|
  {
    if nodes == [] then []
    else
      var n := nodes[|nodes| - 1];
      RenamedNodes(nodes[..|nodes| - 1], f) + [n.(instance := f(n.instance))]
  }

  function RenamedEdges(edges: seq<(nat, nat)>, f: nat -> nat): seq<(nat, nat)>
    decreases |edges|
  {
    if edges == [] then []
    else
      var e := edges[|edges| - 1];
      RenamedEdges(edges[..|edges| - 1], f) + [(f(e.0), f(e.1))]
  }

  lemma {:induction false} RenamedNodeIds(nodes: seq<Node>, f: nat -> nat)
    ensures NodeIds(RenamedNodes(nodes, f)) == NodeIds(nodes)
    decreases |nodes|
  {
    if nodes != [] { RenamedNodeIds(nodes[..|nodes| - 1], f); }
  }

  lemma {:induction false} RenamedNodeIdOf(nodes: seq<Node>, f: nat -> nat, instance: nat)
    requires forall a, b :: f(a) == f(b) ==> a == b
    ensures NodeIdOf(RenamedNodes(nodes, f), f(instance)) == NodeIdOf(nodes, instance)
    decreases |nodes|
  {
    if nodes != [] { RenamedNodeIdOf(nodes[..|nodes| - 1], f, instance); }
  }

  lemma {:induction false} RenamedEdgeIds(nodes: seq<Node>, edges: seq<(nat, nat)>, f: nat -> nat)
    requires forall a, b :: f(a) == f(b) ==> a == b
    ensures EdgeIds(RenamedNodes(nodes, f), RenamedEdges(edges, f)) == EdgeIds(nodes, edges)
    decreases |edges|
  {
    if edges != [] {
      var n := |edges| - 1;
      RenamedEdgeIds(nodes, edges[..n], f);
      RenamedNodeIdOf(nodes, f, edges[n].0);
      RenamedNodeIdOf(nodes, f, edges[n].1);
    }
  }

  /** Fresh instance ids do not hide a repetition: the signature is that of the structure. */
  lemma SignatureIgnoresInstanceIds(w: Workflow, f: nat -> nat)
    requires forall a, b :: f(a) == f(b) ==> a == b
    ensures SignatureOf(Renamed(w, f)) == SignatureOf(w)
  {
    RenamedNodeIds(w.nodes, f);
    RenamedEdgeIds(w.nodes, w.edges, f);
  }
}
