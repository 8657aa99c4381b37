/** What the user gets to see of a whole turn of the supervisor (modules/ai_agent/adapters/supervisor.py), recipe by
    recipe and for all answers, with the real recovery (domain/services/supervisor_router.py). */
module SupervisorRuns {
  import opened Basics
  import opened Supervisor

  // ---------------------------------------------------------------- one relay

  /** The replies of the responses, one after the other, up to and with the first response that does not continue. */
  function Heard(responses: seq<Response>): seq<Reply> {
    if responses == [] then []
    else responses[0].replies + if responses[0].continues then Heard(responses[1..]) else []
  }

  predicate Stops(responses: seq<Response>) {
    exists i :: 0 <= i < |responses| && !responses[i].continues
  }

  function AsFrames(replies: seq<Reply>): (frames: seq<Frame>)
    ensures |frames| == |replies|
  {
    seq(|replies|, i requires 0 <= i < |replies| => FrameOf(replies[i]))
  }

  lemma {:induction false} FramesBoth(a: seq<Response>, b: seq<Response>)
    ensures Frames(a + b) == Frames(a) + Frames(b)
    decreases |b|
  {
    if b == [] {
      assert a + b == a;
    } else {
      assert (a + b)[..|a + b| - 1] == a + b[..|b| - 1];
      FramesBoth(a, b[..|b| - 1]);
    }
  }

  lemma OneResponse(r: Response)
    ensures Frames([r]) == AsFrames(r.replies)
  {
    assert [r][..0] == [];
  }

  lemma {:induction false} TakenIsHeard(responses: seq<Response>)
    ensures Frames(Taken(responses)) == AsFrames(Heard(responses))
  {
    if responses != [] {
      OneResponse(responses[0]);
      if responses[0].continues {
        TakenIsHeard(responses[1..]);
        FramesBoth([responses[0]], Taken(responses[1..]));
      }
    }
  }

  /** The first fault among the replies, or their number. */
  ghost predicate FirstFault(replies: seq<Reply>, n: nat) {
    && n <= |replies| && (n < |replies| ==> replies[n].Fault?)
    && forall i :: 0 <= i < n ==> replies[i].Say?
  }

  predicate Breaks(a: Answer) {
    a.raises && !Stops(a.responses)
  }

  /** The frames of the relay: the replies, cut after 200 with an error, or followed by one when the connection fails
      before a response has ended the exchange. */
  lemma StreamExactly(a: Answer)
    ensures var heard := Heard(a.responses);
            Stream(a) == if |heard| > 200 then AsFrames(heard)[..200] + [Error(ERelayLimit)]
                         else if Breaks(a) then AsFrames(heard) + [Error(ERelay)]
                         else AsFrames(heard)
  {
    TakenIsHeard(a.responses);
    assert Stops(a.responses) <==> !forall i :: 0 <= i < |a.responses| ==> a.responses[i].continues;
  }

  /** The outcome, given the place of the first error. */
  lemma OutcomeAt(a: Answer, frames: seq<Frame>, n: nat)
    requires Stream(a) == frames && n <= |frames|
    requires (forall i :: 0 <= i < n ==> !frames[i].Error?) && (n < |frames| ==> frames[n].Error?)
    ensures var o := Relayed(a);
            if n == |frames| then o.shown == frames && o.failure.None? && !o.suppressed
            else if n == 0 && frames[0].code == ERelay then o == Outcome([], Some(ERelay), true, None)
            else o == Outcome(frames[..n + 1], Some(frames[n].code), false, None)
  {
    FirstErrorIs(frames, n);
  }

  /** What one relay comes to, with the first fault among the replies at place `n`. The replies up to the fault are
      shown, in order, and the fault too; but a connection failure before anything else is held back. More than 200
      replies without a fault are cut there with an error, and a connection that breaks off ends in one. */
  function Expected(a: Answer, n: nat): Outcome
    requires n <= |Heard(a.responses)| && (n < |Heard(a.responses)| ==> Heard(a.responses)[n].Fault?)
  {
    var heard := Heard(a.responses);
    if n < |heard| && n < 200 then
      if n == 0 && heard[0].code == ERelay then Outcome([], Some(ERelay), true, None)
      else Outcome(AsFrames(heard)[..n + 1], Some(heard[n].code), false, None)
    else if |heard| > 200 then Outcome(AsFrames(heard)[..200] + [Error(ERelayLimit)], Some(ERelayLimit), false, None)
    else if Breaks(a) && heard == [] then Outcome([], Some(ERelay), true, None)
    else if Breaks(a) then Outcome(AsFrames(heard) + [Error(ERelay)], Some(ERelay), false, None)
    else Outcome(AsFrames(heard), None, false, Relayed(a).skill)
  }

  lemma FaultIsFound(a: Answer, n: nat)
    requires FirstFault(Heard(a.responses), n) && n < |Heard(a.responses)| && n < 200
    ensures Relayed(a) == Expected(a, n)
  {
    var heard := AsFrames(Heard(a.responses));
    StreamExactly(a);
    var frames := Stream(a);
    assert n < |frames| && forall i :: 0 <= i <= n ==> frames[i] == heard[i];
    OutcomeAt(a, frames, n);
    assert frames[..n + 1] == heard[..n + 1];
  }

  lemma CutIsFound(a: Answer, n: nat)
    requires FirstFault(Heard(a.responses), n) && n >= 200 && |Heard(a.responses)| > 200
    ensures Relayed(a) == Expected(a, n)
  {
    StreamExactly(a);
    var frames := Stream(a);
    OutcomeAt(a, frames, 200);
    assert frames[..201] == frames;
  }

  lemma EndIsFound(a: Answer)
    requires FirstFault(Heard(a.responses), |Heard(a.responses)|) && |Heard(a.responses)| <= 200
    ensures Relayed(a) == Expected(a, |Heard(a.responses)|)
  {
    StreamExactly(a);
    var frames, n := Stream(a), |Heard(a.responses)|;
    OutcomeAt(a, frames, n);
    assert n < |frames| ==> frames[..n + 1] == frames;
  }

  /** Exactly that, for every answer; so a relay succeeds if and only if no more than 200 replies are heard, none of
      them is a fault, and the connection does not break off. */
  lemma RelayExactly(a: Answer, n: nat)
    requires FirstFault(Heard(a.responses), n)
    ensures Relayed(a) == Expected(a, n)
    ensures Relayed(a).failure.None? <==> n == |Heard(a.responses)| <= 200 && !Breaks(a)
  {
    if n < |Heard(a.responses)| && n < 200 {
      FaultIsFound(a, n);
    } else if |Heard(a.responses)| > 200 {
      CutIsFound(a, n);
    } else {
      EndIsFound(a);
    }
  }

  /** The exchange gets to response `i`. */
  predicate GetsTo(responses: seq<Response>, i: nat) {
    i < |responses| && forall j :: 0 <= j < i ==> responses[j].continues
  }

  lemma {:induction false} TakenExactly(responses: seq<Response>)
    ensures |Taken(responses)| <= |responses| && Taken(responses) == responses[..|Taken(responses)|]
    ensures forall i :: 0 <= i < |responses| ==> (GetsTo(responses, i) <==> i < |Taken(responses)|)
  {
    if responses != [] && responses[0].continues {
      TakenExactly(responses[1..]);
      var t := |Taken(responses[1..])|;
      assert responses[..t + 1] == [responses[0]] + responses[1..][..t];
      forall i | 1 <= i < |responses|
        ensures GetsTo(responses, i) <==> GetsTo(responses[1..], i - 1)
      {
        assert forall j :: 1 <= j < |responses| ==> responses[j] == responses[1..][j - 1];
        if GetsTo(responses[1..], i - 1) {
          forall j | 0 <= j < i ensures responses[j].continues { if j > 0 { assert responses[1..][j - 1].continues; } }
        }
      }
    }
  }

  /** The skill that a successful relay hands on is the last one reported by the responses the exchange gets to. */
  lemma SkillExactly(a: Answer)
    requires Relayed(a).failure.None?
    ensures Relayed(a).skill.None? ==>
              forall i :: 0 <= i < |a.responses| && GetsTo(a.responses, i) ==> a.responses[i].skill.None?
    ensures Relayed(a).skill.Some? ==>
              exists i :: 0 <= i < |a.responses| && GetsTo(a.responses, i) && a.responses[i].skill == Relayed(a).skill
                          && forall j :: i < j < |a.responses| && GetsTo(a.responses, j) ==> a.responses[j].skill.None?
  {
    TakenExactly(a.responses);
    assert Relayed(a).skill == ReportedSkill(Taken(a.responses));
    var i := LastReport(Taken(a.responses));
  }

  lemma {:induction false} LastReport(taken: seq<Response>) returns (i: nat)
    ensures if ReportedSkill(taken).None? then forall j :: 0 <= j < |taken| ==> taken[j].skill.None?
            else i < |taken| && taken[i].skill == ReportedSkill(taken) && forall j :: i < j < |taken| ==> taken[j].skill.None?
    decreases |taken|
  {
    i := 0;
    if taken != [] {
      if taken[|taken| - 1].skill.Some? {
        i := |taken| - 1;
      } else {
        i := LastReport(taken[..|taken| - 1]);
      }
    }
  }

  // ---------------------------------------------------------------- one step of the plan

  /** The outcomes of the relays of a turn, by number. */
  type Relayings = nat -> Outcome

  function Outcomes(answers: nat -> Answer): Relayings {
    (k: nat) => Relayed(answers(k))
  }

  /** The relay that counts for a step that begins with number `k`: the second if the first fails unseen. */
  function Counted(relays: Relayings, k: nat): nat {
    if relays(k).suppressed then k + 1 else k
  }

  /** What is seen of it: a failure that was held back is shown when there is no further try. */
  function Seen(o: Outcome): seq<Frame> {
    if o.suppressed then [Error(ERelay)] else o.shown
  }

  /** The sub-agent itself reports a failure. */
  predicate OwnFailure(o: Outcome) {
    o.failure.Some? && !o.suppressed && o.failure.value != ERelay && o.failure.value != ERelayLimit
  }

  /** How a step announces itself: in full, or by its frame alone when a user's choice is resumed. */
  function Announcement(target: Target, resume: bool): seq<Frame> {
    if resume then [Opened(target)] else [Opened(target), Announced(target)]
  }

  /** About to take a step that is relayed. */
  predicate AtStep(s: Loop) {
    !s.over && s.retryCount == 0 && Relays(s.plan)
  }

  /** The step again, after a first relay that showed nothing. */
  predicate Again(s: Loop, r: Loop) {
    && r.plan == s.plan && r.reviewed == s.reviewed && r.selected == s.selected && !r.over && !r.resume
    && r.retryCount == 1 && r.frames == s.frames + Announcement(Route(s.plan), s.resume)
  }

  /** What a step comes to, given the relay that counts. */
  ghost predicate StepTaken(s: Loop, o: Outcome, t: Loop) {
    && t.frames == s.frames + Announcement(Route(s.plan), s.resume) + Seen(o)
    && (t.over <==> o.failure.Some? && !(OwnFailure(o) && Route(s.plan) == Composer && !s.reviewed))
    && (o.failure.None? ==>
          && t.plan == s.plan.(cursor := s.plan.cursor + 1) && t.reviewed == s.reviewed
          && t.selected == if o.skill.Some? then o.skill else s.selected)
    && (!t.over && o.failure.Some? ==>
          && t.plan == Inserted(s.plan.(cursor := s.plan.cursor + 1), Composer)
          && t.reviewed && t.selected == s.selected)
    && (!t.over ==> t.retryCount == 0 && !t.resume)
  }

  lemma FirstTry(s: Loop, a: Answer)
    requires AtStep(s) && !Relayed(a).suppressed
    ensures StepTaken(s, Relayed(a), Hop(s, a, RecoveryTarget))
  {
    RelayIsBounded(a);
    var opening, shown := Announcement(Route(s.plan), s.resume), Relayed(a).shown;
    assert s.frames + (opening + shown) == s.frames + opening + shown;
  }

  lemma UnseenTry(s: Loop, a: Answer)
    requires AtStep(s) && Relayed(a).suppressed
    ensures Again(s, Hop(s, a, RecoveryTarget))
  {
    RelayIsBounded(a);
    var opening := Announcement(Route(s.plan), s.resume);
    assert opening + [] == opening;
  }

  lemma UnseenAgain(s: Loop, r: Loop, a: Answer)
    requires AtStep(s) && Again(s, r) && Relayed(a).suppressed
    ensures StepTaken(s, Relayed(a), Hop(r, a, RecoveryTarget))
  {
    RelayIsBounded(a);
    assert r.frames + [] == r.frames;
  }

  lemma SeenAgain(s: Loop, r: Loop, a: Answer)
    requires AtStep(s) && Again(s, r) && !Relayed(a).suppressed
    ensures StepTaken(s, Relayed(a), Hop(r, a, RecoveryTarget))
  {
    RelayIsBounded(a);
    assert [] + Relayed(a).shown == Relayed(a).shown;
  }

  /** The loop, as far as relayed steps are concerned. */
  ghost predicate Tries(next: Hopper, relays: Relayings) {
    && (forall s: Loop, k: nat :: AtStep(s) && relays(k).suppressed ==> Again(s, next(s, k)))
    && (forall s: Loop, k: nat :: AtStep(s) && !relays(k).suppressed ==> StepTaken(s, relays(k), next(s, k)))
    && (forall s: Loop, r: Loop, k: nat :: AtStep(s) && Again(s, r) ==> StepTaken(s, relays(k), next(r, k)))
    && (forall s: Loop, k: nat :: Idle(s) ==> next(s, k) == s)
  }

  lemma LoopTries(answers: nat -> Answer)
    ensures Tries(Hopping(answers, RecoveryTarget), Outcomes(answers))
  {
    var next, relays := Hopping(answers, RecoveryTarget), Outcomes(answers);
    forall s: Loop, k: nat | AtStep(s) && relays(k).suppressed ensures Again(s, next(s, k)) { UnseenTry(s, answers(k)); }
    forall s: Loop, k: nat | AtStep(s) && !relays(k).suppressed ensures StepTaken(s, relays(k), next(s, k)) {
      FirstTry(s, answers(k));
    }
    forall s: Loop, r: Loop, k: nat | AtStep(s) && Again(s, r) ensures StepTaken(s, relays(k), next(r, k)) {
      if relays(k).suppressed { UnseenAgain(s, r, answers(k)); } else { SeenAgain(s, r, answers(k)); }
    }
    forall s: Loop, k: nat | Idle(s) ensures next(s, k) == s { assert Hop(s, answers(k), RecoveryTarget) == s; }
  }

  /** A step is relayed once, or a second time if the first relay failed before anything was seen. */
  lemma StepExactly(next: Hopper, relays: Relayings, start: Loop, k: nat, s: Loop)
    requires Tries(next, relays) && s == Iterate(next, start, First(k)) && AtStep(s)
    ensures StepTaken(s, relays(Counted(relays, k)), Iterate(next, start, First(Counted(relays, k) + 1)))
  {
    OneMore(next, start, k);
    if relays(k).suppressed { OneMore(next, start, k + 1); }
  }

  // ---------------------------------------------------------------- recipes that are relayed

  /** What the composer's turn, beginning with relay `k`, adds to the frames: its announcement, what the relay that
      counts shows, and, should the composer itself report a failure, all that once more. */
  function ComposerShows(relays: Relayings, k: nat, resume: bool): seq<Frame> {
    var j := Counted(relays, k);
    Announcement(Composer, resume) + Seen(relays(j))
    + if OwnFailure(relays(j)) then Announcement(Composer, false) + Seen(relays(Counted(relays, j + 1))) else []
  }

  predicate ComposerSucceeds(relays: Relayings, k: nat) {
    var j := Counted(relays, k);
    relays(j).failure.None? || (OwnFailure(relays(j)) && relays(Counted(relays, j + 1)).failure.None?)
  }

  /** The composer is the last step of the plan, and has not been inserted. */
  predicate AtComposer(s: Loop) {
    !s.over && s.retryCount == 0 && !s.reviewed && s.plan.cursor + 1 == |s.plan.steps| && Route(s.plan) == Composer
  }

  /** At the inserted step. */
  predicate AtReview(s: Loop, t: Loop) {
    AtStep(t) && Route(t.plan) == Composer && t.reviewed && !t.resume
    && t.plan == Inserted(s.plan.(cursor := s.plan.cursor + 1), Composer)
  }

  lemma BeforeReview(s: Loop, o: Outcome, t: Loop)
    requires AtComposer(s) && StepTaken(s, o, t) && OwnFailure(o)
    ensures AtReview(s, t) && t.frames == s.frames + Announcement(Composer, s.resume) + Seen(o)
  {}

  /** After it there is no other. */
  lemma AfterReview(s: Loop, t: Loop, o: Outcome, u: Loop)
    requires AtComposer(s) && AtReview(s, t) && StepTaken(t, o, u)
    ensures Idle(u) && (u.over <==> o.failure.Some?) && u.frames == t.frames + Announcement(Composer, false) + Seen(o)
  {}

  lemma IdleStays(next: Hopper, relays: Relayings, start: Loop, k: nat)
    requires Tries(next, relays) && k <= MAX_HOPS && Idle(Iterate(next, start, First(k)))
    ensures Iterate(next, start, First(MAX_HOPS)) == Iterate(next, start, First(k))
  {
    StaysPut(next, start, k, MAX_HOPS);
  }

  lemma ComposerOnce(next: Hopper, relays: Relayings, start: Loop, k: nat, s: Loop)
    requires Tries(next, relays) && s == Iterate(next, start, First(k)) && AtComposer(s) && k <= 4
    requires !OwnFailure(relays(Counted(relays, k)))
    ensures var t := Iterate(next, start, First(MAX_HOPS));
            && Idle(t) && t.frames == s.frames + ComposerShows(relays, k, s.resume)
            && (t.over <==> !ComposerSucceeds(relays, k))
  {
    StepExactly(next, relays, start, k, s);
    IdleStays(next, relays, start, Counted(relays, k) + 1);
    var shown := Announcement(Composer, s.resume) + Seen(relays(Counted(relays, k)));
    assert s.frames + Announcement(Composer, s.resume) + Seen(relays(Counted(relays, k))) == s.frames + (shown + []);
  }

  lemma ComposerTwice(next: Hopper, relays: Relayings, start: Loop, k: nat, s: Loop)
    requires Tries(next, relays) && s == Iterate(next, start, First(k)) && AtComposer(s) && k <= 4
    requires OwnFailure(relays(Counted(relays, k)))
    ensures var t := Iterate(next, start, First(MAX_HOPS));
            && Idle(t) && t.frames == s.frames + ComposerShows(relays, k, s.resume)
            && (t.over <==> !ComposerSucceeds(relays, k))
  {
    var j := Counted(relays, k);
    StepExactly(next, relays, start, k, s);
    BeforeReview(s, relays(j), Iterate(next, start, First(j + 1)));
    ReviewTurn(next, relays, start, j + 1, s, Iterate(next, start, First(j + 1)));
    FourParts(s.frames, Announcement(Composer, s.resume), Seen(relays(j)), Announcement(Composer, false),
              Seen(relays(Counted(relays, j + 1))));
  }

  lemma ReviewTurn(next: Hopper, relays: Relayings, start: Loop, k: nat, s: Loop, t: Loop)
    requires Tries(next, relays) && t == Iterate(next, start, First(k)) && k <= 6
    requires AtComposer(s) && AtReview(s, t)
    ensures var u, o := Iterate(next, start, First(MAX_HOPS)), relays(Counted(relays, k));
            Idle(u) && (u.over <==> o.failure.Some?) && u.frames == t.frames + Announcement(Composer, false) + Seen(o)
  {
    var m := Counted(relays, k);
    StepExactly(next, relays, start, k, t);
    AfterReview(s, t, relays(m), Iterate(next, start, First(m + 1)));
    IdleStays(next, relays, start, m + 1);
  }

  lemma FourParts(a: seq<Frame>, b: seq<Frame>, c: seq<Frame>, d: seq<Frame>, e: seq<Frame>)
    ensures a + b + c + d + e == a + (b + c + (d + e))
  {}

  lemma ComposerTurn(next: Hopper, relays: Relayings, start: Loop, k: nat, s: Loop)
    requires Tries(next, relays) && s == Iterate(next, start, First(k)) && AtComposer(s) && k <= 4
    ensures var t := Iterate(next, start, First(MAX_HOPS));
            && Idle(t) && t.frames == s.frames + ComposerShows(relays, k, s.resume)
            && (t.over <==> !ComposerSucceeds(relays, k))
  {
    if OwnFailure(relays(Counted(relays, k))) {
      ComposerTwice(next, relays, start, k, s);
    } else {
      ComposerOnce(next, relays, start, k, s);
    }
  }

  /** A request for a workflow: everything that is shown, and whether the turn gives up. */
  lemma DraftTurn(recipe: Recipe, chosen: Option<nat>, resuming: bool, answers: nat -> Answer)
    requires recipe.Draft? || recipe.ResumeDraft?
    ensures var s := Hops(Begin(Steps(recipe), resuming, chosen), answers, RecoveryTarget, MAX_HOPS);
            && s.frames == ComposerShows(Outcomes(answers), 0, resuming)
            && (s.over <==> !ComposerSucceeds(Outcomes(answers), 0))
  {
    var start := Begin(Steps(recipe), resuming, chosen);
    LoopTries(answers);
    OneMore(Hopping(answers, RecoveryTarget), start, 0);
    ComposerTurn(Hopping(answers, RecoveryTarget), Outcomes(answers), start, 0, start);
    assert [] + ComposerShows(Outcomes(answers), 0, resuming) == ComposerShows(Outcomes(answers), 0, resuming);
  }

  lemma SkillTurn(next: Hopper, relays: Relayings, start: Loop)
    requires Tries(next, relays) && start == Begin([Skills, Composer], false, start.selected)
    ensures var s, j := Iterate(next, start, First(MAX_HOPS)), Counted(relays, 0);
            var skill := Announcement(Skills, false) + Seen(relays(j));
            if relays(j).failure.None? then
              && s.frames == skill + ComposerShows(relays, j + 1, false)
              && (s.over <==> !ComposerSucceeds(relays, j + 1))
              && (relays(j).skill.Some? ==> Iterate(next, start, First(j + 1)).selected == relays(j).skill)
            else s.over && s.frames == skill
  {
    OneMore(next, start, 0);
    assert start.plan.steps[start.plan.cursor..] == [Skills, Composer] && Composer in [Skills, Composer];
    StepExactly(next, relays, start, 0, start);
    var j := Counted(relays, 0);
    var t := Iterate(next, start, First(j + 1));
    assert [] + Announcement(Skills, false) == Announcement(Skills, false);
    if relays(j).failure.None? {
      ComposerTurn(next, relays, start, j + 1, t);
    } else {
      IdleStays(next, relays, start, j + 1);
    }
  }

  /** A request for a skill and a workflow with it: the skill's relay is announced and shown; only if it succeeds does
      the composer follow, and then with the skill that the relay reported. Otherwise the turn ends there. */
  lemma SkillThenComposeTurn(chosen: Option<nat>, answers: nat -> Answer)
    ensures var start, relays := Begin(Steps(SkillThenCompose), false, chosen), Outcomes(answers);
            var s, j := Hops(start, answers, RecoveryTarget, MAX_HOPS), Counted(relays, 0);
            var skill := Announcement(Skills, false) + Seen(relays(j));
            if relays(j).failure.None? then
              && s.frames == skill + ComposerShows(relays, j + 1, false)
              && (s.over <==> !ComposerSucceeds(relays, j + 1))
              && (relays(j).skill.Some? ==> Hops(start, answers, RecoveryTarget, j + 1).selected == relays(j).skill)
            else s.over && s.frames == skill
  {
    LoopTries(answers);
    SkillTurn(Hopping(answers, RecoveryTarget), Outcomes(answers), Begin(Steps(SkillThenCompose), false, chosen));
  }

  // ---------------------------------------------------------------- recipes that are not

  /** A turn of one step without a relay. */
  lemma LocalTurn(start: Loop, answers: nat -> Answer, recovery: Recovery)
    requires start == Begin(start.plan.steps, start.resume, start.selected) && |start.plan.steps| == 1
    requires Route(start.plan) != Done && !Relays(start.plan)
    ensures var s := Hops(start, answers, recovery, MAX_HOPS);
            s.frames == Unrelayed(start, answers(0)) && !s.over && s.plan.cursor == 1 && s.selected == start.selected
  {
    assert First(0) == [];
    OneMore(Hopping(answers, recovery), start, 0);
    assert [] + Unrelayed(start, answers(0)) == Unrelayed(start, answers(0));
    IdleStaysPut(start, answers, recovery, 1, MAX_HOPS);
  }

  /** A request to build a skill, and nothing else, is relayed to no one: whatever the sub-agents would answer, the
      step is announced and the wizard opened. */
  lemma BuildSkillTurn(chosen: Option<nat>, resuming: bool, answers: nat -> Answer, recovery: Recovery)
    ensures var s := Hops(Begin(Steps(BuildSkill), resuming, chosen), answers, recovery, MAX_HOPS);
            && s.frames == (if resuming then [Opened(Skills), Wizard] else [Opened(Skills), Announced(Skills), Wizard])
            && !s.over && s.selected == chosen
  {
    var start := Begin(Steps(BuildSkill), resuming, chosen);
    assert start.plan.steps[start.plan.cursor..] == [Skills] && Composer !in [Skills];
    LocalTurn(start, answers, recovery);
  }

  /** The other requests are answered locally, with the frame that opens the step except for small talk. */
  lemma AnsweredLocally(recipe: Recipe, chosen: Option<nat>, resuming: bool, answers: nat -> Answer, recovery: Recovery)
    requires recipe in {Unclassified, Chat, Propose}
    ensures var s := Hops(Begin(Steps(recipe), resuming, chosen), answers, recovery, MAX_HOPS);
            && s.frames == (if recipe == Unclassified then [] else [Opened(if recipe == Chat then FastResponse else Finalize)])
                           + LocalFrames(answers(0).local)
            && !s.over && s.selected == chosen
  {
    LocalTurn(Begin(Steps(recipe), resuming, chosen), answers, recovery);
    assert [] + LocalFrames(answers(0).local) == LocalFrames(answers(0).local);
  }
}
