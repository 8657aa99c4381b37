/** The supervisor's control loop (modules/ai_agent/adapters/supervisor.py, with
    domain/services/supervisor_router.py and domain/value_objects/route_plan.py): dispatch, relay, retry of
    suppressed connection failures, and one corrective step. */
module Supervisor {
  import opened Basics

  // ---------------------------------------------------------------- data

  datatype Target = GeneralChat | FastResponse | Finalize | Composer | Skills | Done
  datatype Code = ERelay | ERelayLimit | Own(name: nat)

  /** `Opened` is the agent-node frame of a step, `Announced` its chat message. */
  datatype Frame =
    | Opened(target: Target) | Announced(target: Target) | Wizard | Local(id: nat)
    | Content(id: nat) | Error(code: Code)

  datatype Reply = Say(id: nat) | Fault(code: Code)
  datatype Response = Response(replies: seq<Reply>, skill: Option<nat>, continues: bool)

  /** What the target of a hop does: a local node's frames, or a sub-agent's responses and whether the
      connection then fails. */
  datatype Answer = Answer(local: seq<nat>, responses: seq<Response>, raises: bool)

  const MAX_RELAY_FRAMES := 200
  const MAX_HOPS := 8
  const MAX_RETRIES := 1

  datatype Plan = Plan(steps: seq<Target>, cursor: nat)

  function Peek(p: Plan): Option<Target> {
    if p.cursor < |p.steps| then Some(p.steps[p.cursor]) else None
  }

  function Route(p: Plan): Target {
    if Peek(p).Some? then Peek(p).value else Done
  }

  function ComposerFollows(p: Plan): bool {
    p.cursor < |p.steps| && Composer in p.steps[p.cursor..]
  }

  datatype Handoff = RecoveryMode | ResultReview
  type Recovery = (Plan, Handoff, Code, nat) -> Option<Target>

  /** `recovery_target`. */
  function RecoveryTarget(p: Plan, handoff: Handoff, code: Code, retryCount: nat): Option<Target> {
    if code == ERelayLimit then None
    else match handoff
      case RecoveryMode => if retryCount >= MAX_RETRIES then None else Peek(p)
      case ResultReview => Some(Composer)
  }

  /** The plan as the loop mutates it. */
  class RoutePlan {
    var steps: seq<Target>
    var cursor: nat

    ghost function Contents(): Plan
      reads this
    {
      Plan(steps, cursor)
    }

    constructor (steps: seq<Target>)
      ensures Contents() == Plan(steps, 0)
    {
      this.steps, cursor := steps, 0;
    }

    method Advance()
      modifies this
      ensures Contents() == old(Contents()).(cursor := old(cursor) + 1)
    {
      cursor := cursor + 1;
    }

    /** `list.insert`: past the end it appends. */
    method Insert(target: Target)
      modifies this
      ensures Contents() == Inserted(old(Contents()), target)
    {
      var at := if cursor <= |steps| then cursor else |steps|;
      steps := steps[..at] + [target] + steps[at..];
    }
  }

  function Inserted(p: Plan, target: Target): Plan {
    var at := if p.cursor <= |p.steps| then p.cursor else |p.steps|;
    p.(steps := p.steps[..at] + [target] + p.steps[at..])
  }

  // ---------------------------------------------------------------- relaying

  /** The responses up to the first that does not continue. */
  function Taken(responses: seq<Response>): seq<Response> {
    if responses == [] then []
    else if !responses[0].continues then [responses[0]]
    else [responses[0]] + Taken(responses[1..])
  }

  function FrameOf(reply: Reply): Frame {
    match reply
    case Say(id) => Content(id)
    case Fault(code) => Error(code)
  }

  function Frames(responses: seq<Response>): seq<Frame>
    decreases |responses|
  {
    if responses == [] then []
    else
      var last := responses[|responses| - 1].replies;
      Frames(responses[..|responses| - 1]) + seq(|last|, i requires 0 <= i < |last| => FrameOf(last[i]))
  }

  /** The last skill that the responses report. */
  function ReportedSkill(responses: seq<Response>): Option<nat>
    decreases |responses|
  {
    if responses == [] then None
    else if responses[|responses| - 1].skill.Some? then responses[|responses| - 1].skill
    else ReportedSkill(responses[..|responses| - 1])
  }

  /** `_relay_stream`: at most so many frames, then an error instead of the next; a failing connection
      shows as an error after the frames. */
  function Stream(a: Answer): seq<Frame> {
    var taken := Taken(a.responses);
    var all := Frames(taken);
    if |all| > MAX_RELAY_FRAMES then all[..MAX_RELAY_FRAMES] + [Error(ERelayLimit)]
    else if a.raises && forall i :: 0 <= i < |a.responses| ==> a.responses[i].continues then all + [Error(ERelay)]
    else all
  }

  lemma {:induction false} TakenPrefix(responses: seq<Response>, k: nat)
    requires k < |responses| && forall i :: 0 <= i < k ==> responses[i].continues
    ensures !responses[k].continues ==> Taken(responses) == responses[..k + 1]
    ensures k == |responses| - 1 && responses[k].continues ==> Taken(responses) == responses
  {
    if k == 0 {
      assert responses[..1] == [responses[0]];
      if |responses| == 1 { assert responses[1..] == []; }
    } else {
      TakenPrefix(responses[1..], k - 1);
      assert [responses[0]] + responses[1..][..k] == responses[..k + 1];
      assert [responses[0]] + responses[1..] == responses;
    }
  }

  /** The generator that `_relay_stream` is, run to its end. */
  method RelayStream(a: Answer) returns (frames: seq<Frame>)
    ensures frames == Stream(a)
  {
    frames := [];
    var stopped := false;
    for k := 0 to |a.responses|
      invariant !stopped && frames == Frames(a.responses[..k]) && |frames| <= MAX_RELAY_FRAMES
      invariant forall i :: 0 <= i < k ==> a.responses[i].continues
    {
      var resp := a.responses[k];
      assert a.responses[..k + 1][..k] == a.responses[..k];
      var over := false;
      frames, over := RelayResponse(frames, resp.replies);
      if over {
        LongPrefix(a.responses, k);
        return frames + [Error(ERelayLimit)];
      }
      if !resp.continues {
        TakenPrefix(a.responses, k);
        return frames;
      }
    }
    assert a.responses[..|a.responses|] == a.responses;
    if a.responses != [] { TakenPrefix(a.responses, |a.responses| - 1); }
    if a.raises {
      frames := frames + [Error(ERelay)];
    }
  }

  /** One response's frames, up to the limit. */
  method RelayResponse(before: seq<Frame>, replies: seq<Reply>) returns (frames: seq<Frame>, over: bool)
    requires |before| <= MAX_RELAY_FRAMES
    ensures var all := before + seq(|replies|, i requires 0 <= i < |replies| => FrameOf(replies[i]));
            && over == (|all| > MAX_RELAY_FRAMES)
            && frames == if over then all[..MAX_RELAY_FRAMES] else all
  {
    ghost var all := before + seq(|replies|, i requires 0 <= i < |replies| => FrameOf(replies[i]));
    frames, over := before, false;
    for i := 0 to |replies|
      invariant !over && frames == all[..|before| + i] && |frames| <= MAX_RELAY_FRAMES
    {
      if |frames| + 1 > MAX_RELAY_FRAMES {
        over := true;
        return;
      }
      frames := frames + [FrameOf(replies[i])];
    }
    assert all[..|before| + |replies|] == all;
  }

  /** What is relayed after response `k` does not change what was relayed up to it. */
  lemma {:induction false} FramesGrow(responses: seq<Response>, k: nat)
    requires k <= |responses|
    ensures Frames(responses[..k]) <= Frames(responses)
    decreases |responses|
  {
    if k == |responses| {
      assert responses[..k] == responses;
    } else {
      var shorter := responses[..|responses| - 1];
      assert shorter[..k] == responses[..k];
      FramesGrow(shorter, k);
    }
  }

  lemma {:induction false} TakenContains(responses: seq<Response>, k: nat)
    requires k < |responses| && forall i :: 0 <= i < k ==> responses[i].continues
    ensures k < |Taken(responses)| && Taken(responses)[..k + 1] == responses[..k + 1]
  {
    if k > 0 {
      TakenContains(responses[1..], k - 1);
      assert [responses[0]] + Taken(responses[1..])[..k] == Taken(responses)[..k + 1];
      assert [responses[0]] + responses[1..][..k] == responses[..k + 1];
    }
  }

  lemma LongPrefix(responses: seq<Response>, k: nat)
    requires k < |responses| && forall i :: 0 <= i < k ==> responses[i].continues
    requires |Frames(responses[..k + 1])| > MAX_RELAY_FRAMES
    ensures |Frames(Taken(responses))| > MAX_RELAY_FRAMES
    ensures Frames(Taken(responses))[..MAX_RELAY_FRAMES] == Frames(responses[..k + 1])[..MAX_RELAY_FRAMES]
  {
    TakenContains(responses, k);
    FramesGrow(Taken(responses), k + 1);
  }

  /** The index of the first error, or the length. */
  function FirstError(frames: seq<Frame>): (n: nat)
    ensures n <= |frames| && (n < |frames| ==> frames[n].Error?)
    ensures forall i :: 0 <= i < n ==> !frames[i].Error?
  {
    if frames == [] || frames[0].Error? then 0 else 1 + FirstError(frames[1..])
  }

  datatype Outcome = Outcome(shown: seq<Frame>, failure: Option<Code>, suppressed: bool, skill: Option<nat>)

  /** `_relay_monitored`: up to the first error, which is kept back if nothing was shown before a connection
      failure. */
  function Relayed(a: Answer): Outcome {
    var frames := Stream(a);
    var n := FirstError(frames);
    if n == |frames| then Outcome(frames, None, false, ReportedSkill(Taken(a.responses)))
    else if frames[n].code == ERelay && n == 0 then Outcome([], Some(ERelay), true, None)
    else Outcome(frames[..n + 1], Some(frames[n].code), false, None)
  }

  /** The generator as a loop over what it receives. */
  method RelayMonitored(a: Answer) returns (o: Outcome)
    ensures o == Relayed(a)
  {
    var stream := RelayStream(a);
    var shown: seq<Frame> := [];
    var content := 0;
    for k := 0 to |stream|
      invariant content == k && shown == stream[..k] && forall i :: 0 <= i < k ==> !stream[i].Error?
    {
      var frame := stream[k];
      if frame.Error? {
        FirstErrorIs(stream, k);
        if frame.code == ERelay && content == 0 {
          return Outcome([], Some(ERelay), true, None);
        }
        return Outcome(shown + [frame], Some(frame.code), false, None);
      }
      content := content + 1;
      shown := shown + [frame];
    }
    FirstErrorIs(stream, |stream|);
    o := Outcome(shown, None, false, ReportedSkill(Taken(a.responses)));
  }

  lemma FirstErrorIs(frames: seq<Frame>, k: nat)
    requires k <= |frames| && (forall i :: 0 <= i < k ==> !frames[i].Error?) && (k < |frames| ==> frames[k].Error?)
    ensures FirstError(frames) == k
  {}

  /** A hop relays at most 201 frames, and an error only as the last; it holds an error back only when it
      shows nothing at all. */
  lemma RelayIsBounded(a: Answer)
    ensures var o := Relayed(a);
            && |o.shown| <= MAX_RELAY_FRAMES + 1
            && (forall i :: 0 <= i < |o.shown| - 1 ==> !o.shown[i].Error?)
            && (|o.shown| > 0 && o.shown[|o.shown| - 1].Error? <==> o.failure.Some? && !o.suppressed)
            && (o.suppressed ==> o.shown == [] && o.failure == Some(ERelay))
  {}

  // ---------------------------------------------------------------- the loop, hop by hop

  datatype Loop = Loop(
    plan: Plan, frames: seq<Frame>, retryCount: nat, reviewed: bool, relayed: bool, selected: Option<nat>,
    resume: bool, hops: nat, over: bool)

  function Begin(steps: seq<Target>, resume: bool, selected: Option<nat>): Loop {
    Loop(Plan(steps, 0), [], 0, false, false, selected, resume, 0, false)
  }

  /** What a step shows before its relay: nothing on a retry, no chat message on a resume. */
  function Opening(target: Target, retry: bool, resume: bool): seq<Frame> {
    if retry then [] else if resume then [Opened(target)] else [Opened(target), Announced(target)]
  }

  function LocalFrames(ids: seq<nat>): seq<Frame> {
    seq(|ids|, i requires 0 <= i < |ids| => Local(ids[i]))
  }

  /** A skill build on its own only opens the wizard. */
  predicate Relays(p: Plan) {
    Route(p) == Composer || (Route(p) == Skills && ComposerFollows(p))
  }

  /** What a hop without a relay shows. */
  function Unrelayed(s: Loop, a: Answer): seq<Frame> {
    match Route(s.plan)
    case GeneralChat => LocalFrames(a.local)
    case FastResponse => [Opened(FastResponse)] + LocalFrames(a.local)
    case Finalize => [Opened(Finalize)] + LocalFrames(a.local)
    case Skills =>
      (if s.retryCount > 0 then [] else [Opened(Skills)]) + (if s.resume then [] else [Announced(Skills)]) + [Wizard]
    case _ => []
  }

  /** `_dispatch`. */
  function Dispatched(s: Loop, a: Answer): Outcome {
    if Relays(s.plan) then
      var o := Relayed(a);
      o.(shown := Opening(Route(s.plan), s.retryCount > 0, s.resume) + o.shown)
    else Outcome(Unrelayed(s, a), None, false, None)
  }

  function Stop(s: Loop): Loop {
    s.(over := true)
  }

  /** What the loop does after a hop. */
  function Decide(s: Loop, target: Target, o: Outcome, recovery: Recovery): Loop {
    if o.failure.None? then
      s.(selected := if o.skill.Some? then o.skill else s.selected, retryCount := 0,
         plan := s.plan.(cursor := s.plan.cursor + 1))
    else if o.suppressed then
      if recovery(s.plan, RecoveryMode, o.failure.value, s.retryCount).None? then
        Stop(s.(frames := s.frames + [Error(o.failure.value)]))
      else s.(retryCount := s.retryCount + 1)
    else if o.failure.value in {ERelay, ERelayLimit} || target == Skills || s.reviewed then Stop(s)
    else
      match recovery(s.plan, ResultReview, o.failure.value, s.retryCount)
      case None => Stop(s)
      case Some(step) =>
        s.(plan := Inserted(s.plan.(cursor := s.plan.cursor + 1), step), reviewed := true, retryCount := 0)
  }

  function Shown(s: Loop, target: Target, o: Outcome): Loop {
    s.(frames := s.frames + o.shown, resume := false, hops := s.hops + 1,
       relayed := s.relayed || target == Composer || target == Skills)
  }

  /** One round of the loop; a loop that is over, or whose plan is done, stays as it is. */
  function Hop(s: Loop, a: Answer, recovery: Recovery): Loop {
    if s.over || Route(s.plan) == Done then s
    else
      var target, o := Route(s.plan), Dispatched(s, a);
      Decide(Shown(s, target, o), target, o, recovery)
  }

  type Hopper = (Loop, nat) -> Loop

  function Hopping(answers: nat -> Answer, recovery: Recovery): Hopper {
    (s: Loop, k: nat) => Hop(s, answers(k), recovery)
  }

  /** 0, 1, …, k - 1. */
  function First(k: nat): (s: seq<nat>)
    ensures |s| == k && forall i :: 0 <= i < k ==> s[i] == i
  {
    seq(k, i requires 0 <= i < k => i)
  }

  /** The first hops, each with its own answer. */
  function Hops(s: Loop, answers: nat -> Answer, recovery: Recovery, k: nat): Loop {
    Iterate(Hopping(answers, recovery), s, First(k))
  }

  lemma OneMore(next: Hopper, s: Loop, k: nat)
    ensures Iterate(next, s, First(0)) == s && Iterate(next, s, First(k + 1)) == next(Iterate(next, s, First(k)), k)
  {
    assert First(k + 1)[..k] == First(k);
  }

  lemma {:induction false} StaysPut(next: Hopper, s: Loop, k: nat, m: nat)
    requires k <= m && forall i :: next(Iterate(next, s, First(k)), i) == Iterate(next, s, First(k))
    ensures Iterate(next, s, First(m)) == Iterate(next, s, First(k))
    decreases m
  {
    if k < m {
      StaysPut(next, s, k, m - 1);
      OneMore(next, s, m - 1);
    }
  }

  predicate Idle(s: Loop) {
    s.over || Route(s.plan) == Done
  }

  lemma IdleStaysPut(s: Loop, answers: nat -> Answer, recovery: Recovery, k: nat, m: nat)
    requires k <= m && Idle(Hops(s, answers, recovery, k))
    ensures Hops(s, answers, recovery, m) == Hops(s, answers, recovery, k)
  {
    var t := Hops(s, answers, recovery, k);
    forall i: nat ensures Hopping(answers, recovery)(t, i) == t { assert Hop(t, answers(i), recovery) == t; }
    StaysPut(Hopping(answers, recovery), s, k, m);
  }

  /** The loop of `_run`. */
  method Control(steps: seq<Target>, resuming: bool, chosen: Option<nat>, answers: nat -> Answer, recovery: Recovery)
    returns (s: Loop)
    ensures s == Hops(Begin(steps, resuming, chosen), answers, recovery, MAX_HOPS)
  {
    ghost var start := Begin(steps, resuming, chosen);
    var plan := new RoutePlan(steps);
    s := Begin(steps, resuming, chosen);
    for k := 0 to MAX_HOPS
      invariant s == Hops(start, answers, recovery, k) && plan.Contents() == s.plan && !s.over
      invariant fresh(plan)
    {
      OneMore(Hopping(answers, recovery), start, k);
      if Route(Plan(plan.steps, plan.cursor)) == Done {
        IdleStaysPut(start, answers, recovery, k, MAX_HOPS);
        return;
      }
      s := OneHop(s, answers(k), recovery, plan);
      if s.over {
        IdleStaysPut(start, answers, recovery, k + 1, MAX_HOPS);
        return;
      }
    }
  }

  method OneHop(s: Loop, a: Answer, recovery: Recovery, plan: RoutePlan) returns (r: Loop)
    requires plan.Contents() == s.plan && !Idle(s)
    modifies plan
    ensures r == Hop(s, a, recovery)
    ensures !r.over ==> plan.Contents() == r.plan
  {
    var target, o := Route(s.plan), Dispatched(s, a);
    r := Settle(Shown(s, target, o), target, o, recovery, plan);
  }

  method Settle(s: Loop, target: Target, o: Outcome, recovery: Recovery, plan: RoutePlan) returns (r: Loop)
    requires plan.Contents() == s.plan && !s.over
    modifies plan
    ensures r == Decide(s, target, o, recovery)
    ensures !r.over ==> plan.Contents() == r.plan
  {
    if o.failure.None? {
      plan.Advance();
      return s.(selected := if o.skill.Some? then o.skill else s.selected, retryCount := 0,
                plan := Plan(plan.steps, plan.cursor));
    }
    var code := o.failure.value;
    if o.suppressed {
      if recovery(s.plan, RecoveryMode, code, s.retryCount).None? {
        return s.(frames := s.frames + [Error(code)], over := true);
      }
      return s.(retryCount := s.retryCount + 1);
    }
    if code == ERelay || code == ERelayLimit || target == Skills || s.reviewed {
      return s.(over := true);
    }
    var step := recovery(s.plan, ResultReview, code, s.retryCount);
    if step.None? {
      return s.(over := true);
    }
    plan.Advance();
    plan.Insert(step.value);
    r := s.(plan := Plan(plan.steps, plan.cursor), reviewed := true, retryCount := 0);
  }

  // ---------------------------------------------------------------- what the user sees

  function Errors(frames: seq<Frame>): nat
    decreases |frames|
  {
    if frames == [] then 0
    else Errors(frames[..|frames| - 1]) + if frames[|frames| - 1].Error? then 1 else 0
  }

  lemma {:induction false} ErrorsAdd(a: seq<Frame>, b: seq<Frame>)
    ensures Errors(a + b) == Errors(a) + Errors(b)
    decreases |b|
  {
    if b == [] {
      assert a + b == a;
    } else {
      assert (a + b)[..|a + b| - 1] == a + b[..|b| - 1];
      ErrorsAdd(a, b[..|b| - 1]);
    }
  }

  lemma {:induction false} NoErrors(frames: seq<Frame>)
    requires forall i :: 0 <= i < |frames| ==> !frames[i].Error?
    ensures Errors(frames) == 0
    decreases |frames|
  {
    if frames != [] { NoErrors(frames[..|frames| - 1]); }
  }

  lemma RelayedErrors(a: Answer)
    ensures var o := Relayed(a); Errors(o.shown) == if o.failure.Some? && !o.suppressed then 1 else 0
  {
    RelayIsBounded(a);
    var shown := Relayed(a).shown;
    if shown != [] { NoErrors(shown[..|shown| - 1]); }
  }

  lemma DispatchedErrors(s: Loop, a: Answer)
    ensures var o := Dispatched(s, a); Errors(o.shown) == if o.failure.Some? && !o.suppressed then 1 else 0
    ensures Dispatched(s, a).suppressed ==> Dispatched(s, a).failure == Some(ERelay)
  {
    if Relays(s.plan) {
      var opening := Opening(Route(s.plan), s.retryCount > 0, s.resume);
      RelayedErrors(a);
      RelayIsBounded(a);
      NoErrors(opening);
      ErrorsAdd(opening, Relayed(a).shown);
    } else {
      NoErrors(Unrelayed(s, a));
    }
  }

  /** Errors shown so far: none before the corrective step was inserted, one after; and one more when the
      loop gave up. */
  predicate ErrorsSoFar(s: Loop) {
    var e := Errors(s.frames);
    && (!s.over ==> e == if s.reviewed then 1 else 0)
    && (s.over ==> 1 <= e <= if s.reviewed then 2 else 1)
  }

  /** What a hop does to the frames, whether it goes on, and whether the corrective step is in. */
  lemma DecideShows(s: Loop, target: Target, o: Outcome, recovery: Recovery)
    requires !s.over
    ensures var r := Decide(s, target, o, recovery);
            if o.failure.None? then r.frames == s.frames && !r.over && r.reviewed == s.reviewed
            else if o.suppressed then
              && r.reviewed == s.reviewed
              && r.frames == if r.over then s.frames + [Error(o.failure.value)] else s.frames
            else
              r.frames == s.frames && if r.over then r.reviewed == s.reviewed else r.reviewed && !s.reviewed
  {}

  lemma DecideErrors(s: Loop, target: Target, o: Outcome, recovery: Recovery, shown: Loop)
    requires !s.over && ErrorsSoFar(s) && shown.frames == s.frames + o.shown && !shown.over && shown.reviewed == s.reviewed
    requires Errors(o.shown) == if o.failure.Some? && !o.suppressed then 1 else 0
    ensures ErrorsSoFar(Decide(shown, target, o, recovery))
  {
    DecideShows(shown, target, o, recovery);
    ErrorsAdd(s.frames, o.shown);
    if o.failure.Some? { LastError(shown.frames, o.failure.value); }
  }

  lemma HopErrors(s: Loop, a: Answer, recovery: Recovery)
    requires ErrorsSoFar(s)
    ensures ErrorsSoFar(Hop(s, a, recovery))
  {
    if !Idle(s) {
      var target, o := Route(s.plan), Dispatched(s, a);
      DispatchedErrors(s, a);
      DecideErrors(s, target, o, recovery, Shown(s, target, o));
    }
  }

  lemma LastError(frames: seq<Frame>, code: Code)
    ensures Errors(frames + [Error(code)]) == Errors(frames) + 1
  {
    assert (frames + [Error(code)])[..|frames|] == frames;
  }

  /** For all answers and any recovery: at most two errors of the relay are shown, one if the loop ends
      without giving up, and none unless it gave up or inserted the corrective step. */
  lemma AtMostTwoErrors(steps: seq<Target>, resuming: bool, chosen: Option<nat>, answers: nat -> Answer,
                        recovery: Recovery, k: nat)
    ensures var s := Hops(Begin(steps, resuming, chosen), answers, recovery, k);
            && Errors(s.frames) <= 2
            && (!s.over ==> Errors(s.frames) == if s.reviewed then 1 else 0)
            && (s.over ==> Errors(s.frames) >= 1)
  {
    var next := Hopping(answers, recovery);
    forall s: Loop, i: nat | ErrorsSoFar(s) ensures ErrorsSoFar(next(s, i)) { HopErrors(s, answers(i), recovery); }
    KeptForever(next, (s: Loop) => ErrorsSoFar(s), Begin(steps, resuming, chosen), First(k));
  }

  predicate InsertedOnce(s: Loop, steps: seq<Target>, inserted: Target -> bool) {
    if !s.reviewed then s.plan.steps == steps
    else
      exists at :: 0 <= at < |s.plan.steps| && inserted(s.plan.steps[at])
                   && s.plan.steps[..at] + s.plan.steps[at + 1..] == steps
  }

  /** Where this recovery may send a partial result. */
  ghost predicate ReviewsOnly(recovery: Recovery, inserted: Target -> bool) {
    forall p, code, n :: recovery(p, ResultReview, code, n).Some? ==> inserted(recovery(p, ResultReview, code, n).value)
  }

  lemma InsertedAt(p: Plan, t: Target) returns (at: nat)
    ensures var more := Inserted(p, t).steps;
            at < |more| && more[at] == t && more[..at] + more[at + 1..] == p.steps
  {
    at := if p.cursor <= |p.steps| then p.cursor else |p.steps|;
    var more := Inserted(p, t).steps;
    assert more[..at] + more[at + 1..] == p.steps;
  }

  /** A hop leaves the steps alone, or is the one review. */
  lemma HopSteps(s: Loop, a: Answer, recovery: Recovery, inserted: Target -> bool)
    requires ReviewsOnly(recovery, inserted)
    ensures var r := Hop(s, a, recovery);
            || (r.plan.steps == s.plan.steps && r.reviewed == s.reviewed)
            || (!s.reviewed && r.reviewed
                && exists p: Plan, t :: p.steps == s.plan.steps && inserted(t) && r.plan == Inserted(p, t))
  {
    var r, o := Hop(s, a, recovery), Dispatched(s, a);
    if r.reviewed && !s.reviewed {
      var t := recovery(s.plan, ResultReview, o.failure.value, s.retryCount).value;
      assert r.plan == Inserted(s.plan.(cursor := s.plan.cursor + 1), t) && inserted(t);
    }
  }

  lemma HopInserts(s: Loop, a: Answer, recovery: Recovery, steps: seq<Target>, inserted: Target -> bool)
    requires InsertedOnce(s, steps, inserted) && ReviewsOnly(recovery, inserted)
    ensures InsertedOnce(Hop(s, a, recovery), steps, inserted)
  {
    HopSteps(s, a, recovery, inserted);
    var r := Hop(s, a, recovery);
    if r.reviewed && !s.reviewed {
      var p: Plan, t :| p.steps == s.plan.steps && inserted(t) && r.plan == Inserted(p, t);
      var at := InsertedAt(p, t);
    }
  }

  /** Whatever happens, the plan is the recipe with at most one step inserted, and that one is where the recovery
      sends partial results. */
  lemma AtMostOneInsertion(steps: seq<Target>, resuming: bool, chosen: Option<nat>, answers: nat -> Answer,
                           recovery: Recovery, inserted: Target -> bool, k: nat)
    requires ReviewsOnly(recovery, inserted)
    ensures InsertedOnce(Hops(Begin(steps, resuming, chosen), answers, recovery, k), steps, inserted)
  {
    var next := Hopping(answers, recovery);
    forall s: Loop, i: nat | InsertedOnce(s, steps, inserted) ensures InsertedOnce(next(s, i), steps, inserted) {
      HopInserts(s, answers(i), recovery, steps, inserted);
    }
    KeptForever(next, (s: Loop) => InsertedOnce(s, steps, inserted), Begin(steps, resuming, chosen), First(k));
  }

  /** With the real recovery that step is the composer. */
  lemma OnlyTheComposerIsInserted(steps: seq<Target>, resuming: bool, chosen: Option<nat>, answers: nat -> Answer, k: nat)
    ensures InsertedOnce(Hops(Begin(steps, resuming, chosen), answers, RecoveryTarget, k), steps, t => t == Composer)
  {
    AtMostOneInsertion(steps, resuming, chosen, answers, RecoveryTarget, t => t == Composer, k);
  }

  // ---------------------------------------------------------------- retries leave no trace

  /** A relay that is being retried after failures that showed nothing. */
  predicate Retrying(s: Loop, start: Loop, k: nat) {
    && s.plan == start.plan && s.reviewed == start.reviewed && !s.over
    && s.retryCount == k && s.selected == start.selected
    && (k == 0 ==> s == start)
    && (k > 0 ==> s.frames == start.frames + Opening(Route(start.plan), false, start.resume) && !s.resume)
  }

  lemma {:induction false} StillRetrying(next: Hopper, start: Loop, k: nat)
    requires Retrying(start, start, 0)
    requires forall s: Loop, i: nat :: i < k && Retrying(s, start, i) ==> Retrying(next(s, i), start, i + 1)
    ensures Retrying(Iterate(next, start, First(k)), start, k)
  {
    if k > 0 {
      StillRetrying(next, start, k - 1);
      OneMore(next, start, k - 1);
    }
  }

  lemma SuppressedFailuresShowNothing(start: Loop, answers: nat -> Answer, recovery: Recovery, k: nat)
    requires Relays(start.plan) && !start.over && start.retryCount == 0
    requires forall i :: 0 <= i < k ==> Relayed(answers(i)).suppressed
    requires forall i :: 0 <= i < k ==> recovery(start.plan, RecoveryMode, ERelay, i).Some?
    ensures Retrying(Hops(start, answers, recovery, k), start, k)
  {
    var next := Hopping(answers, recovery);
    forall s: Loop, i: nat | i < k && Retrying(s, start, i) ensures Retrying(next(s, i), start, i + 1) {
      RelayIsBounded(answers(i));
      RetryHop(s, start, answers(i), recovery, i);
    }
    StillRetrying(next, start, k);
  }

  lemma RetryHop(s: Loop, start: Loop, a: Answer, recovery: Recovery, k: nat)
    requires Retrying(s, start, k) && Relays(start.plan) && !start.over && Relayed(a).suppressed && Relayed(a).shown == []
    requires Relayed(a).failure == Some(ERelay) && recovery(start.plan, RecoveryMode, ERelay, k).Some?
    ensures Retrying(Hop(s, a, recovery), start, k + 1)
  {
    var opening := Opening(Route(s.plan), k > 0, s.resume);
    assert opening + [] == opening;
    assert s.frames + [] == s.frames;
  }

  /** A step that succeeds after any number of suppressed connection failures announces itself once, shows
      exactly what the successful relay showed, no error, and the plan goes on. */
  lemma SuccessAfterRetriesIsClean(start: Loop, answers: nat -> Answer, recovery: Recovery, k: nat)
    requires Relays(start.plan) && !start.over && start.retryCount == 0
    requires forall i :: 0 <= i < k ==> Relayed(answers(i)).suppressed
    requires forall i :: 0 <= i < k ==> recovery(start.plan, RecoveryMode, ERelay, i).Some?
    requires Relayed(answers(k)).failure.None?
    ensures var s, good := Hops(start, answers, recovery, k + 1), Relayed(answers(k));
            && s.frames == start.frames + Opening(Route(start.plan), false, start.resume) + good.shown
            && Errors(good.shown) == 0
            && s.plan == start.plan.(cursor := start.plan.cursor + 1) && s.retryCount == 0 && !s.over
            && s.selected == if good.skill.Some? then good.skill else start.selected
  {
    SuppressedFailuresShowNothing(start, answers, recovery, k);
    RelayedErrors(answers(k));
    OneMore(Hopping(answers, recovery), start, k);
    SuccessHop(Hops(start, answers, recovery, k), start, answers(k), recovery, k);
  }

  /** A hop whose relay succeeds. */
  lemma GoodHop(s: Loop, a: Answer, recovery: Recovery)
    requires Relays(s.plan) && !s.over && Relayed(a).failure.None?
    ensures var r, good := Hop(s, a, recovery), Relayed(a);
            && r.frames == s.frames + (Opening(Route(s.plan), s.retryCount > 0, s.resume) + good.shown)
            && r.plan == s.plan.(cursor := s.plan.cursor + 1) && r.retryCount == 0 && !r.over
            && r.selected == if good.skill.Some? then good.skill else s.selected
  {}

  lemma SuccessHop(s: Loop, start: Loop, a: Answer, recovery: Recovery, k: nat)
    requires Retrying(s, start, k) && Relays(start.plan) && !start.over && Relayed(a).failure.None?
    ensures var r, good := Hop(s, a, recovery), Relayed(a);
            && r.frames == start.frames + Opening(Route(start.plan), false, start.resume) + good.shown
            && r.plan == start.plan.(cursor := start.plan.cursor + 1) && r.retryCount == 0 && !r.over
            && r.selected == if good.skill.Some? then good.skill else start.selected
  {
    GoodHop(s, a, recovery);
    var opening, shown := Opening(Route(start.plan), false, start.resume), Relayed(a).shown;
    assert start.frames + (opening + shown) == start.frames + opening + shown;
    assert [] + shown == shown;
  }

  // ---------------------------------------------------------------- with the real recovery

  /** Hops that are still possible: two for each step left, and two for a corrective step. */
  function Potential(s: Loop): int {
    2 * (|s.plan.steps| - s.plan.cursor) + (if s.reviewed then 0 else 2) - s.retryCount
  }

  predicate WithinPotential(s: Loop, budget: int) {
    && s.plan.cursor <= |s.plan.steps| && s.retryCount <= MAX_RETRIES
    && (s.plan.cursor == |s.plan.steps| ==> s.retryCount == 0)
    && s.hops + (if s.over then 0 else Potential(s)) <= budget
  }

  lemma HopSpendsPotential(s: Loop, a: Answer, budget: int)
    requires WithinPotential(s, budget)
    ensures WithinPotential(Hop(s, a, RecoveryTarget), budget)
    ensures Idle(s) || Hop(s, a, RecoveryTarget).hops == s.hops + 1
  {
    DispatchedErrors(s, a);
  }

  /** The recipes, by intent. */
  datatype Recipe = Unclassified | Chat | Propose | Draft | BuildSkill | SkillThenCompose | ResumeDraft

  function Steps(recipe: Recipe): seq<Target> {
    match recipe
    case Unclassified => [GeneralChat]
    case Chat => [FastResponse]
    case Propose => [Finalize]
    case Draft => [Composer]
    case BuildSkill => [Skills]
    case SkillThenCompose => [Skills, Composer]
    case ResumeDraft => [Composer]
  }

  lemma {:induction false} BusyHopsCount(s: Loop, answers: nat -> Answer, budget: int, k: nat)
    requires WithinPotential(s, budget) && s.hops == 0
    ensures var t := Hops(s, answers, RecoveryTarget, k); WithinPotential(t, budget) && (Idle(t) || t.hops == k)
  {
    if k > 0 {
      BusyHopsCount(s, answers, budget, k - 1);
      OneMore(Hopping(answers, RecoveryTarget), s, k - 1);
      HopSpendsPotential(Hops(s, answers, RecoveryTarget, k - 1), answers(k - 1), budget);
    }
  }

  lemma PotentialIsPositive(s: Loop, budget: int)
    requires WithinPotential(s, budget) && !Idle(s)
    ensures Potential(s) >= 1
  {}

  lemma HopKeepsRealSteps(s: Loop, a: Answer)
    requires Done !in s.plan.steps
    ensures Done !in Hop(s, a, RecoveryTarget).plan.steps
  {}

  lemma StepsAreReal(recipe: Recipe, resuming: bool, chosen: Option<nat>, answers: nat -> Answer, k: nat)
    ensures Done !in Hops(Begin(Steps(recipe), resuming, chosen), answers, RecoveryTarget, k).plan.steps
  {
    var next := Hopping(answers, RecoveryTarget);
    forall s: Loop, i: nat | Done !in s.plan.steps ensures Done !in next(s, i).plan.steps {
      HopKeepsRealSteps(s, answers(i));
    }
    KeptForever(next, (s: Loop) => Done !in s.plan.steps, Begin(Steps(recipe), resuming, chosen), First(k));
  }

  /** With the real recovery every recipe is done, or given up with an error shown, within six hops: the cap
      of eight is never what ends the loop. */
  lemma CapIsNeverReached(recipe: Recipe, resuming: bool, chosen: Option<nat>, answers: nat -> Answer)
    ensures var s := Hops(Begin(Steps(recipe), resuming, chosen), answers, RecoveryTarget, MAX_HOPS);
            && Idle(s) && s.hops <= 2 * |Steps(recipe)| + 2 < MAX_HOPS
            && (s.over ==> Errors(s.frames) >= 1)
            && (!s.over ==> s.plan.cursor == |s.plan.steps|)
  {
    var steps := Steps(recipe);
    var start := Begin(steps, resuming, chosen);
    var budget := 2 * |steps| + 2;
    BusyHopsCount(start, answers, budget, MAX_HOPS);
    var s := Hops(start, answers, RecoveryTarget, MAX_HOPS);
    if !Idle(s) { PotentialIsPositive(s, budget); }
    AtMostTwoErrors(steps, resuming, chosen, answers, RecoveryTarget, MAX_HOPS);
    StepsAreReal(recipe, resuming, chosen, answers, MAX_HOPS);
    assert s.plan.cursor < |s.plan.steps| ==> s.plan.steps[s.plan.cursor] in s.plan.steps;
  }

  /** The limit on retries matters: a recovery that never gives up runs into the cap, and then the failure of
      every hop is shown nowhere. */
  lemma EndlessRetryHidesTheError(recipe: Recipe, chosen: Option<nat>, answers: nat -> Answer, recovery: Recovery)
    requires Relays(Plan(Steps(recipe), 0))
    requires forall i :: 0 <= i < MAX_HOPS ==> Relayed(answers(i)).suppressed
    requires forall p, code, n :: recovery(p, RecoveryMode, code, n).Some?
    ensures var s := Hops(Begin(Steps(recipe), false, chosen), answers, recovery, MAX_HOPS);
            !Idle(s) && Errors(s.frames) == 0
  {
    var start := Begin(Steps(recipe), false, chosen);
    SuppressedFailuresShowNothing(start, answers, recovery, MAX_HOPS);
    NoErrors(start.frames + Opening(Route(start.plan), false, start.resume));
  }
}
