/** The debounce claim of the personal memory store
    (modules/ai_agent/adapters/memory/gcs_memory_store.py, `claim_debounce_window`): any number of
    callers interleave the three storage calls reload, download and conditional upload on one blob
    that is never deleted. Each storage call may fail on its own. */
module Debounce {
  /** What a download decodes to; everything that makes the `try` block raise is `Unreadable`. */
  datatype Content = ClaimedAt(time: int) | Unreadable

  datatype Blob = Absent | Present(generation: nat, content: Content)

  /** Where one caller stands inside `claim_debounce_window`. */
  datatype Phase =
    | Outside
    | Reloaded(now: int, window: int, generation: nat)
    | Ready(now: int, window: int, generation: nat)
    | Returned(claimed: bool)
    | Raised

  datatype Delivery = Delivered | RequestLost | ReplyLost

  type CallerId = nat

  datatype Event =
    | Reload(caller: CallerId, now: int, window: int, fails: bool)
    | Download(caller: CallerId, fails: bool)
    | Upload(caller: CallerId, delivery: Delivery, gap: nat)

  /** One upload that took effect; `matched` is the generation it was conditioned on. */
  datatype Write = Write(now: int, window: int, matched: nat, generation: nat, reported: bool)

  datatype World = World(blob: Blob, lastGeneration: nat, callers: map<CallerId, Phase>, log: seq<Write>)

  function PhaseOf(w: World, c: CallerId): Phase {
    if c in w.callers then w.callers[c] else Outside
  }

  /** `if_generation_match`: 0 asks that the object does not exist. */
  predicate Matches(blob: Blob, generation: nat) {
    match blob
    case Absent => generation == 0
    case Present(g, _) => g == generation
  }

  function Move(w: World, c: CallerId, p: Phase): World {
    w.(callers := w.callers[c := p])
  }

  /** A step that is not enabled for its caller leaves the world as it is. */
  function Step(w: World, e: Event): World {
    match e
    case Reload(c, now, window, fails) =>
      if PhaseOf(w, c).Reloaded? || PhaseOf(w, c).Ready? then w
      else if fails || w.blob.Absent? then Move(w, c, Ready(now, window, 0))
      else Move(w, c, Reloaded(now, window, w.blob.generation))
    case Download(c, fails) =>
      (match PhaseOf(w, c)
       case Reloaded(now, window, generation) =>
         if fails || w.blob.Absent? || w.blob.content.Unreadable? then Move(w, c, Ready(now, window, 0))
         else if now - w.blob.content.time < window then Move(w, c, Returned(false))
         else Move(w, c, Ready(now, window, generation))
       case _ => w)
    case Upload(c, delivery, gap) =>
      (match PhaseOf(w, c)
       case Ready(now, window, generation) =>
         if delivery.RequestLost? then Move(w, c, Raised)
         else if !Matches(w.blob, generation) then
           Move(w, c, if delivery.ReplyLost? then Raised else Returned(false))
         else
           var next := w.lastGeneration + 1 + gap;
           World(Present(next, ClaimedAt(now)), next,
                 w.callers[c := if delivery.ReplyLost? then Raised else Returned(true)],
                 w.log + [Write(now, window, generation, next, delivery.Delivered?)])
       case _ => w)
  }

  function Run(w: World, events: seq<Event>): World
    decreases |events|
  {
    if events == [] then w else Step(Run(w, events[..|events| - 1]), events[|events| - 1])
  }

  /** Any blob may already be there; nobody is inside a call and nothing has been logged. */
  ghost predicate Initial(w: World) {
    w.callers == map[] && w.log == [] && (w.blob.Present? ==> 1 <= w.blob.generation <= w.lastGeneration)
  }

  // ---------------------------------------------------------------- the one-step specification

  /** When a claim executed in one piece, without storage failures, is granted. */
  predicate AtomicClaim(blob: Blob, now: int, window: int) {
    match blob
    case Absent => true
    case Present(_, ClaimedAt(t)) => now - t >= window
    case Present(_, Unreadable) => false
  }

  // ---------------------------------------------------------------- the invariant of every run

  /** A caller ready to overwrite generation `g` has seen what generation `g` holds. */
  ghost predicate Informed(w: World, p: Phase) {
    match p
    case Reloaded(_, _, g) => 1 <= g && w.blob.Present? && g <= w.blob.generation
    case Ready(now, window, g) =>
      g > 0 ==> w.blob.Present? && g <= w.blob.generation
                && (g == w.blob.generation ==> AtomicClaim(w.blob, now, window))
    case _ => true
  }

  ghost predicate Chained(start: Blob, log: seq<Write>) {
    && (forall i :: 0 <= i < |log| - 1 ==> log[i + 1].matched == log[i].generation)
    && (forall i :: 0 <= i < |log| - 1 ==> log[i + 1].now - log[i].now >= log[i + 1].window)
    && (forall i :: 0 <= i < |log| ==> log[i].matched < log[i].generation)
    && (|log| > 0 ==> Matches(start, log[0].matched) && AtomicClaim(start, log[0].now, log[0].window))
  }

  ghost predicate Inv(start: Blob, w: World) {
    && (w.blob.Present? ==> 1 <= w.blob.generation <= w.lastGeneration)
    && (if w.log == [] then w.blob == start
        else var l := w.log[|w.log| - 1]; w.blob == Present(l.generation, ClaimedAt(l.now)))
    && (forall c :: c in w.callers ==> Informed(w, w.callers[c]))
    && Chained(start, w.log)
  }

  /** What a caller knows stays true when the blob moves on. */
  lemma InformedStays(start: Blob, w: World, e: Event, p: Phase)
    requires Inv(start, w) && Informed(w, p)
    ensures Informed(Step(w, e), p)
  {}

  lemma MoverIsInformed(start: Blob, w: World, e: Event)
    requires Inv(start, w)
    ensures Informed(Step(w, e), PhaseOf(Step(w, e), e.caller))
  {
    assert Informed(w, PhaseOf(w, e.caller));
  }

  lemma StepKeepsBlob(start: Blob, w: World, e: Event)
    requires Inv(start, w)
    ensures var w' := Step(w, e);
            && (w'.blob.Present? ==> 1 <= w'.blob.generation <= w'.lastGeneration)
            && (if w'.log == [] then w'.blob == start
                else var l := w'.log[|w'.log| - 1]; w'.blob == Present(l.generation, ClaimedAt(l.now)))
            && (w'.log == w.log || e.Upload?)
            && forall c :: c in w'.callers ==> c == e.caller || (c in w.callers && w'.callers[c] == w.callers[c])
  {}

  lemma StepKeepsInv(start: Blob, w: World, e: Event)
    requires Inv(start, w)
    ensures Inv(start, Step(w, e))
  {
    var w' := Step(w, e);
    StepKeepsBlob(start, w, e);
    MoverIsInformed(start, w, e);
    forall c | c in w'.callers ensures Informed(w', w'.callers[c]) {
      if c != e.caller { InformedStays(start, w, e, w.callers[c]); }
    }
    if w'.log != w.log {
      UploadExtendsChain(start, w, e);
    }
  }

  lemma UploadExtendsChain(start: Blob, w: World, e: Event)
    requires Inv(start, w) && e.Upload? && Step(w, e).log != w.log
    ensures Chained(start, Step(w, e).log)
  {
    var p := PhaseOf(w, e.caller);
    assert Informed(w, p);
    assert AtomicClaim(w.blob, p.now, p.window);
    var log' := Step(w, e).log;
    var n := |w.log|;
    assert log'[n].matched == p.generation;
    if n > 0 {
      assert log'[n - 1] == w.log[n - 1];
    }
  }

  lemma {:induction false} RunKeepsInv(w: World, events: seq<Event>)
    requires Initial(w)
    ensures Inv(w.blob, Run(w, events))
    decreases |events|
  {
    if events != [] {
      RunKeepsInv(w, events[..|events| - 1]);
      StepKeepsInv(w.blob, Run(w, events[..|events| - 1]), events[|events| - 1]);
    }
  }

  // ---------------------------------------------------------------- what callers may rely on

  /** Each call that returns True did so on a state in which the one-step claim is granted, and left
      exactly the state that claim would leave; a call that returns False left the blob alone. */
  lemma SuccessIsAtomic(w: World, events: seq<Event>, e: Event)
    requires Initial(w) && e.Upload?
    ensures var before := Run(w, events);
            var after := Step(before, e);
            var p := PhaseOf(before, e.caller);
            PhaseOf(before, e.caller).Ready? ==>
              (PhaseOf(after, e.caller) == Returned(true) ==>
                 && AtomicClaim(before.blob, p.now, p.window)
                 && after.blob.Present? && after.blob.content == ClaimedAt(p.now)
                 && (before.blob.Present? ==> before.blob.generation < after.blob.generation)
                 && after.log == before.log
                      + [Write(p.now, p.window, p.generation, after.blob.generation, true)])
              && (PhaseOf(after, e.caller) == Returned(false) ==>
                    after.blob == before.blob && after.log == before.log)
  {
    RunKeepsInv(w, events);
    var before := Run(w, events);
    assert Informed(before, PhaseOf(before, e.caller));
  }

  /** At most one claim takes effect per generation of the blob. */
  lemma OneClaimPerGeneration(w: World, events: seq<Event>, i: nat, j: nat)
    requires Initial(w) && i < j < |Run(w, events).log|
    ensures Run(w, events).log[i].matched < Run(w, events).log[j].matched
    decreases j
  {
    RunKeepsInv(w, events);
    var log := Run(w, events).log;
    if i < j - 1 {
      OneClaimPerGeneration(w, events, i, j - 1);
      assert log[j - 1].matched < log[j - 1].generation;
    }
  }

  /** Successive claims are at least the later caller's window apart; with non-negative windows so
      are any two claims of one run. */
  lemma {:induction false} ClaimsAreSpaced(w: World, events: seq<Event>, i: nat, j: nat)
    requires Initial(w) && i < j < |Run(w, events).log|
    ensures j == i + 1 || (forall k :: i < k < j ==> Run(w, events).log[k].window >= 0) ==>
              Run(w, events).log[j].now - Run(w, events).log[i].now >= Run(w, events).log[j].window
    decreases j
  {
    RunKeepsInv(w, events);
    if i < j - 1 {
      ClaimsAreSpaced(w, events, i, j - 1);
    }
  }

  /** A blob nobody can read is never overwritten: no claim ever succeeds again. */
  lemma {:induction false} UnreadableBlobBlocksEveryClaim(w: World, events: seq<Event>)
    requires Initial(w) && w.blob.Present? && w.blob.content.Unreadable?
    ensures Run(w, events).log == [] && Run(w, events).blob == w.blob
    ensures forall c :: PhaseOf(Run(w, events), c) != Returned(true)
    decreases |events|
  {
    if events != [] {
      var prefix := events[..|events| - 1];
      UnreadableBlobBlocksEveryClaim(w, prefix);
      RunKeepsInv(w, prefix);
      var before := Run(w, prefix);
      var e := events[|events| - 1];
      if e.Upload? { assert Informed(before, PhaseOf(before, e.caller)); }
      assert Step(before, e).log == before.log;
      forall c ensures PhaseOf(Step(before, e), c) != Returned(true) {
        assert PhaseOf(before, c) != Returned(true);
      }
    }
  }

  /** What one claim does when no other caller comes between, for every way its three calls may fail. It is written if
      and only if its request arrives and either there is no blob, or both reads succeed on a readable one whose claim
      is at least the window ago. It is denied without an upload when both reads show a claim too recent; and whenever
      an upload is attempted the caller learns the truth, or the error. A read that fails is never taken for leave
      to overwrite. */
  lemma UndisturbedClaimIsExact(w: World, c: CallerId, now: int, window: int, reloadFails: bool, downloadFails: bool,
                                delivery: Delivery, gap: nat)
    requires w.blob.Present? ==> 1 <= w.blob.generation
    requires !PhaseOf(w, c).Reloaded? && !PhaseOf(w, c).Ready?
    ensures var done := Step(Step(Step(w, Reload(c, now, window, reloadFails)), Download(c, downloadFails)),
                             Upload(c, delivery, gap));
            var read := w.blob.Present? && !reloadFails && !downloadFails && w.blob.content.ClaimedAt?;
            var early := read && now - w.blob.content.time < window;
            var written := delivery != RequestLost && (w.blob.Absent? || (read && !early));
            && PhaseOf(done, c)
            == (if early then Returned(false) else if delivery != Delivered then Raised else Returned(written))
            && done.blob == (if written then Present(w.lastGeneration + 1 + gap, ClaimedAt(now)) else w.blob)
  {
    var s1 := Step(w, Reload(c, now, window, reloadFails));
    var s2 := Step(s1, Download(c, downloadFails));
    assert s2.blob == w.blob && s2.lastGeneration == w.lastGeneration;
  }
}
