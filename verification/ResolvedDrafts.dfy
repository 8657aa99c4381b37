/** Drafts assembled from what the ensemble resolves
    (modules/ai_agent/domain/services/slot_ensemble.py into skeleton_assembler.py): the graph theorems for the two
    together, and a request whose branch has a sink that nothing reaches. */
module ResolvedDrafts {
  import opened Basics
  import opened Graph
  import opened Library
  import opened Assembler
  import opened Ensemble
  import opened DraftGraphs
  import opened DraftHandles

  /** The outcome of resolving these entities is what the assembly gets. */
  ghost predicate Resolved(ctx: Context, mapper: Option<Mapper>, e: Entities, sig: Signals,
                           sources: seq<string>, pool: seq<string>, sinks: seq<string>) {
    ctx.entities == e && Resolves(ctx, mapper, sig.resolved, sources, pool, sinks)
  }

  /** The resolver's picks for the sinks, if any. */
  function SinkPicks(sig: Signals): seq<string> {
    if Sink in sig.resolved then sig.resolved[Sink] else []
  }

  lemma ResolvedPicks(ctx: Context, mapper: Option<Mapper>, e: Entities, sig: Signals,
                      sources: seq<string>, pool: seq<string>, sinks: seq<string>)
    requires Resolved(ctx, mapper, e, sig, sources, pool, sinks)
    ensures Gate !in sig.resolved
    ensures Picks(SinkSlot(true), sig) == SinkPicks(sig) && Distinct(SinkPicks(sig))
  {
    PicksAreDistinctPoolMembers(ctx, mapper, sig.resolved, sources, pool, sinks);
    if Sink in sig.resolved { AmongAll(sig.resolved[Sink], SINKS); }
  }

  lemma BranchHasTwoNamed(e: Entities, sig: Signals)
    requires Extracted(e) && Assembled(e, sig).Some? && Assembled(e, sig).value.name == BranchOnClassification
    ensures |e.sinks| == 2
  {
    var order, tree, back := DraftIsShaped(e, sig);
  }

  /** Of a request that was extracted, resolved and assembled, with whatever mapper: the draft has a cycle exactly
      when it is a quality loop or a retry loop; and a node is out of reach exactly when it is a branch for which
      the ensemble picked a sink that the request does not name. */
  lemma ResolvedDraftsAreSound(ctx: Context, mapper: Option<Mapper>, e: Entities, sig: Signals,
                               sources: seq<string>, pool: seq<string>, sinks: seq<string>)
    requires Extracted(e) && Assembled(e, sig).Some?
    requires Resolved(ctx, mapper, e, sig, sources, pool, sinks)
    ensures var d := Assembled(e, sig).value;
            && (Acyclic(d.edges) <==> d.name !in {QualityLoop, RetryBackoff})
            && ((exists n :: n in d.nodes && !Reach(d.edges, d.nodes[0].ref, n.ref))
                <==> d.name == BranchOnClassification && exists x :: x in SinkPicks(sig) && x !in e.sinks)
  {
    ResolvedPicks(ctx, mapper, e, sig, sources, pool, sinks);
    EveryCyclePassesTheGate(e, sig);
    OnlyLoopsHaveAGate(e, sig);
    EveryNodeIsReachable(e, sig);
    if Assembled(e, sig).value.name == BranchOnClassification {
      BranchHasTwoNamed(e, sig);
      TwoCollectedExactly(e, sig);
    }
  }

  // ---------------------------------------------------------------- which channel is behind "true"

  predicate Above(scores: Scores, nt: string) {
    nt in scores && scores[nt] >= BIND_THRESHOLD
  }

  ghost predicate Picked(scores: Scores, nt: string) {
    Passes(scores, nt, BIND_THRESHOLD, TOP_RATIO)
  }

  /** Ahead of every other candidate, by score and then by name. */
  ghost predicate Leads(scores: Scores, a: string) {
    forall o :: o in scores && o != a ==> Ahead(scores, a, o)
  }

  /** Picked, and ahead of all that are, but for the leader; or nothing is picked beside the leader. */
  ghost predicate Follows(scores: Scores, a: string, b: string) {
    forall o :: Picked(scores, o) && o != a && o != b ==> Picked(scores, b) && Ahead(scores, b, o)
  }

  lemma LeaderIsAhead(scores: Scores, picks: seq<string>, o: string)
    requires Selects(scores, picks) && picks != [] && o in scores && o != picks[0]
    ensures Ahead(scores, picks[0], o)
  {
    var a := picks[0];
    assert a in picks && Picked(scores, a);
    if o in picks {
      var j :| 0 <= j < |picks| && picks[j] == o;
    } else if scores[o] >= BIND_THRESHOLD {
      FirstPickIsBest(scores, picks, o);
      assert !Picked(scores, o);
    }
  }

  lemma LeaderIsPicked(scores: Scores, picks: seq<string>, a: string)
    requires Selects(scores, picks) && Above(scores, a) && Leads(scores, a)
    ensures picks != [] && picks[0] == a
  {
    forall o | o in scores && scores[o] >= BIND_THRESHOLD ensures scores[a] >= scores[o] * TOP_RATIO {}
    assert Picked(scores, a);
    assert a in picks && picks[0] in picks;
    if picks[0] != a {
      LeaderIsAhead(scores, picks, a);
      AheadIsAsymmetric(scores, a, picks[0]);
    }
  }

  /** A candidate above the threshold is the first pick exactly when it leads. */
  lemma FirstPickLeads(scores: Scores, picks: seq<string>, a: string)
    requires Selects(scores, picks) && Above(scores, a)
    ensures picks != [] && (picks[0] == a <==> Leads(scores, a))
  {
    FirstPickIsBest(scores, picks, a);
    if Leads(scores, a) { LeaderIsPicked(scores, picks, a); }
    if picks[0] == a {
      forall o | o in scores && o != a ensures Ahead(scores, a, o) { LeaderIsAhead(scores, picks, o); }
    }
  }

  lemma SecondPickFollows(scores: Scores, picks: seq<string>, a: string, b: string)
    requires Selects(scores, picks) && picks != [] && picks[0] == a && a != b
    ensures (|picks| >= 2 ==> picks[1] == b) <==> Follows(scores, a, b)
  {
    if |picks| >= 2 && Follows(scores, a, b) {
      assert picks[1] in picks && Picked(scores, picks[1]);
      if picks[1] != b {
        assert b in picks;
        var j :| 0 <= j < |picks| && picks[j] == b;
        AheadIsAsymmetric(scores, b, picks[1]);
      }
    }
    if |picks| >= 2 ==> picks[1] == b {
      forall o | Picked(scores, o) && o != a && o != b ensures Picked(scores, b) && Ahead(scores, b, o) {
        assert o in picks;
        var j :| 0 <= j < |picks| && picks[j] == o;
        assert j >= 2 && picks[1] in picks;
      }
    }
  }

  lemma TwoPicksInOrder(scores: Scores, picks: seq<string>, a: string, b: string)
    requires Selects(scores, picks) && Above(scores, a) && a != b
    ensures (forall k :: 0 <= k < 2 && k < |picks| ==> picks[k] == [a, b][k]) <==> Leads(scores, a) && Follows(scores, a, b)
  {
    FirstPickLeads(scores, picks, a);
    if picks[0] == a { SecondPickFollows(scores, picks, a, b); }
    assert (forall k :: 0 <= k < 2 && k < |picks| ==> picks[k] == [a, b][k])
      <==> picks[0] == a && (|picks| >= 2 ==> picks[1] == b);
  }

  /** The voters' picks for a named sink in the pool are what the assembly gets. */
  lemma NamedSinkVotes(ctx: Context, mapper: Option<Mapper>, e: Entities, sig: Signals,
                       sources: seq<string>, pool: seq<string>, sinks: seq<string>, a: string)
    requires Resolved(ctx, mapper, e, sig, sources, pool, sinks) && a in e.sinks && a in pool
    ensures SinkPicks(sig) == sinks && Selects(FirstScores(ctx, Sink, pool), sinks)
    ensures Above(FirstScores(ctx, Sink, pool), a)
  {
    HitIsNeverEscalated(ctx, mapper, sig.resolved, sources, pool, sinks, a);
    DefaultScore(ctx, Sink, pool, a);
  }

  lemma PicksAreInPool(ctx: Context, mapper: Option<Mapper>, e: Entities, sig: Signals,
                       sources: seq<string>, pool: seq<string>, sinks: seq<string>)
    requires Resolved(ctx, mapper, e, sig, sources, pool, sinks)
    ensures forall x :: x in SinkPicks(sig) ==> x in pool
  {
    PicksAreDistinctPoolMembers(ctx, mapper, sig.resolved, sources, pool, sinks);
  }

  /** Of a resolved request: its branch leads the way it says if and only if nothing is picked for the sinks, or the
      channel named first is in the pool and leads all others by score and name, and the one named second follows
      as soon as a second one is picked. */
  lemma ResolvedBranchOrder(ctx: Context, mapper: Option<Mapper>, e: Entities, sig: Signals,
                            sources: seq<string>, pool: seq<string>, sinks: seq<string>, d: Draft)
    requires Extracted(e) && Assembled(e, sig) == Some(d) && d.name == BranchOnClassification
    requires Resolved(ctx, mapper, e, sig, sources, pool, sinks)
    ensures |e.sinks| == 2
    ensures var scores := FirstScores(ctx, Sink, pool);
            AsSaid(d, e) <==> || SinkPicks(sig) == []
                              || (&& e.sinks[0] in pool && Leads(scores, e.sinks[0])
                                  && Follows(scores, e.sinks[0], e.sinks[1]))
  {
    BranchHasTwoNamed(e, sig);
    var order, tree, back := DraftIsShaped(e, sig);
    BranchKeepsTheOrderSaid(e, sig, d);
    ResolvedPicks(ctx, mapper, e, sig, sources, pool, sinks);
    PickedOrder(ctx, mapper, e, sig, sources, pool, sinks);
  }

  lemma PickedOrder(ctx: Context, mapper: Option<Mapper>, e: Entities, sig: Signals,
                    sources: seq<string>, pool: seq<string>, sinks: seq<string>)
    requires Extracted(e) && |e.sinks| == 2 && Resolved(ctx, mapper, e, sig, sources, pool, sinks)
    ensures var picks, scores := SinkPicks(sig), FirstScores(ctx, Sink, pool);
            (forall k :: 0 <= k < 2 && k < |picks| ==> picks[k] == e.sinks[k])
            <==> || picks == []
                 || (&& e.sinks[0] in pool && Leads(scores, e.sinks[0]) && Follows(scores, e.sinks[0], e.sinks[1]))
  {
    var a, b, picks := e.sinks[0], e.sinks[1], SinkPicks(sig);
    if a in pool {
      NamedSinkVotes(ctx, mapper, e, sig, sources, pool, sinks, a);
      TwoPicksInOrder(FirstScores(ctx, Sink, pool), picks, a, b);
      FirstPickLeads(FirstScores(ctx, Sink, pool), picks, a);
      assert e.sinks == [a, b];
    } else if picks != [] {
      PicksAreInPool(ctx, mapper, e, sig, sources, pool, sinks);
      assert picks[0] in picks;
    }
  }

  /** Two named channels that score the same are put in the order of their names, whatever the request says. */
  lemma TieGoesByName(ctx: Context, mapper: Option<Mapper>, e: Entities, sig: Signals,
                      sources: seq<string>, pool: seq<string>, sinks: seq<string>, d: Draft)
    requires Extracted(e) && Assembled(e, sig) == Some(d) && d.name == BranchOnClassification && |e.sinks| == 2
    requires Resolved(ctx, mapper, e, sig, sources, pool, sinks) && e.sinks[0] in pool && e.sinks[1] in pool
    requires Get(FirstScores(ctx, Sink, pool), e.sinks[0]) == Get(FirstScores(ctx, Sink, pool), e.sinks[1])
    requires Precedes(e.sinks[1], e.sinks[0])
    ensures !AsSaid(d, e)
  {
    var a, b, scores := e.sinks[0], e.sinks[1], FirstScores(ctx, Sink, pool);
    ResolvedBranchOrder(ctx, mapper, e, sig, sources, pool, sinks, d);
    NamedSinkVotes(ctx, mapper, e, sig, sources, pool, sinks, a);
    NamedSinkVotes(ctx, mapper, e, sig, sources, pool, sinks, b);
    FirstPickIsBest(scores, sinks, a);
    AheadIsAsymmetric(scores, a, b);
  }

  // ---------------------------------------------------------------- a sink out of reach

  const SLACK: string := "slack_post_message"
  const MAIL: string := "email_send"
  const HOOK: string := "webhook"

  /** "Depending on the kind, to slack or else by mail", for which retrieval ranks only the webhook. */
  const REQUEST: Entities := Entities(None, [], [], [SLACK, MAIL], false, true, false, false, false, false)
  const HEARD: Context := Context(REQUEST, [HOOK], {HOOK}, (read, write) => false)
  const PICKED: seq<string> := [MAIL, SLACK, HOOK]

  function Wanted(): Signals {
    Signals(_ => 0, [HOOK], map[Sink := PICKED])
  }

  /** No hit, no rank, nothing allowed: no pick. */
  lemma SilentVoters(ctx: Context, role: Role, pool: seq<string>)
    requires Among(ctx.ranked, pool) == [] && forall nt :: nt in pool ==> nt !in ctx.allowed
    requires forall nt :: !IsHit(ctx, role, pool, nt)
    ensures Selects(FirstScores(ctx, role, pool), [])
  {
    var scores := FirstScores(ctx, role, pool);
    forall nt ensures !Passes(scores, nt, BIND_THRESHOLD, TOP_RATIO) {
      DefaultScore(ctx, role, pool, nt);
      assert SemanticVote(ctx, pool, nt) == 0.0 && OntologyVote(ctx, pool, nt) == 0.0;
    }
  }

  lemma SourcesStayEmpty()
    ensures Selects(FirstScores(HEARD, Source, SOURCES), [])
  {
    assert HOOK !in SOURCES && [HOOK][..0] == [];
    assert Among([HOOK], SOURCES) == Among([HOOK][..0], SOURCES) + [];
    SilentVoters(HEARD, Source, SOURCES);
  }

  /** What each sink scores: the named ones 1, the webhook 0.85, the others nothing. */
  lemma SinkScore(nt: string)
    ensures Get(FirstScores(HEARD, Sink, SINKS), nt)
         == if nt == SLACK || nt == MAIL then 1.0 else if nt == HOOK then 0.85 else 0.0
  {
    assert HOOK in SINKS && SLACK in SINKS && MAIL in SINKS;
    AmongAll([HOOK], SINKS);
    OneRank(HOOK);
    DefaultScore(HEARD, Sink, SINKS, nt);
    assert IsHit(HEARD, Sink, SINKS, nt) <==> nt == SLACK || nt == MAIL;
  }

  lemma PickedInOrder()
    ensures Distinct(PICKED) && Ranked(FirstScores(HEARD, Sink, SINKS), PICKED)
  {
    SinkScore(MAIL);
    SinkScore(SLACK);
    SinkScore(HOOK);
    assert MAIL[0] < SLACK[0];
    assert Precedes(MAIL, SLACK);
  }

  lemma SinksArePicked()
    ensures Selects(FirstScores(HEARD, Sink, SINKS), PICKED)
  {
    var scores := FirstScores(HEARD, Sink, SINKS);
    PickedInOrder();
    forall nt ensures nt in PICKED <==> Passes(scores, nt, BIND_THRESHOLD, TOP_RATIO) {
      SinkScore(nt);
      SinkScore(SLACK);
      forall o | o in scores ensures scores[o] <= 1.0 { SinkScore(o); }
    }
  }

  /** Without a mapper, and without a source. */
  lemma SinksAlone(ctx: Context, pool: seq<string>, picks: seq<string>)
    requires IsSinkPool(ctx, [], pool) && picks != []
    requires Selects(FirstScores(ctx, Source, SOURCES), []) && Selects(FirstScores(ctx, Sink, pool), picks)
    ensures Resolves(ctx, None, map[Sink := picks], [], pool, picks)
  {
    NoExtra(FirstScores(ctx, Source, SOURCES));
    var llm := Asked(None, Uncertain([], pool, picks));
    assert llm == map[] && Within(llm, Source, SOURCES) == map[];
  }

  lemma WantedIsResolved()
    ensures Resolved(HEARD, None, REQUEST, Wanted(), [], SINKS, PICKED)
  {
    SourcesStayEmpty();
    SinksArePicked();
    SinksAlone(HEARD, SINKS, PICKED);
  }

  lemma {:induction false} NothingMissing(slots: seq<Slot>, e: Entities, sig: Signals)
    requires forall i :: 0 <= i < |slots| && slots[i].required ==> Fill(slots[i], e, sig) != []
    ensures Missing(slots, e, sig) == []
    decreases |slots|
  {
    if slots != [] { NothingMissing(slots[..|slots| - 1], e, sig); }
  }

  lemma SinkSlotFills(e: Entities, sig: Signals)
    requires Extracted(e) && e.sinks != []
    ensures Fill(SinkSlot(true), e, sig) != []
  {
    SinksAreCollected(true, e, sig);
    assert e.sinks[0] in Fill(SinkSlot(true), e, sig);
  }

  lemma OnlyOneSinkSlot(i: nat)
    requires i < |SlotsOf(BranchOnClassification)| && SlotsOf(BranchOnClassification)[i].role == Sink
    ensures SlotsOf(BranchOnClassification)[i] == SinkSlot(true)
  {}

  lemma BranchIsFilled(e: Entities, sig: Signals)
    requires Extracted(e) && e.sinks != []
    ensures Missing(SlotsOf(BranchOnClassification), e, sig) == []
  {
    var slots := SlotsOf(BranchOnClassification);
    forall i | 0 <= i < |slots| && slots[i].required ensures Fill(slots[i], e, sig) != [] {
      FilledSlot(BranchOnClassification, i, e, sig);
      SlotsAreRegular(BranchOnClassification, i);
      if slots[i].role == Sink {
        OnlyOneSinkSlot(i);
        SinkSlotFills(e, sig);
      }
    }
    NothingMissing(slots, e, sig);
  }

  lemma PicksBranch<T>(approval: T, retry: T, fanOut: T, branch: T, guard: T)
    ensures ByShape(Branch, approval, retry, fanOut, branch, guard) == branch
  {}

  lemma BranchIsBuilt(e: Entities, sig: Signals) returns (d: Draft)
    requires Extracted(e) && |e.sinks| == 2
    ensures BranchDraft(e, sig) == Some(d) && d.name == BranchOnClassification
  {
    BranchIsFilled(e, sig);
    d := BranchDraft(e, sig).value;
  }

  lemma BranchIsDrafted(e: Entities, sig: Signals) returns (d: Draft)
    requires Extracted(e) && |e.sinks| == 2
    ensures DraftOf(Branch, e, sig) == Some(d) && d.name == BranchOnClassification
  {
    d := BranchIsBuilt(e, sig);
    PicksBranch(ApprovalDraft(e, sig), RetryDraft(e, sig), FanOutDraft(e, sig), BranchDraft(e, sig),
                ConditionalDraft(e, sig));
  }

  lemma BranchIsRouted(e: Entities, sig: Signals)
    requires Extracted(e) && e.sinks != [] && Shapes(e) == {Branch}
    ensures Assembled(e, sig) == DraftOf(Branch, e, sig)
  {
    var shape := RoutedToAShape({Branch}, e, sig);
    assert shape == Branch && |{Branch}| == 1;
  }

  /** Two named sinks and nothing but a branch to shape: there is a draft. */
  lemma BranchOfTwo(e: Entities, sig: Signals) returns (d: Draft)
    requires Extracted(e) && |e.sinks| == 2 && Shapes(e) == {Branch}
    ensures Assembled(e, sig) == Some(d) && d.name == BranchOnClassification
  {
    d := BranchIsDrafted(e, sig);
    BranchIsRouted(e, sig);
  }

  /** Such a request always has a draft, and a node out of reach in it exactly when a sink was picked beside the two
      that are named. */
  lemma BranchesLoseAddedSinks(ctx: Context, mapper: Option<Mapper>, e: Entities, sig: Signals, sources: seq<string>,
                               pool: seq<string>, sinks: seq<string>)
    returns (d: Draft)
    requires Extracted(e) && |e.sinks| == 2 && Shapes(e) == {Branch}
    requires Resolved(ctx, mapper, e, sig, sources, pool, sinks)
    ensures Assembled(e, sig) == Some(d) && d.nodes != []
    ensures (exists n :: n in d.nodes && !Reach(d.edges, d.nodes[0].ref, n.ref))
       <==> exists x :: x in SinkPicks(sig) && x !in e.sinks
  {
    d := BranchOfTwo(e, sig);
    var order, tree, back := DraftIsShaped(e, sig);
    ResolvedDraftsAreSound(ctx, mapper, e, sig, sources, pool, sinks);
  }

  lemma RequestIsABranch()
    ensures Extracted(REQUEST) && |REQUEST.sinks| == 2 && Shapes(REQUEST) == {Branch}
  {
    assert SLACK in SINKS && MAIL in SINKS;
  }

  /** It happens: resolving this request adds the webhook, at 0.85 of the best score, and its draft has a node that
      no walk from the trigger reaches. */
  lemma ThirdSinkOfARequest() returns (d: Draft)
    ensures Extracted(REQUEST) && Resolved(HEARD, None, REQUEST, Wanted(), [], SINKS, PICKED)
    ensures Assembled(REQUEST, Wanted()) == Some(d) && d.nodes != []
    ensures exists n :: n in d.nodes && !Reach(d.edges, d.nodes[0].ref, n.ref)
  {
    WantedIsResolved();
    RequestIsABranch();
    d := BranchesLoseAddedSinks(HEARD, None, REQUEST, Wanted(), [], SINKS, PICKED);
    assert HOOK in SinkPicks(Wanted()) && HOOK !in REQUEST.sinks;
  }

  lemma FirstPickOnTrue(e: Entities, sig: Signals, d: Draft)
    requires Extracted(e) && BranchDraft(e, sig) == Some(d) && Picks(SinkSlot(true), sig) != []
    ensures Node(At(Sink, 0), Picks(SinkSlot(true), sig)[0], Sink) in d.nodes
    ensures Link(ROUTER, At(Sink, 0), IfTrue, Input) in d.edges
  {
    BranchHandles(e, sig, d);
    BranchTargets(e, sig, d, 0);
    SinkFill(e, sig);
  }

  lemma AssembledBranchIsDrafted(e: Entities, sig: Signals, d: Draft)
    requires Extracted(e) && Assembled(e, sig) == Some(d) && d.name == BranchOnClassification
    ensures BranchDraft(e, sig) == Some(d) && |e.sinks| == 2
  {
    var order, tree, back := DraftIsShaped(e, sig);
    BranchHasTwoNamed(e, sig);
  }

  /** The same request names slack first, for the case that holds, and the mail otherwise: its draft mails behind
      "true". */
  lemma RequestIsTurnedAround() returns (d: Draft)
    ensures Extracted(REQUEST) && Resolved(HEARD, None, REQUEST, Wanted(), [], SINKS, PICKED)
    ensures REQUEST.sinks == [SLACK, MAIL] && Assembled(REQUEST, Wanted()) == Some(d)
    ensures Node(At(Sink, 0), MAIL, Sink) in d.nodes && Link(ROUTER, At(Sink, 0), IfTrue, Input) in d.edges
    ensures !AsSaid(d, REQUEST)
  {
    WantedIsResolved();
    RequestIsABranch();
    d := BranchOfTwo(REQUEST, Wanted());
    AssembledBranchIsDrafted(REQUEST, Wanted(), d);
    ResolvedPicks(HEARD, None, REQUEST, Wanted(), [], SINKS, PICKED);
    FirstPickOnTrue(REQUEST, Wanted(), d);
    BranchKeepsTheOrderSaid(REQUEST, Wanted(), d);
  }
}
