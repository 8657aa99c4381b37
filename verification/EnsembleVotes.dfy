/** What the votes of the slot ensemble come to
    (modules/ai_agent/domain/services/slot_voters.py, slot_ensemble.py): each candidate's score as a number, and
    which candidates a role is given, in terms of these numbers. */
module EnsembleVotes {
  import opened Basics
  import opened Library
  import opened Assembler
  import opened Ensemble

  // ---------------------------------------------------------------- the score of a candidate

  /** Where a candidate stands in a ranking: its last place, should it be repeated. */
  function LastPlace(ranking: seq<string>, nt: string): (place: Option<nat>)
    ensures place.None? <==> nt !in ranking
    ensures place.Some? ==>
              && place.value < |ranking| && ranking[place.value] == nt
              && forall j :: place.value < j < |ranking| ==> ranking[j] != nt
    decreases |ranking|
  {
    if ranking == [] then None
    else
      var n := |ranking| - 1;
      if ranking[n] == nt then Some(n) else LastPlace(ranking[..n], nt)
  }

  /** The candidate at place `i`, counted from zero, has the vote 1 / (1 + i). */
  lemma {:induction false} RankVote(ranking: seq<string>, i: nat)
    requires i < |ranking| && forall j :: i < j < |ranking| ==> ranking[j] != ranking[i]
    ensures ranking[i] in ReciprocalRanks(ranking) && ReciprocalRanks(ranking)[ranking[i]] == 1.0 / (1 + i) as real
    decreases |ranking|
  {
    var n := |ranking| - 1;
    if i < n { RankVote(ranking[..n], i); }
  }

  /** The words name the candidate for this role. */
  predicate Says(e: Entities, role: Role, nt: string) {
    match role
    case Trigger => e.trigger == Some(nt)
    case Source => nt in e.sources
    case Transform => nt in e.transforms
    case Sink => nt in e.sinks
    case _ => false
  }

  /** The three votes together: one for being named, 0.6 / (1 + i) for standing at place `i` among the ranked
      members of the pool, 0.25 for being allowed by the ontology. */
  function Strength(ctx: Context, role: Role, pool: seq<string>, nt: string): real {
    (if Says(ctx.entities, role, nt) && nt in pool then 1.0 else 0.0)
    + (match LastPlace(Filter((t: string) => t in pool, ctx.ranked), nt)
       case None => 0.0
       case Some(i) => 0.6 / (1 + i) as real)
    + (if nt in ctx.allowed && nt in pool then 0.25 else 0.0)
  }

  lemma Shared(n: nat)
    ensures 0.6 * (1.0 / (1 + n) as real) == 0.6 / (1 + n) as real
  {}

  lemma SemanticPart(ctx: Context, pool: seq<string>, nt: string)
    ensures 0.6 * SemanticVote(ctx, pool, nt)
         == match LastPlace(Among(ctx.ranked, pool), nt)
            case None => 0.0
            case Some(i) => 0.6 / (1 + i) as real
  {
    var ranking := Among(ctx.ranked, pool);
    RanksAreFractions(ranking, nt);
    match LastPlace(ranking, nt) {
      case None =>
      case Some(i) =>
        RankVote(ranking, i);
        Shared(i);
    }
  }

  /** The voters give every candidate exactly that score. */
  lemma ScoreIsStrength(ctx: Context, role: Role, pool: seq<string>, nt: string)
    ensures Get(FirstScores(ctx, role, pool), nt) == Strength(ctx, role, pool, nt)
    ensures nt in FirstScores(ctx, role, pool) ==> nt in pool
    ensures Strength(ctx, role, pool, nt) > 0.0 ==> nt in FirstScores(ctx, role, pool)
  {
    DefaultScore(ctx, role, pool, nt);
    SemanticPart(ctx, pool, nt);
  }

  // ---------------------------------------------------------------- who is picked by the voters

  lemma PlaceValue(i: nat)
    ensures 0.6 / (1 + i) as real >= 0.5 <==> i == 0
    ensures 0.6 / (1 + i) as real + 0.25 >= 0.5 <==> i <= 1
    ensures 0.0 < 0.6 / (1 + i) as real <= 0.6
  {}

  /** A candidate is above the floor if and only if it is named, or stands first in the ranking, or stands second
      and is allowed. */
  lemma FloorExactly(ctx: Context, role: Role, pool: seq<string>, nt: string)
    ensures var place := LastPlace(Filter((t: string) => t in pool, ctx.ranked), nt);
            Strength(ctx, role, pool, nt) >= 0.5
            <==> || IsHit(ctx, role, pool, nt)
                 || (place.Some? && (place.value == 0 || (place.value == 1 && nt in ctx.allowed)))
  {
    var ranking := Filter((t: string) => t in pool, ctx.ranked);
    FilterMember((t: string) => t in pool, ctx.ranked, nt);
    match LastPlace(ranking, nt) {
      case None =>
      case Some(i) => PlaceValue(i);
    }
  }

  /** Strong enough by itself, and not overshadowed. */
  ghost predicate Stands(strength: string -> real, nt: string) {
    strength(nt) >= 0.5 && forall o :: strength(nt) >= 0.7 * strength(o)
  }

  lemma SelectsByStrength(scores: Scores, picks: seq<string>, strength: string -> real)
    requires Selects(scores, picks) && forall nt :: Get(scores, nt) == strength(nt)
    ensures forall nt :: nt in picks <==> Stands(strength, nt)
    ensures forall i, j :: 0 <= i < j < |picks| ==>
              || strength(picks[i]) > strength(picks[j])
              || (strength(picks[i]) == strength(picks[j]) && Precedes(picks[i], picks[j]))
  {
    forall nt ensures nt in picks <==> Stands(strength, nt) {
      if nt in picks {
        assert Passes(scores, nt, BIND_THRESHOLD, TOP_RATIO);
        forall o ensures strength(nt) >= 0.7 * strength(o) {
          assert Get(scores, o) == strength(o);
          if strength(o) >= 0.5 { assert o in scores && scores[nt] >= scores[o] * TOP_RATIO; }
        }
      }
      if Stands(strength, nt) {
        assert Get(scores, nt) == strength(nt);
        forall o | o in scores && scores[o] >= BIND_THRESHOLD ensures scores[nt] >= scores[o] * TOP_RATIO {
          assert Get(scores, o) == strength(o);
        }
        assert Passes(scores, nt, BIND_THRESHOLD, TOP_RATIO);
      }
    }
    forall i, j | 0 <= i < j < |picks|
      ensures || strength(picks[i]) > strength(picks[j])
              || (strength(picks[i]) == strength(picks[j]) && Precedes(picks[i], picks[j]))
    {
      assert Ahead(scores, picks[i], picks[j]);
      assert Get(scores, picks[i]) == strength(picks[i]) && Get(scores, picks[j]) == strength(picks[j]);
    }
  }

  /** A role for which nothing is named and nothing allowed gets the first ranked member of its pool and no other, or
      none if there is none or it is ranked again later. */
  lemma RankingAloneBindsTheFirst(ctx: Context, role: Role, pool: seq<string>, picks: seq<string>)
    requires Selects(FirstScores(ctx, role, pool), picks)
    requires forall nt :: nt in pool ==> !IsHit(ctx, role, pool, nt) && nt !in ctx.allowed
    ensures var ranking := Filter((t: string) => t in pool, ctx.ranked);
            picks == if ranking != [] && ranking[0] !in ranking[1..] then [ranking[0]] else []
  {
    var ranking := Filter((t: string) => t in pool, ctx.ranked);
    var strength := (nt: string) => Strength(ctx, role, pool, nt);
    forall nt ensures Get(FirstScores(ctx, role, pool), nt) == strength(nt) { ScoreIsStrength(ctx, role, pool, nt); }
    SelectsByStrength(FirstScores(ctx, role, pool), picks, strength);
    forall nt ensures strength(nt) >= 0.5 <==> LastPlace(ranking, nt) == Some(0) {
      FloorExactly(ctx, role, pool, nt);
      FilterMember((t: string) => t in pool, ctx.ranked, nt);
    }
    forall nt ensures nt in picks <==> LastPlace(ranking, nt) == Some(0) {
      if LastPlace(ranking, nt) == Some(0) {
        forall o ensures strength(nt) >= 0.7 * strength(o) { WeakAlone(ctx, role, pool, o); }
        assert Stands(strength, nt);
      }
    }
    OnlyTheFirst(ranking, picks);
  }

  lemma WeakAlone(ctx: Context, role: Role, pool: seq<string>, nt: string)
    requires forall nt :: nt in pool ==> !IsHit(ctx, role, pool, nt) && nt !in ctx.allowed
    ensures Strength(ctx, role, pool, nt) <= 0.6
  {
    match LastPlace(Filter((t: string) => t in pool, ctx.ranked), nt) {
      case None =>
      case Some(i) => PlaceValue(i);
    }
  }

  lemma OnlyTheFirst(ranking: seq<string>, picks: seq<string>)
    requires Distinct(picks) && forall nt :: nt in picks <==> LastPlace(ranking, nt) == Some(0)
    ensures picks == if ranking != [] && ranking[0] !in ranking[1..] then [ranking[0]] else []
  {
    forall i | 0 <= i < |picks| ensures ranking != [] && picks[i] == ranking[0] && ranking[0] !in ranking[1..] {
      assert picks[i] in picks;
    }
    if ranking != [] && ranking[0] !in ranking[1..] {
      assert forall j :: 1 <= j < |ranking| ==> ranking[j] == ranking[1..][j - 1];
      assert LastPlace(ranking, ranking[0]) == Some(0);
      assert ranking[0] in picks;
    }
    HasMember(picks);
    TwoDiffer(picks);
  }

  lemma TwoDiffer(s: seq<string>)
    requires Distinct(s)
    ensures |s| >= 2 ==> exists x, y :: x in s && y in s && x != y
  {
    assert |s| >= 2 ==> s[0] in s && s[1] in s && s[0] != s[1];
  }

  // ---------------------------------------------------------------- who is picked in the end

  /** A channel of a service that is read: it stays only with a word that sends to it. */
  predicate NeedsCue(read: string, nt: string) {
    || (read == "gmail_read" && nt in ["gmail_send", "email_send"])
    || (read == "slack_read" && nt in ["slack_post_message", "slack_notify"])
    || (read == "linear_read" && nt == "linear_create_issue")
    || (read == "google_docs_read" && nt == "google_docs_write")
    || (read == "google_calendar_read" && nt == "google_calendar_create_event")
  }

  lemma BleedsWithoutCue(ctx: Context, sources: seq<string>, nt: string)
    ensures Bleeds(DUAL_ROLE, sources, ctx.sent, nt)
       <==> exists read :: read in sources && NeedsCue(read, nt) && !ctx.sent(read, nt)
  {
    var rules := DUAL_ROLE;
    assert rules[0].1 == ["gmail_send", "email_send"] && rules[1].1 == ["slack_post_message", "slack_notify"];
    assert rules[0].1[0] == "gmail_send" && rules[0].1[1] == "email_send";
    assert rules[1].1[0] == "slack_post_message" && rules[1].1[1] == "slack_notify";
    assert rules[2].1[0] == "linear_create_issue" && rules[3].1[0] == "google_docs_write";
    assert rules[4].1[0] == "google_calendar_create_event";
    if read :| read in sources && NeedsCue(read, nt) && !ctx.sent(read, nt) {
      assert exists i, j :: 0 <= i < |rules| && 0 <= j < |rules[i].1|
                            && rules[i].0 in sources && rules[i].1[j] == nt && !ctx.sent(rules[i].0, nt);
    }
  }

  /** No service that is read is written back to without a word for it; all other channels may be picked. */
  lemma SinkPoolExactly(ctx: Context, mapper: Option<Mapper>, byRole: map<Role, seq<string>>, sources: seq<string>,
                        pool: seq<string>, sinks: seq<string>, nt: string)
    requires Resolves(ctx, mapper, byRole, sources, pool, sinks)
    ensures nt in pool <==> nt in SINKS && forall read :: read in sources && NeedsCue(read, nt) ==> ctx.sent(read, nt)
  {
    BleedsWithoutCue(ctx, sources, nt);
  }

  /** The roles for which the voters pick nothing, each with its pool: what the mapper is asked about. */
  ghost predicate Question(asked: map<Role, seq<string>>, sourcePool: seq<string>, sources: seq<string>,
                           sinkPool: seq<string>, sinks: seq<string>) {
    && (forall role :: role in asked <==> (role == Source && sources == []) || (role == Sink && sinks == []))
    && (Source in asked ==> asked[Source] == sourcePool)
    && (Sink in asked ==> asked[Sink] == sinkPool)
  }

  lemma UncertainIsQuestion(sources: seq<string>, pool: seq<string>, sinks: seq<string>)
    ensures Question(Uncertain(sources, pool, sinks), SOURCES, sources, pool, sinks)
    ensures Uncertain(sources, pool, sinks) == map[] <==> sources != [] && sinks != []
  {
    var asked := Uncertain(sources, pool, sinks);
    assert sources == [] ==> Source in asked;
    assert sinks == [] ==> Sink in asked;
  }

  /** What the mapper adds to a candidate of the role: nothing, unless it is asked, answers for it and the candidate
      is in the pool. */
  function MapperVote(answer: map<Role, Scores>, role: Role, pool: seq<string>, nt: string): real {
    if role in answer && nt in answer[role] && nt in pool then answer[role][nt] else 0.0
  }

  lemma EscalatedScore(ctx: Context, role: Role, pool: seq<string>, answer: map<Role, Scores>, nt: string)
    ensures Get(Add(FirstScores(ctx, role, pool), LLM_WEIGHT, Within(answer, role, pool)), nt)
         == Strength(ctx, role, pool, nt) + MapperVote(answer, role, pool, nt)
  {
    ScoreIsStrength(ctx, role, pool, nt);
  }

  /** The role's picks are those that stand by this strength. */
  ghost predicate PickedBy(byRole: map<Role, seq<string>>, role: Role, strength: string -> real) {
    && (role in byRole ==> byRole[role] != [])
    && forall nt :: (role in byRole && nt in byRole[role]) <==> Stands(strength, nt)
  }

  function Voted(ctx: Context, role: Role, pool: seq<string>): string -> real {
    (nt: string) => Strength(ctx, role, pool, nt)
  }

  function Escalated(ctx: Context, role: Role, pool: seq<string>, answer: map<Role, Scores>): string -> real {
    (nt: string) => Strength(ctx, role, pool, nt) + MapperVote(answer, role, pool, nt)
  }

  lemma SettledExactly(ctx: Context, role: Role, pool: seq<string>, first: seq<string>, answer: map<Role, Scores>,
                       byRole: map<Role, seq<string>>)
    requires Settles(ctx, role, pool, first, answer, byRole)
    ensures forall nt :: nt in first <==> Stands(Voted(ctx, role, pool), nt)
    ensures PickedBy(byRole, role, if first != [] then Voted(ctx, role, pool) else Escalated(ctx, role, pool, answer))
  {
    var voted, escalated := Voted(ctx, role, pool), Escalated(ctx, role, pool, answer);
    forall nt ensures Get(FirstScores(ctx, role, pool), nt) == voted(nt) { ScoreIsStrength(ctx, role, pool, nt); }
    SelectsByStrength(FirstScores(ctx, role, pool), first, voted);
    if first == [] {
      var scores := Add(FirstScores(ctx, role, pool), LLM_WEIGHT, Within(answer, role, pool));
      var again :| Selects(scores, again)
                   && if again == [] then role !in byRole else role in byRole && byRole[role] == again;
      forall nt ensures Get(scores, nt) == escalated(nt) { EscalatedScore(ctx, role, pool, answer, nt); }
      SelectsByStrength(scores, again, escalated);
    }
  }

  /** What resolving comes to, in numbers. A role gets the candidates that have at least 0.5 and at least 0.7 times
      what any other has; if there are none, those that have so much with the mapper's vote added. The mapper is
      asked, if there is one, about exactly the roles without picks of the voters. */
  lemma ResolvedExactly(ctx: Context, mapper: Option<Mapper>, byRole: map<Role, seq<string>>, sources: seq<string>,
                        pool: seq<string>, sinks: seq<string>)
    returns (asked: map<Role, seq<string>>, answer: map<Role, Scores>)
    requires Resolves(ctx, mapper, byRole, sources, pool, sinks)
    ensures Question(asked, SOURCES, sources, pool, sinks)
    ensures answer == if mapper.Some? && (sources == [] || sinks == []) then mapper.value(asked) else map[]
    ensures forall nt :: nt in sources <==> Stands(Voted(ctx, Source, SOURCES), nt)
    ensures forall nt :: nt in sinks <==> Stands(Voted(ctx, Sink, pool), nt)
    ensures PickedBy(byRole, Source,
                     if sources != [] then Voted(ctx, Source, SOURCES) else Escalated(ctx, Source, SOURCES, answer))
    ensures PickedBy(byRole, Sink, if sinks != [] then Voted(ctx, Sink, pool) else Escalated(ctx, Sink, pool, answer))
  {
    asked := Uncertain(sources, pool, sinks);
    answer := Asked(mapper, asked);
    UncertainIsQuestion(sources, pool, sinks);
    SettledExactly(ctx, Source, SOURCES, sources, answer, byRole);
    SettledExactly(ctx, Sink, pool, sinks, answer, byRole);
  }

  /** So without a word for a source and without an ontology the source is the first ranked one, whatever the mapper
      would say; and where no source is ranked either, the mapper decides alone. */
  lemma UnnamedSource(ctx: Context, mapper: Option<Mapper>, byRole: map<Role, seq<string>>, sources: seq<string>,
                      pool: seq<string>, sinks: seq<string>)
    requires Resolves(ctx, mapper, byRole, sources, pool, sinks)
    requires forall nt :: nt in SOURCES ==> nt !in ctx.entities.sources && nt !in ctx.allowed
    ensures var ranking := Filter((t: string) => t in SOURCES, ctx.ranked);
            if ranking != [] && ranking[0] !in ranking[1..] then Source in byRole && byRole[Source] == [ranking[0]]
            else sources == []
  {
    RankingAloneBindsTheFirst(ctx, Source, SOURCES, sources);
  }

  /** Likewise for the sinks and their pool. */
  lemma UnnamedSink(ctx: Context, mapper: Option<Mapper>, byRole: map<Role, seq<string>>, sources: seq<string>,
                    pool: seq<string>, sinks: seq<string>)
    requires Resolves(ctx, mapper, byRole, sources, pool, sinks)
    requires forall nt :: nt in pool ==> nt !in ctx.entities.sinks && nt !in ctx.allowed
    ensures var ranking := Filter((t: string) => t in pool, ctx.ranked);
            if ranking != [] && ranking[0] !in ranking[1..] then Sink in byRole && byRole[Sink] == [ranking[0]]
            else sinks == []
  {
    RankingAloneBindsTheFirst(ctx, Sink, pool, sinks);
  }
}
