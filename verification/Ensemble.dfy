/** The slot ensemble: weighted voting, selection and escalation
    (modules/ai_agent/domain/services/slot_ensemble.py, slot_voters.py, and `suppressed_sink_variants` of
    skeleton_entity_extractor.py), with scores over the reals. */
module Ensemble {
  import opened Basics
  import opened Library
  import opened Assembler

  // ---------------------------------------------------------------- voters

  /** `sent(read, write)`: the utterance has a send cue for this write service. */
  datatype Context = Context(
    entities: Entities, ranked: seq<string>, allowed: set<string>, sent: (string, string) -> bool)

  datatype Kind = Lexical | Semantic | Ontology
  datatype Voter = Voter(kind: Kind, weight: real)

  const DEFAULT_VOTERS: seq<Voter> := [Voter(Lexical, 1.0), Voter(Semantic, 0.6), Voter(Ontology, 0.25)]
  const BIND_THRESHOLD: real := 0.5
  const TOP_RATIO: real := 0.7
  const LLM_WEIGHT: real := 1.0

  type Scores = map<string, real>

  function NodesForRole(role: Role, e: Entities): seq<string> {
    if role in {Trigger, Source, Transform, Sink} then Materials(role, e) else []
  }

  /** Reciprocal ranks; of a repeated candidate the last rank counts. */
  function ReciprocalRanks(ranked: seq<string>): Scores
    decreases |ranked|
  {
    if ranked == [] then map[]
    else ReciprocalRanks(ranked[..|ranked| - 1])[ranked[|ranked| - 1] := 1.0 / |ranked| as real]
  }

  function Vote(kind: Kind, ctx: Context, role: Role, pool: seq<string>): Scores {
    match kind
    case Lexical => map nt | nt in NodesForRole(role, ctx.entities) && nt in pool :: 1.0
    case Semantic => ReciprocalRanks(Among(ctx.ranked, pool))
    case Ontology => map nt | nt in pool && nt in ctx.allowed :: 1.0
  }

  function Get(scores: Scores, nt: string): real {
    if nt in scores then scores[nt] else 0.0
  }

  function Weighted(weight: real, vote: real): real {
    weight * vote
  }

  function Add(scores: Scores, weight: real, votes: Scores): Scores {
    map nt | nt in scores.Keys + votes.Keys ::
      if nt in votes then Get(scores, nt) + Weighted(weight, votes[nt]) else scores[nt]
  }

  /** The weighted sum of the votes of the first voters. */
  function Total(voters: seq<Voter>, ctx: Context, role: Role, pool: seq<string>): Scores
    decreases |voters|
  {
    if voters == [] then map[]
    else
      var v := voters[|voters| - 1];
      Add(Total(voters[..|voters| - 1], ctx, role, pool), v.weight, Vote(v.kind, ctx, role, pool))
  }

  /** `r` is `scores` with the votes for `done` added. */
  ghost predicate Added(r: Scores, scores: Scores, weight: real, votes: Scores, done: set<string>) {
    && done <= votes.Keys
    && (forall nt :: nt in r <==> nt in scores || nt in done)
    && (forall nt :: nt in done ==> r[nt] == Get(scores, nt) + Weighted(weight, votes[nt]))
    && (forall nt :: nt in scores && nt !in done ==> r[nt] == scores[nt])
  }

  lemma AddOneVote(r: Scores, scores: Scores, weight: real, votes: Scores, done: set<string>, nt: string)
    requires Added(r, scores, weight, votes, done) && nt in votes && nt !in done
    ensures Added(r[nt := Get(r, nt) + Weighted(weight, votes[nt])], scores, weight, votes, done + {nt})
  {}

  lemma AddedAll(r: Scores, scores: Scores, weight: real, votes: Scores)
    requires Added(r, scores, weight, votes, votes.Keys)
    ensures r == Add(scores, weight, votes)
  {}

  method AddVotes(scores: Scores, weight: real, votes: Scores) returns (r: Scores)
    ensures r == Add(scores, weight, votes)
  {
    r := scores;
    var left := votes.Keys;
    ghost var done: set<string> := {};
    while left != {}
      invariant done + left == votes.Keys && done !! left
      invariant Added(r, scores, weight, votes, done)
      decreases |left|
    {
      var nt :| nt in left;
      AddOneVote(r, scores, weight, votes, done, nt);
      r := r[nt := Get(r, nt) + Weighted(weight, votes[nt])];
      left, done := left - {nt}, done + {nt};
    }
    assert done == votes.Keys;
    AddedAll(r, scores, weight, votes);
  }

  /** `_combine`. */
  method Combine(voters: seq<Voter>, ctx: Context, role: Role, pool: seq<string>, extra: Scores) returns (scores: Scores)
    ensures scores == Add(Total(voters, ctx, role, pool), LLM_WEIGHT, extra)
  {
    scores := map[];
    for k := 0 to |voters|
      invariant scores == Total(voters[..k], ctx, role, pool)
    {
      assert voters[..k + 1][..k] == voters[..k];
      scores := AddVotes(scores, voters[k].weight, Vote(voters[k].kind, ctx, role, pool));
    }
    assert voters[..|voters|] == voters;
    scores := AddVotes(scores, LLM_WEIGHT, extra);
  }

  // ---------------------------------------------------------------- selection

  /** Dictionary order on strings. */
  predicate Precedes(a: string, b: string) {
    if a == "" then b != ""
    else if b == "" then false
    else a[0] < b[0] || (a[0] == b[0] && Precedes(a[1..], b[1..]))
  }

  lemma {:induction false} PrecedesIsTotal(a: string, b: string)
    ensures a != b ==> Precedes(a, b) || Precedes(b, a)
  {
    if a != "" && b != "" && a[0] == b[0] {
      PrecedesIsTotal(a[1..], b[1..]);
      assert a[1..] == b[1..] ==> a == [a[0]] + b[1..] == b;
    }
  }

  lemma {:induction false} PrecedesIsTransitive(a: string, b: string, c: string)
    requires Precedes(a, b) && Precedes(b, c)
    ensures Precedes(a, c)
  {
    if a != "" && b != "" && c != "" && a[0] == b[0] == c[0] {
      PrecedesIsTransitive(a[1..], b[1..], c[1..]);
    }
  }

  /** By score, then by name. */
  predicate Ahead(scores: Scores, a: string, b: string) {
    Get(scores, a) > Get(scores, b) || (Get(scores, a) == Get(scores, b) && Precedes(a, b))
  }

  ghost predicate Ranked(scores: Scores, picks: seq<string>) {
    forall i, j :: 0 <= i < j < |picks| ==> Ahead(scores, picks[i], picks[j])
  }

  /** At or above the floor, and not below the ratio of any other that is. */
  ghost predicate Passes(scores: Scores, nt: string, floor: real, ratio: real) {
    && nt in scores && scores[nt] >= floor
    && forall o :: o in scores && scores[o] >= floor ==> scores[nt] >= scores[o] * ratio
  }

  ghost predicate IsSelection(scores: Scores, floor: real, ratio: real, picks: seq<string>) {
    && Distinct(picks) && Ranked(scores, picks)
    && forall nt :: nt in picks <==> Passes(scores, nt, floor, ratio)
  }

  /** Insertion, as sorting by key does it. */
  method Place(scores: Scores, sorted: seq<string>, nt: string) returns (r: seq<string>)
    requires Ranked(scores, sorted) && Distinct(sorted) && nt !in sorted
    ensures Ranked(scores, r) && Distinct(r)
    ensures forall x :: x in r <==> x in sorted || x == nt
  {
    var k := 0;
    while k < |sorted| && Ahead(scores, sorted[k], nt)
      invariant k <= |sorted| && forall i :: 0 <= i < k ==> Ahead(scores, sorted[i], nt)
    {
      k := k + 1;
    }
    r := sorted[..k] + [nt] + sorted[k..];
    if k < |sorted| {
      PrecedesIsTotal(sorted[k], nt);
      assert Ahead(scores, nt, sorted[k]);
      forall j | k <= j < |sorted| ensures Ahead(scores, nt, sorted[j]) {
        if j > k { AheadIsTransitive(scores, nt, sorted[k], sorted[j]); }
      }
    }
    assert sorted == sorted[..k] + sorted[k..];
  }

  lemma AheadIsTransitive(scores: Scores, a: string, b: string, c: string)
    requires Ahead(scores, a, b) && Ahead(scores, b, c)
    ensures Ahead(scores, a, c)
  {
    if Precedes(a, b) && Precedes(b, c) { PrecedesIsTransitive(a, b, c); }
  }

  /** `_select`. */
  method Select(scores: Scores, floor: real, ratio: real) returns (picks: seq<string>)
    requires ratio >= 0.0
    ensures IsSelection(scores, floor, ratio, picks)
  {
    var above := set nt | nt in scores && scores[nt] >= floor;
    picks := [];
    assert forall nt :: nt in scores && scores[nt] >= floor ==> nt in above;
    if above == {} {
      return;
    }
    var top := MaxScore(scores, above);
    var cutoff := top * ratio;
    var left := set nt | nt in above && scores[nt] >= cutoff;
    ghost var kept := left;
    while left != {}
      invariant left <= kept && Distinct(picks) && Ranked(scores, picks)
      invariant forall nt :: nt in picks <==> nt in kept - left
      decreases |left|
    {
      var nt :| nt in left;
      picks := Place(scores, picks, nt);
      left := left - {nt};
    }
    forall nt ensures nt in kept <==> Passes(scores, nt, floor, ratio) {
      PassesTheCutoff(scores, above, top, floor, ratio, nt);
    }
  }

  lemma PassesTheCutoff(scores: Scores, above: set<string>, top: real, floor: real, ratio: real, nt: string)
    requires ratio >= 0.0 && forall o :: o in above <==> o in scores && scores[o] >= floor
    requires (exists o :: o in above && scores[o] == top) && forall o :: o in above ==> scores[o] <= top
    ensures Passes(scores, nt, floor, ratio) <==> nt in above && scores[nt] >= top * ratio
  {
    if nt in above && scores[nt] >= top * ratio {
      forall o | o in scores && scores[o] >= floor ensures scores[nt] >= scores[o] * ratio {
        assert o in above;
        Scaled(scores[o], top, ratio);
      }
    }
  }

  lemma Scaled(a: real, b: real, r: real)
    requires a <= b && r >= 0.0
    ensures a * r <= b * r
  {}

  method MaxScore(scores: Scores, names: set<string>) returns (top: real)
    requires names != {} && forall nt :: nt in names ==> nt in scores
    ensures (exists nt :: nt in names && scores[nt] == top) && forall nt :: nt in names ==> scores[nt] <= top
  {
    var best :| best in names;
    var left := names - {best};
    while left != {}
      invariant best in names && left <= names
      invariant forall nt :: nt in names - left ==> scores[nt] <= scores[best]
      decreases |left|
    {
      var nt :| nt in left;
      if scores[nt] > scores[best] {
        best := nt;
      }
      left := left - {nt};
    }
    top := scores[best];
  }

  lemma HasMember(q: seq<string>)
    ensures q != [] ==> exists x :: x in q
  {
    if q != [] { assert q[0] in q; }
  }

  /** The picks are determined by the scores. */
  lemma {:induction false} SelectionIsUnique(scores: Scores, p: seq<string>, q: seq<string>)
    requires Ranked(scores, p) && Ranked(scores, q) && Distinct(p) && Distinct(q)
    requires forall nt :: nt in p <==> nt in q
    ensures p == q
    decreases |p|
  {
    if p == [] {
      HasMember(q);
    } else {
      assert p[0] in p && p[0] in q && q != [] && q[0] in q && q[0] in p;
      if p[0] != q[0] {
        var i :| 0 <= i < |q| && q[i] == p[0];
        var j :| 0 <= j < |p| && p[j] == q[0];
        AheadIsAsymmetric(scores, p[0], q[0]);
      }
      forall nt ensures nt in p[1..] <==> nt in q[1..] {
        assert nt in p <==> nt == p[0] || nt in p[1..];
        assert nt in q <==> nt == q[0] || nt in q[1..];
      }
      SelectionIsUnique(scores, p[1..], q[1..]);
    }
  }

  lemma {:induction false} PrecedesIsAsymmetric(a: string, b: string)
    ensures !(Precedes(a, b) && Precedes(b, a))
  {
    if a != "" && b != "" && a[0] == b[0] { PrecedesIsAsymmetric(a[1..], b[1..]); }
  }

  lemma AheadIsAsymmetric(scores: Scores, a: string, b: string)
    ensures !(Ahead(scores, a, b) && Ahead(scores, b, a))
  {
    PrecedesIsAsymmetric(a, b);
  }

  // ---------------------------------------------------------------- direction of services

  /** Services that are read and written: the read node, and its write nodes. */
  const DUAL_ROLE: seq<(string, seq<string>)> := [
    ("gmail_read", ["gmail_send", "email_send"]),
    ("slack_read", ["slack_post_message", "slack_notify"]),
    ("linear_read", ["linear_create_issue"]),
    ("google_docs_read", ["google_docs_write"]),
    ("google_calendar_read", ["google_calendar_create_event"])]

  type Rule = (string, seq<string>)

  /** The write node belongs to a service that is read, and nothing in the utterance sends to it. */
  ghost predicate Bleeds(rules: seq<Rule>, sources: seq<string>, sent: (string, string) -> bool, write: string) {
    exists i, j :: 0 <= i < |rules| && 0 <= j < |rules[i].1|
                   && rules[i].0 in sources && rules[i].1[j] == write && !sent(rules[i].0, write)
  }

  /** `suppressed_sink_variants`. */
  method SuppressedSinkVariants(rules: seq<Rule>, sources: seq<string>, sent: (string, string) -> bool)
    returns (drop: set<string>)
    ensures forall write :: write in drop <==> Bleeds(rules, sources, sent, write)
  {
    drop := {};
    for i := 0 to |rules|
      invariant forall write :: write in drop <==> Bleeds(rules[..i], sources, sent, write)
    {
      var (read, writes) := rules[i];
      var before := drop;
      if read in sources {
        for j := 0 to |writes|
          invariant forall write :: write in drop <==>
                      write in before || exists k :: 0 <= k < j && writes[k] == write && !sent(read, write)
        {
          if !sent(read, writes[j]) {
            drop := drop + {writes[j]};
          }
        }
      }
      forall write ensures write in drop <==> Bleeds(rules[..i + 1], sources, sent, write) {
        BleedsStep(rules, i, sources, sent, write);
      }
    }
    assert rules[..|rules|] == rules;
  }

  lemma BleedsStep(rules: seq<Rule>, n: nat, sources: seq<string>, sent: (string, string) -> bool, write: string)
    requires n < |rules|
    ensures Bleeds(rules[..n + 1], sources, sent, write) <==>
              || Bleeds(rules[..n], sources, sent, write)
              || (rules[n].0 in sources
                  && exists k :: 0 <= k < |rules[n].1| && rules[n].1[k] == write && !sent(rules[n].0, write))
  {
    var less, more := rules[..n], rules[..n + 1];
    assert more[n] == rules[n] && forall i :: 0 <= i < n ==> more[i] == less[i];
    if Bleeds(more, sources, sent, write) {
      var i, j :| 0 <= i < |more| && 0 <= j < |more[i].1|
                  && more[i].0 in sources && more[i].1[j] == write && !sent(more[i].0, write);
      assert i < n ==> less[i].1[j] == write;
    }
    if Bleeds(less, sources, sent, write) {
      var i, j :| 0 <= i < |less| && 0 <= j < |less[i].1|
                  && less[i].0 in sources && less[i].1[j] == write && !sent(less[i].0, write);
      assert more[i].1[j] == write;
    }
    if k :| rules[n].0 in sources && 0 <= k < |rules[n].1| && rules[n].1[k] == write && !sent(rules[n].0, write) {
      assert more[n].1[k] == write;
    }
  }

  // ---------------------------------------------------------------- resolving

  type Mapper = map<Role, seq<string>> -> map<Role, Scores>

  ghost predicate IsSinkPool(ctx: Context, sources: seq<string>, pool: seq<string>) {
    forall nt :: nt in pool <==> nt in SINKS && !Bleeds(DUAL_ROLE, sources, ctx.sent, nt)
  }

  function FirstScores(ctx: Context, role: Role, pool: seq<string>): Scores {
    Total(DEFAULT_VOTERS, ctx, role, pool)
  }

  function Within(llm: map<Role, Scores>, role: Role, pool: seq<string>): Scores {
    if role in llm then map nt | nt in llm[role] && nt in pool :: llm[role][nt] else map[]
  }

  ghost predicate Selects(scores: Scores, picks: seq<string>) {
    IsSelection(scores, BIND_THRESHOLD, TOP_RATIO, picks)
  }

  /** What the resolver does for one role: the picks of the voters, or else of voters and mapper. */
  ghost predicate Settles(ctx: Context, role: Role, pool: seq<string>, first: seq<string>,
                          llm: map<Role, Scores>, byRole: map<Role, seq<string>>) {
    && Selects(FirstScores(ctx, role, pool), first)
    && if first != [] then role in byRole && byRole[role] == first
       else
         exists again :: && Selects(Add(FirstScores(ctx, role, pool), LLM_WEIGHT, Within(llm, role, pool)), again)
                         && (if again == [] then role !in byRole else role in byRole && byRole[role] == again)
  }

  function Uncertain(sourcePicks: seq<string>, sinkPool: seq<string>, sinkPicks: seq<string>): map<Role, seq<string>> {
    (if sourcePicks == [] then map[Source := SOURCES] else map[])
    + if sinkPicks == [] then map[Sink := sinkPool] else map[]
  }

  /** The mapper is asked only when a role is uncertain. */
  function Asked(mapper: Option<Mapper>, uncertain: map<Role, seq<string>>): map<Role, Scores> {
    if uncertain != map[] && mapper.Some? then mapper.value(uncertain) else map[]
  }

  ghost predicate Resolves(ctx: Context, mapper: Option<Mapper>, byRole: map<Role, seq<string>>,
                           sources: seq<string>, pool: seq<string>, sinks: seq<string>) {
    var llm := Asked(mapper, Uncertain(sources, pool, sinks));
    && IsSinkPool(ctx, sources, pool)
    && Settles(ctx, Source, SOURCES, sources, llm, byRole)
    && Settles(ctx, Sink, pool, sinks, llm, byRole)
    && forall role :: role in byRole ==> role in {Source, Sink}
  }

  method FirstPass(ctx: Context, role: Role, pool: seq<string>) returns (picks: seq<string>)
    ensures Selects(FirstScores(ctx, role, pool), picks)
  {
    var scores := Combine(DEFAULT_VOTERS, ctx, role, pool, map[]);
    assert scores == FirstScores(ctx, role, pool);
    picks := Select(scores, BIND_THRESHOLD, TOP_RATIO);
  }

  method Escalate(ctx: Context, role: Role, pool: seq<string>, llm: map<Role, Scores>) returns (picks: seq<string>)
    ensures Selects(Add(FirstScores(ctx, role, pool), LLM_WEIGHT, Within(llm, role, pool)), picks)
  {
    var scores := Combine(DEFAULT_VOTERS, ctx, role, pool, Within(llm, role, pool));
    picks := Select(scores, BIND_THRESHOLD, TOP_RATIO);
  }

  method SinkPool(ctx: Context, sources: seq<string>) returns (pool: seq<string>)
    ensures IsSinkPool(ctx, sources, pool)
  {
    var drop := SuppressedSinkVariants(DUAL_ROLE, sources, ctx.sent);
    pool := Filter((nt: string) => nt !in drop, SINKS);
    FilterKeeps((nt: string) => nt !in drop, SINKS);
  }

  /** Adds a role's picks, unless there are none. */
  function With(byRole: map<Role, seq<string>>, role: Role, picks: seq<string>): map<Role, seq<string>> {
    if picks == [] then byRole else byRole[role := picks]
  }

  lemma NoExtra(scores: Scores)
    ensures Add(scores, LLM_WEIGHT, map[]) == scores
  {}

  /** A role's second round; without an answer from the mapper there is none. */
  method Settle(ctx: Context, role: Role, pool: seq<string>, first: seq<string>, asked: bool, llm: map<Role, Scores>,
                byRole: map<Role, seq<string>>)
    returns (r: map<Role, seq<string>>)
    requires Selects(FirstScores(ctx, role, pool), first) && role !in byRole
    requires !asked ==> llm == map[]
    ensures Settles(ctx, role, pool, first, llm, r)
    ensures forall other :: other != role ==> (other in r <==> other in byRole)
    ensures forall other :: other != role && other in byRole ==> r[other] == byRole[other]
  {
    if first != [] {
      return byRole[role := first];
    }
    if !asked {
      NoExtra(FirstScores(ctx, role, pool));
      assert Within(llm, role, pool) == map[];
      assert Selects(Add(FirstScores(ctx, role, pool), LLM_WEIGHT, Within(llm, role, pool)), first);
      return byRole;
    }
    var again := Escalate(ctx, role, pool, llm);
    r := With(byRole, role, again);
  }

  lemma SettlesElsewhere(ctx: Context, role: Role, pool: seq<string>, first: seq<string>, llm: map<Role, Scores>,
                         before: map<Role, seq<string>>, after: map<Role, seq<string>>)
    requires Settles(ctx, role, pool, first, llm, before)
    requires (role in after <==> role in before) && (role in before ==> after[role] == before[role])
    ensures Settles(ctx, role, pool, first, llm, after)
  {}

  /** `_resolve_ctx` for the roles source and sink; the last three results are what it went through. */
  method ResolveContext(ctx: Context, mapper: Option<Mapper>)
    returns (byRole: map<Role, seq<string>>, sources: seq<string>, pool: seq<string>, sinks: seq<string>)
    ensures Resolves(ctx, mapper, byRole, sources, pool, sinks)
  {
    sources := FirstPass(ctx, Source, SOURCES);
    pool := SinkPool(ctx, sources);
    sinks := FirstPass(ctx, Sink, pool);
    var uncertain := Uncertain(sources, pool, sinks);
    var asked := uncertain != map[] && mapper.Some?;
    var llm := Asked(mapper, uncertain);
    var half := Settle(ctx, Source, SOURCES, sources, asked, llm, map[]);
    byRole := Settle(ctx, Sink, pool, sinks, asked, llm, half);
    SettlesElsewhere(ctx, Source, SOURCES, sources, llm, half, byRole);
  }

  // ---------------------------------------------------------------- what the votes amount to

  lemma {:induction false} RanksAreFractions(ranked: seq<string>, nt: string)
    ensures nt in ReciprocalRanks(ranked) <==> nt in ranked
    ensures nt in ranked ==> 0.0 < ReciprocalRanks(ranked)[nt] <= 1.0
    decreases |ranked|
  {
    if ranked != [] {
      var n := |ranked|;
      RanksAreFractions(ranked[..n - 1], nt);
      assert ranked == ranked[..n - 1] + [ranked[n - 1]];
      assert 0.0 < 1.0 / n as real <= 1.0;
    }
  }

  predicate IsHit(ctx: Context, role: Role, pool: seq<string>, nt: string) {
    nt in NodesForRole(role, ctx.entities) && nt in pool
  }

  function SemanticVote(ctx: Context, pool: seq<string>, nt: string): real {
    Get(ReciprocalRanks(Among(ctx.ranked, pool)), nt)
  }

  function OntologyVote(ctx: Context, pool: seq<string>, nt: string): real {
    if nt in pool && nt in ctx.allowed then 1.0 else 0.0
  }

  lemma TotalUnfolds(voters: seq<Voter>, v: Voter, ctx: Context, role: Role, pool: seq<string>)
    ensures Total(voters + [v], ctx, role, pool) == Add(Total(voters, ctx, role, pool), v.weight, Vote(v.kind, ctx, role, pool))
  {
    assert (voters + [v])[..|voters|] == voters;
  }

  /** The score with the default weights. */
  lemma DefaultScore(ctx: Context, role: Role, pool: seq<string>, nt: string)
    ensures Get(FirstScores(ctx, role, pool), nt)
         == (if IsHit(ctx, role, pool, nt) then 1.0 else 0.0)
            + 0.6 * SemanticVote(ctx, pool, nt) + 0.25 * OntologyVote(ctx, pool, nt)
    ensures 0.0 <= SemanticVote(ctx, pool, nt) <= 1.0 && 0.0 <= OntologyVote(ctx, pool, nt) <= 1.0
    ensures nt in FirstScores(ctx, role, pool) ==> nt in pool
    ensures IsHit(ctx, role, pool, nt) ==> nt in FirstScores(ctx, role, pool)
  {
    var ranked := Among(ctx.ranked, pool);
    var lexical, semantic, ontology := Voter(Lexical, 1.0), Voter(Semantic, 0.6), Voter(Ontology, 0.25);
    RanksAreFractions(ranked, nt);
    FilterMember((t: string) => t in pool, ctx.ranked, nt);
    TotalUnfolds([], lexical, ctx, role, pool);
    TotalUnfolds([lexical], semantic, ctx, role, pool);
    TotalUnfolds([lexical, semantic], ontology, ctx, role, pool);
    assert [] + [lexical] == [lexical] && [lexical] + [semantic] == [lexical, semantic];
    assert [lexical, semantic] + [ontology] == DEFAULT_VOTERS;
  }

  lemma {:induction false} BestExists(scores: Scores, names: set<string>) returns (best: string)
    requires names != {} && forall nt :: nt in names ==> nt in scores
    ensures best in names && forall nt :: nt in names ==> scores[nt] <= scores[best]
    decreases |names|
  {
    var one :| one in names;
    best := one;
    if names != {one} {
      var rest := names - {one};
      assert rest != {};
      best := BestExists(scores, rest);
      if scores[one] > scores[best] { best := one; }
    }
  }

  /** The first pick is a best-scoring candidate. */
  lemma FirstPickIsBest(scores: Scores, picks: seq<string>, nt: string)
    requires Selects(scores, picks) && nt in scores && scores[nt] >= BIND_THRESHOLD
    ensures picks != [] && picks[0] in scores && scores[nt] <= scores[picks[0]]
  {
    var best := BestExists(scores, scores.Keys);
    forall o | o in scores && scores[o] >= BIND_THRESHOLD ensures scores[best] >= scores[o] * TOP_RATIO {}
    assert Passes(scores, best, BIND_THRESHOLD, TOP_RATIO) && best in picks;
    var i :| 0 <= i < |picks| && picks[i] == best;
    assert picks[0] in picks;
    assert i > 0 ==> Ahead(scores, picks[0], picks[i]);
  }

  // ---------------------------------------------------------------- the theorems

  /** A role with a hit in its pool gets a hit as its first pick. */
  lemma HitLeads(ctx: Context, role: Role, pool: seq<string>, picks: seq<string>, hit: string)
    requires Selects(FirstScores(ctx, role, pool), picks) && IsHit(ctx, role, pool, hit)
    ensures picks != [] && IsHit(ctx, role, pool, picks[0])
  {
    DefaultScore(ctx, role, pool, hit);
    FirstPickIsBest(FirstScores(ctx, role, pool), picks, hit);
    DefaultScore(ctx, role, pool, picks[0]);
  }

  /** Then the role is not sent to the mapper, and its picks do not depend on the mapper. */
  lemma HitIsNeverEscalated(ctx: Context, mapper: Option<Mapper>, byRole: map<Role, seq<string>>,
                            sources: seq<string>, pool: seq<string>, sinks: seq<string>, hit: string)
    requires Resolves(ctx, mapper, byRole, sources, pool, sinks)
    ensures IsHit(ctx, Source, SOURCES, hit) ==>
              && Source !in Uncertain(sources, pool, sinks)
              && Source in byRole && byRole[Source] == sources && IsHit(ctx, Source, SOURCES, sources[0])
    ensures IsHit(ctx, Sink, pool, hit) ==>
              && Sink !in Uncertain(sources, pool, sinks)
              && Sink in byRole && byRole[Sink] == sinks && IsHit(ctx, Sink, pool, sinks[0])
  {
    if IsHit(ctx, Source, SOURCES, hit) { HitLeads(ctx, Source, SOURCES, sources, hit); }
    if IsHit(ctx, Sink, pool, hit) { HitLeads(ctx, Sink, pool, sinks, hit); }
  }

  /** Pools with the same members, whatever their order, filter and score alike. */
  lemma PoolOrderIsIrrelevant(ctx: Context, role: Role, pool: seq<string>, pool': seq<string>)
    requires forall nt :: nt in pool <==> nt in pool'
    ensures FirstScores(ctx, role, pool) == FirstScores(ctx, role, pool')
  {
    FilterAgree((t: string) => t in pool, (t: string) => t in pool', ctx.ranked);
    forall kind: Kind ensures Vote(kind, ctx, role, pool) == Vote(kind, ctx, role, pool') {}
    SameVotes(DEFAULT_VOTERS, ctx, role, pool, pool');
  }

  lemma {:induction false} SameVotes(voters: seq<Voter>, ctx: Context, role: Role, pool: seq<string>, pool': seq<string>)
    requires forall kind: Kind :: Vote(kind, ctx, role, pool) == Vote(kind, ctx, role, pool')
    ensures Total(voters, ctx, role, pool) == Total(voters, ctx, role, pool')
    decreases |voters|
  {
    if voters != [] { SameVotes(voters[..|voters| - 1], ctx, role, pool, pool'); }
  }

  /** Two runs on one context differ, whatever their mappers, only in roles the voters left empty. */
  lemma EscalationOnlyFillsGaps(ctx: Context, m: Option<Mapper>, n: Option<Mapper>,
                                a: map<Role, seq<string>>, b: map<Role, seq<string>>, sources: seq<string>,
                                sources': seq<string>, pool: seq<string>, pool': seq<string>, sinks: seq<string>,
                                sinks': seq<string>)
    requires Resolves(ctx, m, a, sources, pool, sinks) && Resolves(ctx, n, b, sources', pool', sinks')
    ensures sources == sources' && sinks == sinks'
    ensures sources != [] ==> Source in a && Source in b && a[Source] == b[Source]
    ensures sinks != [] ==> Sink in a && Sink in b && a[Sink] == b[Sink]
  {
    SelectionIsUnique(FirstScores(ctx, Source, SOURCES), sources, sources');
    PoolOrderIsIrrelevant(ctx, Sink, pool, pool');
    SelectionIsUnique(FirstScores(ctx, Sink, pool), sinks, sinks');
  }

  /** Neither hit nor ranked: such a candidate is not picked by the voters. */
  lemma OntologyAloneNeverBinds(ctx: Context, role: Role, pool: seq<string>, picks: seq<string>, nt: string)
    requires Selects(FirstScores(ctx, role, pool), picks)
    requires !IsHit(ctx, role, pool, nt) && nt !in ctx.ranked
    ensures nt !in picks
  {
    DefaultScore(ctx, role, pool, nt);
    RanksAreFractions(Among(ctx.ranked, pool), nt);
    FilterMember((t: string) => t in pool, ctx.ranked, nt);
  }

  lemma ScoredAreInPool(ctx: Context, role: Role, pool: seq<string>, llm: map<Role, Scores>)
    ensures forall nt :: nt in Add(FirstScores(ctx, role, pool), LLM_WEIGHT, Within(llm, role, pool)) ==> nt in pool
    ensures forall nt :: nt in FirstScores(ctx, role, pool) ==> nt in pool
  {
    forall nt | nt in FirstScores(ctx, role, pool) ensures nt in pool { DefaultScore(ctx, role, pool, nt); }
  }

  /** All picks, escalated or not, are distinct members of the role's pool, no suppressed sink among them. */
  lemma PicksAreDistinctPoolMembers(ctx: Context, mapper: Option<Mapper>, byRole: map<Role, seq<string>>,
                                    sources: seq<string>, pool: seq<string>, sinks: seq<string>)
    requires Resolves(ctx, mapper, byRole, sources, pool, sinks)
    ensures forall role :: role in byRole ==> byRole[role] != [] && Distinct(byRole[role])
    ensures Source in byRole ==> forall nt :: nt in byRole[Source] ==> nt in SOURCES
    ensures Sink in byRole ==>
              forall nt :: nt in byRole[Sink] ==> nt in SINKS && !Bleeds(DUAL_ROLE, sources, ctx.sent, nt)
  {
    var llm := Asked(mapper, Uncertain(sources, pool, sinks));
    ScoredAreInPool(ctx, Source, SOURCES, llm);
    ScoredAreInPool(ctx, Sink, pool, llm);
  }

  /** A named candidate is picked exactly when no other scores so much more that the ratio cuts it off. */
  lemma NamedSurvivesCutExactly(ctx: Context, role: Role, pool: seq<string>, picks: seq<string>, hit: string)
    requires Selects(FirstScores(ctx, role, pool), picks) && IsHit(ctx, role, pool, hit)
    ensures var scores := FirstScores(ctx, role, pool);
            hit in picks <==> forall o :: o in scores ==> Get(scores, hit) >= scores[o] * TOP_RATIO
  {
    var scores := FirstScores(ctx, role, pool);
    DefaultScore(ctx, role, pool, hit);
    assert hit in picks <==> Passes(scores, hit, BIND_THRESHOLD, TOP_RATIO);
  }

  lemma OneRank(a: string)
    ensures ReciprocalRanks([a]) == map[a := 1.0]
  {
    assert [a][..0] == [];
  }

  lemma RankedAlone(ctx: Context, pool: seq<string>, a: string, nt: string)
    requires ctx.ranked == [a] && ctx.allowed == {} && a in pool
    ensures SemanticVote(ctx, pool, nt) == (if nt == a then 1.0 else 0.0) && OntologyVote(ctx, pool, nt) == 0.0
  {
    FilterAll((t: string) => t in pool, ctx.ranked);
    OneRank(a);
  }

  /** So the cut can drop a sink the user named: next to a named sink that retrieval ranks first, one that
      it does not rank is dropped. (The assembler puts it back: `EveryNamedSinkIsANode`.) */
  lemma RatioCutDropsANamedSink(ctx: Context, pool: seq<string>, picks: seq<string>, a: string, b: string)
    requires Selects(FirstScores(ctx, Sink, pool), picks)
    requires a != b && IsHit(ctx, Sink, pool, a) && IsHit(ctx, Sink, pool, b)
    requires ctx.ranked == [a] && ctx.allowed == {}
    ensures a in picks && b !in picks
  {
    var scores := FirstScores(ctx, Sink, pool);
    DefaultScore(ctx, Sink, pool, a);
    DefaultScore(ctx, Sink, pool, b);
    RankedAlone(ctx, pool, a, a);
    RankedAlone(ctx, pool, a, b);
    NamedSurvivesCutExactly(ctx, Sink, pool, picks, a);
    NamedSurvivesCutExactly(ctx, Sink, pool, picks, b);
    forall o | o in scores ensures Get(scores, a) >= scores[o] * TOP_RATIO {
      DefaultScore(ctx, Sink, pool, o);
      RankedAlone(ctx, pool, a, o);
    }
  }
}
