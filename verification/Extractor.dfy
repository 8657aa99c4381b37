/** Lexical extraction of slot materials
    (modules/ai_agent/domain/services/skeleton_entity_extractor.py): order of appearance, the direction
    rule and the removal of duplicate channels. Where a node type's keywords first occur is a parameter. */
module Extractor {
  import opened Basics
  import opened Library
  import opened Assembler
  import opened Ensemble

  /** Earliest position of one of the node type's keywords in the utterance. */
  type Positions = string -> Option<nat>

  /** The place of a node type in the rule table. */
  function RuleIndex(rules: seq<string>, nt: string): nat {
    if rules == [] || rules[0] == nt then 0 else 1 + RuleIndex(rules[1..], nt)
  }

  predicate Earlier(rules: seq<string>, at: Positions, a: string, b: string) {
    && at(a).Some? && at(b).Some?
    && (at(a).value < at(b).value || (at(a).value == at(b).value && RuleIndex(rules, a) < RuleIndex(rules, b)))
  }

  /** By first occurrence; on a tie, by rule. */
  ghost predicate InOrder(rules: seq<string>, at: Positions, types: seq<string>) {
    forall i, j :: 0 <= i < j < |types| ==> Earlier(rules, at, types[i], types[j])
  }

  lemma {:induction false} RuleIndexAt(rules: seq<string>, k: nat)
    requires Distinct(rules) && k < |rules|
    ensures RuleIndex(rules, rules[k]) == k
  {
    if k > 0 {
      assert rules[0] != rules[k] && rules[1..][k - 1] == rules[k];
      RuleIndexAt(rules[1..], k - 1);
    }
  }

  lemma EarlierIsTransitive(rules: seq<string>, at: Positions, a: string, b: string, c: string)
    requires Earlier(rules, at, a, b) && Earlier(rules, at, b, c)
    ensures Earlier(rules, at, a, c)
  {}

  lemma InsertedInOrder(rules: seq<string>, at: Positions, types: seq<string>, nt: string, k: nat)
    requires InOrder(rules, at, types) && k <= |types|
    requires forall i :: 0 <= i < k ==> Earlier(rules, at, types[i], nt)
    requires k < |types| ==> Earlier(rules, at, nt, types[k])
    ensures InOrder(rules, at, types[..k] + [nt] + types[k..])
  {
    forall j | k <= j < |types| ensures Earlier(rules, at, nt, types[j]) {
      if j > k { EarlierIsTransitive(rules, at, nt, types[k], types[j]); }
    }
  }

  /** Stable insertion by position: behind everything that occurs no later. */
  method Insert(rules: seq<string>, at: Positions, types: seq<string>, nt: string) returns (r: seq<string>)
    requires InOrder(rules, at, types) && at(nt).Some?
    requires forall i :: 0 <= i < |types| ==> at(types[i]).Some? && RuleIndex(rules, types[i]) < RuleIndex(rules, nt)
    ensures InOrder(rules, at, r) && forall t :: t in r <==> t in types || t == nt
  {
    var k := 0;
    while k < |types| && at(types[k]).value <= at(nt).value
      invariant k <= |types| && forall i :: 0 <= i < k ==> Earlier(rules, at, types[i], nt)
    {
      k := k + 1;
    }
    InsertedInOrder(rules, at, types, nt, k);
    r := types[..k] + [nt] + types[k..];
    assert types == types[..k] + types[k..];
  }

  /** `_match_ordered`. */
  method MatchOrdered(rules: seq<string>, at: Positions) returns (types: seq<string>)
    requires Distinct(rules)
    ensures InOrder(rules, at, types)
    ensures forall t :: t in types <==> t in rules && at(t).Some?
  {
    types := [];
    for k := 0 to |rules|
      invariant InOrder(rules, at, types)
      invariant forall t :: t in types <==> t in rules[..k] && at(t).Some?
      invariant forall t :: t in types ==> RuleIndex(rules, t) < k
    {
      RuleIndexAt(rules, k);
      assert rules[..k + 1] == rules[..k] + [rules[k]];
      assert rules[k] !in rules[..k];
      if at(rules[k]).Some? {
        forall i | 0 <= i < |types| ensures at(types[i]).Some? && RuleIndex(rules, types[i]) < k {
          assert types[i] in types;
        }
        types := Insert(rules, at, types, rules[k]);
      }
    }
    assert rules[..|rules|] == rules;
  }

  /** What is in order has no repetition. */
  lemma InOrderIsDistinct(rules: seq<string>, at: Positions, types: seq<string>)
    requires InOrder(rules, at, types)
    ensures Distinct(types)
  {}

  lemma {:induction false} FilterInOrder(rules: seq<string>, at: Positions, types: seq<string>, p: string -> bool)
    requires InOrder(rules, at, types)
    ensures InOrder(rules, at, Filter(p, types))
  {
    if types != [] {
      var n := |types| - 1;
      FilterInOrder(rules, at, types[..n], p);
      FilterKeeps(p, types[..n]);
      var kept := Filter(p, types[..n]);
      forall i | 0 <= i < |kept| ensures Earlier(rules, at, kept[i], types[n]) {
        assert kept[i] in kept;
        var j :| 0 <= j < n && types[..n][j] == kept[i];
        assert types[j] == kept[i];
      }
    }
  }

  // ---------------------------------------------------------------- the whole extraction

  /** The node types of the rule tables. */
  const SOURCE_RULES: seq<string> := [
    "gmail_read", "slack_read", "linear_read", "google_docs_read", "google_calendar_read",
    "google_sheets_read", "google_drive_read", "bigquery_query", "postgresql_query", "mysql_query", "graphql",
    "rest_api", "http_request", "file_read"]
  const TRANSFORM_RULES: seq<string> := ["gemma_chat"]
  const SINK_RULES: seq<string> := [
    "slack_post_message", "gmail_send", "email_send", "google_docs_write", "pdf_generate",
    "linear_create_issue", "google_calendar_create_event", "file_write"]

  const DRIVE: string := "google_drive_read"
  const FILE_READ: string := "file_read"
  const GMAIL: string := "gmail_send"
  const EMAIL: string := "email_send"

  /** Where the tables lead, and which flags the other keyword lists raise. */
  datatype Hearing = Hearing(
    at: Positions, sent: (string, string) -> bool, trigger: Option<string>,
    needsGate: bool, hasBranch: bool, hasFanout: bool, hasRetry: bool, hasApproval: bool, hasGuard: bool)

  /** The rule tables: no node type twice, and each in the pool of its role. */
  ghost predicate Tables(sources: seq<string>, transforms: seq<string>, sinks: seq<string>) {
    && Distinct(sources) && Distinct(transforms) && Distinct(sinks)
    && (forall t :: t in sources ==> t in SOURCES)
    && (forall t :: t in transforms ==> t in AI)
    && (forall t :: t in sinks ==> t in SINKS)
  }

  function Dropping(types: seq<string>, general: string): seq<string> {
    Filter((t: string) => t != general, types)
  }

  method ExtractSources(rules: seq<string>, at: Positions) returns (sources: seq<string>)
    requires Distinct(rules)
    ensures InOrder(rules, at, sources)
    ensures forall t :: t in sources <==>
              t in rules && at(t).Some? && !(t == FILE_READ && DRIVE in rules && at(DRIVE).Some?)
  {
    sources := MatchOrdered(rules, at);
    if DRIVE in sources && FILE_READ in sources {
      FilterInOrder(rules, at, sources, (t: string) => t != FILE_READ);
      FilterKeeps((t: string) => t != FILE_READ, sources);
      sources := Dropping(sources, FILE_READ);
    }
  }

  /** The utterance has it, and it does not go back to a service that is only read. */
  ghost predicate Survives(rules: seq<string>, dual: seq<Rule>, sources: seq<string>, h: Hearing, t: string) {
    t in rules && h.at(t).Some? && !Bleeds(dual, sources, h.sent, t)
  }

  method ExtractSinks(rules: seq<string>, dual: seq<Rule>, sources: seq<string>, h: Hearing) returns (sinks: seq<string>)
    requires Distinct(rules)
    ensures InOrder(rules, h.at, sinks)
    ensures forall t :: t in sinks <==>
              Survives(rules, dual, sources, h, t) && !(t == EMAIL && Survives(rules, dual, sources, h, GMAIL))
  {
    sinks := MatchOrdered(rules, h.at);
    var drop := SuppressedSinkVariants(dual, sources, h.sent);
    FilterInOrder(rules, h.at, sinks, (t: string) => t !in drop);
    FilterKeeps((t: string) => t !in drop, sinks);
    sinks := Filter((t: string) => t !in drop, sinks);
    if GMAIL in sinks && EMAIL in sinks {
      FilterInOrder(rules, h.at, sinks, (t: string) => t != EMAIL);
      FilterKeeps((t: string) => t != EMAIL, sinks);
      sinks := Dropping(sinks, EMAIL);
    }
  }

  /** `extract`. Everything heard comes in order of appearance; a sink is kept if and only if it does not go back to
      a service that is only read and is not the general channel beside the specific one; the flags are passed on;
      and the result is what assembly expects. */
  method Extract(sourceRules: seq<string>, transformRules: seq<string>, sinkRules: seq<string>, dual: seq<Rule>,
                 h: Hearing)
    returns (e: Entities)
    requires Tables(sourceRules, transformRules, sinkRules)
    ensures Extracted(e)
    ensures InOrder(sourceRules, h.at, e.sources) && InOrder(sinkRules, h.at, e.sinks)
    ensures InOrder(transformRules, h.at, e.transforms)
    ensures forall t :: t in e.sources <==>
              t in sourceRules && h.at(t).Some? && !(t == FILE_READ && DRIVE in sourceRules && h.at(DRIVE).Some?)
    ensures forall t :: t in e.transforms <==> t in transformRules && h.at(t).Some?
    ensures forall t :: t in e.sinks <==>
              && Survives(sinkRules, dual, e.sources, h, t)
              && !(t == EMAIL && Survives(sinkRules, dual, e.sources, h, GMAIL))
    ensures e.trigger == h.trigger && e.needsGate == h.needsGate && e.hasBranch == h.hasBranch
            && e.hasFanout == h.hasFanout && e.hasRetry == h.hasRetry && e.hasApproval == h.hasApproval
            && e.hasGuard == h.hasGuard
  {
    var sources := ExtractSources(sourceRules, h.at);
    var sinks := ExtractSinks(sinkRules, dual, sources, h);
    var transforms := MatchOrdered(transformRules, h.at);
    InOrderIsDistinct(sinkRules, h.at, sinks);
    e := Entities(h.trigger, sources, transforms, sinks, h.needsGate, h.hasBranch, h.hasFanout, h.hasRetry,
                  h.hasApproval, h.hasGuard);
  }

  lemma SinkTableIsRegular()
    ensures Distinct(SINK_RULES) && forall t :: t in SINK_RULES ==> t in SINKS
  {}

  lemma SourceTableIsRegular()
    ensures Distinct(SOURCE_RULES) && forall t :: t in SOURCE_RULES ==> t in SOURCES
  {}

  lemma TransformTableIsRegular()
    ensures Distinct(TRANSFORM_RULES) && forall t :: t in TRANSFORM_RULES ==> t in AI
  {}

  /** What extraction requires of its tables holds of the real ones. */
  lemma TablesAreRegular()
    ensures Tables(SOURCE_RULES, TRANSFORM_RULES, SINK_RULES)
  {
    SourceTableIsRegular();
    TransformTableIsRegular();
    SinkTableIsRegular();
  }
}
