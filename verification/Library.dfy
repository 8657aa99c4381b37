/** The skeleton library
    (modules/ai_agent/domain/services/skeleton_library.py, value_objects/skeleton.py): roles, candidate
    pools and the slots of each template. */
module Library {
  import opened Basics

  datatype Role =
    | Trigger | Source | Transform | Scorer | Sink | Gate
    | Router | Splitter | Merger | Delay | Terminal

  /** `one`: at most one node in this slot. */
  datatype Slot = Slot(role: Role, required: bool, one: bool, fallback: Option<string>, candidates: seq<string>)

  datatype Name =
    | ScheduledPipeline | EventResponse | QualityLoop | BranchOnClassification | ConditionalAction
    | FanOutMap | RetryBackoff | ApprovalGate
    | ContentDelivery  // not in the library: assembled without slots

  const TRIGGERS: seq<string> := [
    "schedule_trigger", "manual_trigger", "webhook_trigger", "event_trigger", "file_watch_trigger",
    "api_poll_trigger"]
  const SOURCES: seq<string> := [
    "google_sheets_read", "google_drive_read", "google_docs_read", "gmail_read", "google_calendar_read",
    "slack_read", "linear_read", "bigquery_query", "postgresql_query", "mysql_query", "http_request",
    "rest_api", "graphql", "file_read"]
  const AI: seq<string> := ["gemma_chat", "anthropic_chat"]
  const SCORERS: seq<string> := ["llm_judge"]
  const SINKS: seq<string> := [
    "slack_post_message", "slack_notify", "email_send", "gmail_send", "google_docs_write", "pdf_generate",
    "file_write", "webhook", "linear_create_issue", "google_calendar_create_event"]
  const GATES: seq<string> := ["if_condition", "switch_case"]
  const ROUTERS: seq<string> := ["if_condition", "switch_case"]
  const SPLITTERS: seq<string> := ["loop_list"]
  const MERGERS: seq<string> := ["merge_branch"]
  const DELAYS: seq<string> := ["delay", "retry"]
  const TERMINALS: seq<string> := ["stop_workflow"]

  const SCHEDULE: string := "schedule_trigger"
  const MANUAL: string := "manual_trigger"
  const WEBHOOK: string := "webhook_trigger"
  const EVENT: string := "event_trigger"
  const FILE_WATCH: string := "file_watch_trigger"
  const GEMMA: string := "gemma_chat"
  const JUDGE: string := "llm_judge"
  const CONDITION: string := "if_condition"
  const LOOP_LIST: string := "loop_list"
  const DELAY: string := "delay"
  const STOP: string := "stop_workflow"

  function TriggerSlot(fallback: string): Slot {
    Slot(Trigger, true, true, Some(fallback), TRIGGERS)
  }

  function SourceSlot(): Slot {
    Slot(Source, false, false, None, SOURCES)
  }

  function SinkSlot(required: bool): Slot {
    Slot(Sink, required, false, None, SINKS)
  }

  function RouterSlot(): Slot {
    Slot(Router, true, true, Some(CONDITION), ROUTERS)
  }

  function SlotsOf(name: Name): seq<Slot> {
    match name
    case ScheduledPipeline => LinearSlots(SCHEDULE)
    case EventResponse => LinearSlots(WEBHOOK)
    case QualityLoop => [
      TriggerSlot(MANUAL), SourceSlot(), Slot(Transform, true, true, Some(GEMMA), AI),
      Slot(Scorer, true, true, Some(JUDGE), SCORERS), Slot(Gate, true, true, Some(CONDITION), GATES),
      SinkSlot(false)]
    case BranchOnClassification => [
      TriggerSlot(MANUAL), SourceSlot(), Slot(Transform, true, true, Some(GEMMA), AI), RouterSlot(),
      SinkSlot(true)]
    case ConditionalAction => [
      TriggerSlot(MANUAL), SourceSlot(), Slot(Transform, false, true, None, AI), RouterSlot(),
      Slot(Terminal, true, true, Some(STOP), TERMINALS), SinkSlot(true)]
    case FanOutMap => [
      TriggerSlot(MANUAL), SourceSlot(), Slot(Splitter, true, true, Some(LOOP_LIST), SPLITTERS),
      Slot(Transform, true, true, Some(GEMMA), AI), Slot(Merger, false, true, None, MERGERS), SinkSlot(true)]
    case RetryBackoff => [
      TriggerSlot(MANUAL), SourceSlot(), Slot(Transform, false, false, None, AI),
      Slot(Gate, true, true, Some(CONDITION), GATES), Slot(Delay, true, true, Some(DELAY), DELAYS),
      SinkSlot(false)]
    case ApprovalGate => [
      TriggerSlot(MANUAL), SourceSlot(), Slot(Transform, true, true, Some(GEMMA), AI), RouterSlot(),
      Slot(Terminal, true, true, Some(STOP), TERMINALS), SinkSlot(true)]
    case ContentDelivery => []
  }

  function LinearSlots(trigger: string): seq<Slot> {
    [TriggerSlot(trigger), SourceSlot(), Slot(Transform, false, false, None, AI),
     Slot(Gate, false, true, None, GATES), SinkSlot(false)]
  }

  const SKELETONS: seq<Name> := [
    ScheduledPipeline, EventResponse, QualityLoop, BranchOnClassification, ConditionalAction, FanOutMap,
    RetryBackoff, ApprovalGate]

  predicate IsControl(role: Role) {
    role in {Router, Splitter, Merger, Delay, Terminal}
  }

  predicate HasControl(slots: seq<Slot>) {
    exists i :: 0 <= i < |slots| && IsControl(slots[i].role)
  }

  /** The role's pool for the ensemble. */
  function Pool(role: Role): seq<string> {
    match role
    case Trigger => TRIGGERS
    case Source => SOURCES
    case Transform => AI
    case Sink => SINKS
    case _ => []
  }

  ghost predicate DistinctRoles(slots: seq<Slot>) {
    forall i, j :: 0 <= i < j < |slots| ==> slots[i].role != slots[j].role
  }

  /** No template has two slots of one role. */
  lemma RolesAreDistinct(name: Name)
    ensures DistinctRoles(SlotsOf(name))
  {}

  /** Trigger, source, transform and sink slots draw on the role's pool; every required slot other than a
      sink has a default. */
  predicate Regular(s: Slot) {
    && (s.role in {Trigger, Source, Transform, Sink} ==> s.candidates == Pool(s.role))
    && (s.required && s.role != Sink ==> s.fallback.Some?)
    && (s.role == Sink ==> !s.one && s.fallback.None?)
  }

  lemma SlotsAreRegular(name: Name, i: nat)
    requires i < |SlotsOf(name)|
    ensures Regular(SlotsOf(name)[i])
  {}

  /** The templates without control slots, in order. */
  lemma LinearFamily()
    ensures forall name :: name in SKELETONS ==>
              (HasControl(SlotsOf(name)) <==> name !in [ScheduledPipeline, EventResponse, QualityLoop])
  {
    assert IsControl(SlotsOf(BranchOnClassification)[3].role);
    assert IsControl(SlotsOf(ConditionalAction)[3].role);
    assert IsControl(SlotsOf(FanOutMap)[2].role);
    assert IsControl(SlotsOf(RetryBackoff)[4].role);
    assert IsControl(SlotsOf(ApprovalGate)[3].role);
  }
}
