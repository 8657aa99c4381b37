# Verified model of the workflow assistant

The repository turns a request in natural language into a workflow graph, keeps what it learns about a user
in an object store, and migrates its own database. This project models the parts where a mistake would be
hard to see in any one function, and proves what holds of them for every input, every run or every history.

* **Assembly.** `Library`, `Assembler`, `Extractor` and `Ensemble` are the skeleton templates, the assembler,
  the extractor and the voting resolver. `DraftGraphs` and `DraftHandles` prove what kind of graph every
  draft is: where cycles go, what is reachable, what dominates what, where decisions lead.
  `DraftChoice`, `DraftRows` and `DraftWiring` say of every request which template it gets, which nodes its draft
  has and which connections, in terms of what was said, picked and ranked; `EnsembleVotes` says of the resolver,
  in numbers, what is picked. `DraftBuild` carries drafts over to the workflow that is built, and `ResolvedDrafts`
  puts resolver and assembler together. `Graph` holds the graph theory: walks, relabelling, trees that grow node by node.
* **Composer.** `Composer` is the state graph as a step function over arbitrary outcomes of the models, the
  validator and the store, with the exact bound on its steps; `ComposerSafety` is about everything saved by
  any interleaving of runs that share the session store, `ComposerRuns` about the checks it has been through
  before and what a run that is refused does, `ComposerReports` about what the validator said of it, and
  `ComposerEdits` about which plans of an edit are applied.
* **Editing.** `Dataflow` is the rewriting and grounding of `${token.path}` references at string level, and
  `DataflowRefs` says where each reference is led; `WorkflowEdit` serialises a workflow for the model and builds
  one from its answer, and `WorkflowDrafts` says node by node what is built, of an edit and of a fresh draft.
* **Stores.** `Debounce` is the claim protocol over one blob; `MemoryFile` and `MemoryIndex` are the printer
  and parser of memory files and of their index, `MemoryHeaders` what is read of any header; `SkillDocs` keeps a document as two objects. `Text` has the
  string functions these need.
* **The rest.** `ModelSort` is the depth-first sort of the schema generator, `Migration` the migration
  runner with `MigrationPlans` on which files it executes, `Supervisor` the relay and recovery loop with
  `SupervisorRuns` on what a whole turn shows. `Basics` has lists, options and iterated steps.

The source's loops are methods with loop invariants over the same variables, its mutating objects are
classes; each is proved equal to a specification function, and the theorems are about that function. Where
the source calls a model, an embedding service, a database engine or YAML, the answer is a parameter that may
be anything.

## What the proofs found

* A branch wires exactly two sinks but collects every sink the ensemble adds: a third is never reached. In
  resolved and assembled drafts that is the only way a node gets lost (`ResolvedDrafts.ResolvedDraftsAreSound`),
  and a concrete request shows it (`ResolvedDrafts.ThirdSinkOfARequest`).
* The same union puts the picks before the words of the request, and a branch wires the first two. So "slack if
  it holds, else mail" can come out the other way round; it does whenever the two score the same and the names
  are in the other order (`ResolvedDrafts.TieGoesByName`, and `ResolvedDrafts.RequestIsTurnedAround` for a
  concrete request). `ResolvedDrafts.ResolvedBranchOrder` says exactly when the order is kept.
* The composer's validator node listens for exceptions only; the validator that the service injects returns
  its errors. Saved workflows are clean exactly when the validator returns a failure on nothing that drafting and
  editing can yield (`ComposerReports.SavesAreCleanExactly`).
* Once a planning or applying node of an edit has fallen back to the drafter, a later plan of the same run is made
  in vain. The plan in hand is applied exactly when it has operations, can be applied, and nothing has fallen back
  (`ComposerEdits.PlanIsAppliedExactly`); a run shows such a plan (`ComposerEdits.LaterPlanIsMadeInVain`).
* A store that raises after keeping the session lets a second round bind a skill that was never shown; no other
  behaviour of the store does (`ComposerReports.SkillsAreShownExactly`).
* Echoing a workflow through the editor keeps its graph but not its data flow: references to the old
  instances survive and point nowhere (`WorkflowEdit.EchoDetachesDataFlow`). Bound credentials and skills are
  lost (`WorkflowEdit.EchoUnbinds`).
* The model sort returns a permutation of its input exactly when no two models share a name and no unlisted class
  takes the place of a model of its name. The latter is a fact about the result; that only listed models are reached
  rules it out beforehand (`ModelSort.PermutationIffNamesDistinct`).
* Grounding is idempotent exactly when the names of single outputs are stable
  (`Dataflow.GroundingIsIdempotentExactly`); with a closing brace inside such a name every pass makes the
  text longer (`Dataflow.BraceInNameGrowsForever`).
* A memory file comes back exactly when its name and its description are one trimmed line each without `---`, the
  name is not empty (unless that is the default), and the body is stripped (`MemoryFile.FileRoundTrip`).
* Two batches of migrations differ from one exactly when a later file declares the tracking table before anything
  is known to have made it, and otherwise only tables that exist (`Migration.TwoBatchesEqualExactly`).

## Model

| member | source | states |
|---|---|---|
| DraftGraphs.EveryCyclePassesTheGate | modules/ai_agent/domain/services/skeleton_assembler.py:180-579 | in every draft, for any entities, ensemble picks and ranking: each cycle leaves the gate on "false", the draft without those edges is acyclic, and there is a cycle exactly when there is a gate |
| DraftGraphs.OnlyLoopsHaveAGate | modules/ai_agent/domain/services/skeleton_assembler.py:180-579 | unless the ensemble resolves the gate role, a draft has a gate exactly when it is a quality loop or a retry loop |
| DraftGraphs.DraftsAreClosed | modules/ai_agent/domain/services/skeleton_assembler.py:257-579 | refs of a draft are pairwise distinct and both ends of every edge are nodes |
| DraftGraphs.DraftIsShaped | modules/ai_agent/domain/services/skeleton_assembler.py:257-579 | every draft is a tree grown from its first node plus at most one way back, which exists exactly when the gate does and then closes a cycle |
| DraftGraphs.EveryNodeIsReachable | modules/ai_agent/domain/services/skeleton_assembler.py:257-579 | all nodes are reachable from the first if and only if, should it be a branch, exactly two sinks were collected |
| DraftGraphs.ThirdSinkIsNotReached | modules/ai_agent/domain/services/skeleton_assembler.py:380-417 | a branch that collected more than two sinks has a node no walk from the trigger reaches |
| DraftGraphs.TwoCollectedExactly | modules/ai_agent/domain/services/skeleton_assembler.py:139-172 | with two named sinks, two are collected if and only if the ensemble picks no other |
| DraftGraphs.EveryNamedSinkIsANode | modules/ai_agent/domain/services/skeleton_assembler.py:139-172 | every sink the extractor found is a sink node of any draft assembled, whatever the ensemble picked or cut |
| DraftGraphs.ArtifactsDominateDeliveries | modules/ai_agent/domain/services/skeleton_assembler.py:257-377 | in linear, quality-loop and content-delivery drafts every walk from the first node to a delivery sink has just gone through all artifact sinks, in order |
| ResolvedDrafts.ResolvedDraftsAreSound | modules/ai_agent/domain/services/slot_ensemble.py:106-204 | what was extracted, resolved with any mapper and assembled: the draft has a cycle if and only if it is a quality or retry loop, and a node out of reach if and only if it is a branch for which a sink was picked that the request does not name |
| ResolvedDrafts.BranchesLoseAddedSinks | modules/ai_agent/domain/services/skeleton_assembler.py:380-417 | a request with two named sinks and only a branch to shape always has a draft, and in it a node out of reach if and only if the resolver picked a sink beside the two |
| ResolvedDrafts.ThirdSinkOfARequest | modules/ai_agent/domain/services/skeleton_assembler.py:142-158 | it happens: a concrete request and retrieval result for which the resolver picks a third sink, the assembly returns a branch, and a node of it is reached by no walk from the trigger |
| DraftHandles.DecisionsLeadTheRightWay | modules/ai_agent/domain/services/skeleton_assembler.py:257-579 | in every draft exactly the router's and the gate's edges carry "true" or "false"; "true" leads to sinks only, "false" only to the other way (second sink, end, back-off or generator) |
| DraftHandles.BranchHandles | modules/ai_agent/domain/services/skeleton_assembler.py:380-417 | in a branch "true" leads to the first collected sink and nowhere else, "false" to the second and nowhere else, and both edges exist |
| DraftHandles.BranchKeepsTheOrderSaid | modules/ai_agent/domain/services/skeleton_assembler.py:139-172 | for all signals: a branch leads to the channel named first behind "true" and to the one named second behind "false" if and only if the ensemble's first two sink picks, as far as there are any, are these two in this order |
| ResolvedDrafts.ResolvedBranchOrder | modules/ai_agent/domain/services/slot_ensemble.py:106-204 | of a resolved request, in terms of scores: if and only if nothing is picked for the sinks, or the channel named first is in the pool and ahead of every other candidate, by score and then name, and the one named second comes next as soon as a second one is picked |
| ResolvedDrafts.TieGoesByName | modules/ai_agent/domain/services/slot_ensemble.py:193-204 | two named channels with the same score are put behind "true" and "false" in the order of their node type names, whatever the request says |
| ResolvedDrafts.RequestIsTurnedAround | modules/ai_agent/domain/services/skeleton_assembler.py:380-417 | it happens: a concrete request that names slack first and the mail second is resolved and assembled into a branch that mails behind "true" |
| Assembler.FillSlot | modules/ai_agent/domain/services/skeleton_assembler.py:142-168 | the branching fill of one slot equals the specification the theorems are about: picks before materials, union for sinks, grounding, cardinality, default |
| Assembler.Collect | modules/ai_agent/domain/services/skeleton_assembler.py:117-172 | the loop over slots yields the specified node row per role and the list of unfilled required slots |
| Assembler.SinksAreCollected | modules/ai_agent/domain/services/skeleton_assembler.py:142-158 | every named sink is in the filled sink slot, whatever the ensemble resolved and retrieval ranked |
| Assembler.FilledSlot | modules/ai_agent/domain/services/skeleton_assembler.py:117-172 | the row collected for a template's slot is its fill, numbered; non-empty when required with a default, at most one long when single |
| Assembler.RouterFilled | modules/ai_agent/domain/services/skeleton_assembler.py:380-459 | the templates with a router have exactly one trigger, one router and, where declared, one end, and never lose their sinks |
| Assembler.Wiring.Row | modules/ai_agent/domain/services/skeleton_assembler.py:174-177 | appends exactly the consecutive pairs of the row to the shared edge list |
| Assembler.Wiring.Through | modules/ai_agent/domain/services/skeleton_assembler.py:278-299 | appends the artifact row behind a source and returns its last node |
| Assembler.Wiring.FanSinks | modules/ai_agent/domain/services/skeleton_assembler.py:278-299 | artifacts in a row, then all deliveries from the last one; a plain fan when there is no artifact |
| Assembler.WireLinear | modules/ai_agent/domain/services/skeleton_assembler.py:301-330 | the edges of a linear or quality-loop draft, the scorer detour and the way back to the generator included |
| Assembler.AssembleLinear | modules/ai_agent/domain/services/skeleton_assembler.py:257-330 | equals the linear draft of the specification, nodes, edges and warnings |
| Assembler.AssembleContentDelivery | modules/ai_agent/domain/services/skeleton_assembler.py:338-377 | producer, artifacts in a row, deliveries from the last: equals the specified draft |
| Assembler.AssembleBranch | modules/ai_agent/domain/services/skeleton_assembler.py:380-417 | nothing unless two sinks are named and every slot is filled; otherwise the specified branch |
| Assembler.AssembleConditional | modules/ai_agent/domain/services/skeleton_assembler.py:420-459 | nothing without a sink or with a slot unfilled; otherwise the specified guard |
| Assembler.AssembleFanOut | modules/ai_agent/domain/services/skeleton_assembler.py:462-500 | splitter, body and merger in the specified order, or nothing |
| Assembler.AssembleRetry | modules/ai_agent/domain/services/skeleton_assembler.py:503-541 | the last operation with its gate and back-off as specified, or nothing when there is no operation |
| Assembler.AssembleApproval | modules/ai_agent/domain/services/skeleton_assembler.py:544-579 | the specified approval draft, or nothing |
| Assembler.BestIsEarliestMaximum | modules/ai_agent/domain/services/skeleton_assembler.py:48-93 | the template chosen by score is the earliest of those with the highest score |
| Assembler.Select | modules/ai_agent/domain/services/skeleton_assembler.py:48-93 | the loop over templates with its strict comparison, and the rules behind it, return the template that DraftChoice.TemplateExactly characterises |
| Assembler.Assemble | modules/ai_agent/domain/services/skeleton_assembler.py:180-255 | the branching as a whole returns the draft, or nothing, of which the DraftChoice, DraftRows and DraftWiring theorems say template, nodes and connections |
| DraftChoice.TemplateExactly | modules/ai_agent/domain/services/skeleton_assembler.py:48-93 | for every request without a shape and for all scores, each result (content delivery, quality loop, event response, scheduled pipeline, nothing) has an iff: a check asked for first, then a winning score, then an event or a schedule said, then something that flows to a channel |
| DraftChoice.ShapedExactly | modules/ai_agent/domain/services/skeleton_assembler.py:180-255 | for every request with a shape: nothing when nothing is said or two shapes that exclude each other are; otherwise approval before retry, fan-out, branch and guard, each if and only if it has what it needs |
| DraftRows.FilledExactly | modules/ai_agent/domain/services/skeleton_assembler.py:117-172 | what each template gets for each role: picks before words before ranking, both for sinks, the first only where there is one place, and the named default of that template |
| DraftRows.RowsExactly | modules/ai_agent/domain/services/skeleton_assembler.py:257-579 | every draft that is no content delivery has in each role exactly these node types, numbered in order; a linear draft without operation has no check, and one that generates without check or channel ends in a document |
| DraftRows.BeginsWithTrigger | modules/ai_agent/domain/services/skeleton_assembler.py:257-579 | the first node is the trigger picked, else the one said, else a schedule for a pipeline, a web hook for an event, a manual one for the rest |
| DraftRows.DeliveryRows | modules/ai_agent/domain/services/skeleton_assembler.py:338-377 | a content delivery is one generator and exactly the channels said, those that make a file first |
| DraftRows.WarningsExactly | modules/ai_agent/domain/services/skeleton_assembler.py:257-276 | the only warning is that a check was left out, and it is there exactly when a linear template was given a check and no operation |
| DraftWiring.ConnectionsExactly | modules/ai_agent/domain/services/skeleton_assembler.py:257-579 | an edge is in a draft if and only if the roles of its nodes call for it: the row of work, then by template through scorer, gate, router, delay or end, to files in a row and other sinks from the last |
| DraftBuild.BuildWorkflowWithRefs | modules/ai_agent/domain/services/skeleton_assembler.py:582-636 | the two loops build the specified workflow and map of instances |
| DraftBuild.BuildIsInducedSubgraph | modules/ai_agent/domain/services/skeleton_assembler.py:582-636 | one instance per node of known type, no two alike, and exactly the edges between two such nodes with their handles |
| DraftBuild.BuildOfKnownTypesIsACopy | modules/ai_agent/domain/services/skeleton_assembler.py:582-636 | with every type known no node or edge is lost and reachability from the first node carries over |
| DraftBuild.BuiltCyclesPassTheGate | modules/ai_agent/domain/services/skeleton_assembler.py:180-636 | whatever types the catalogue knows, each cycle of the built workflow leaves the gate's instance on "false" |
| DraftBuild.AssembledWorkflowIsConnected | modules/ai_agent/domain/services/skeleton_assembler.py:180-636 | with all types known, the built workflow is reachable from its first instance if and only if no branch collected other than two sinks |
| Graph.GrownIsAcyclic | modules/ai_agent/domain/services/skeleton_assembler.py:174-177 | a graph whose edges each attach to an earlier node has no cycle |
| Graph.RowDominates | modules/ai_agent/domain/services/skeleton_assembler.py:278-299 | nodes entered only from their predecessor in a row are all passed, in order, by any walk to the last |
| Graph.RelinkLifts | modules/ai_agent/domain/services/skeleton_assembler.py:615-636 | a walk in a relabelled graph is the image, edge by edge, of a walk in the original |
| Library.RolesAreDistinct | modules/ai_agent/domain/services/skeleton_library.py:19-256 | no template has two slots of one role |
| Library.SlotsAreRegular | modules/ai_agent/domain/services/skeleton_library.py:19-256 | the properties of each slot the assembler relies on: pool of its role, cardinality, default inside the pool |
| Library.LinearFamily | modules/ai_agent/domain/services/skeleton_library.py:19-256 | exactly the first three templates have no control slot |
| Extractor.MatchOrdered | modules/ai_agent/domain/services/skeleton_entity_extractor.py:226-238 | returns exactly the types that occur, ordered by first position and then by rule |
| Extractor.Extract | modules/ai_agent/domain/services/skeleton_entity_extractor.py:241-274 | sources, transforms and sinks by order of appearance; a sink is kept if and only if it is heard, does not go back to a service that is only read, and is not the general mail channel beside the specific one; sources and transforms likewise exactly; flags passed on; the result is what assembly expects |
| Extractor.TablesAreRegular | modules/ai_agent/domain/services/skeleton_entity_extractor.py:43-118 | the real rule tables name no type twice and stay inside the pools of their roles, which is all that extraction asks of them |
| Ensemble.Combine | modules/ai_agent/domain/services/slot_ensemble.py:153-174 | the accumulating loops give each candidate the weighted sum of all votes, which EnsembleVotes.ScoreIsStrength gives in numbers |
| Ensemble.Select | modules/ai_agent/domain/services/slot_ensemble.py:193-204 | distinct picks, in order of score and name, being exactly the candidates at or above both floor and top ratio |
| Ensemble.SelectionIsUnique | modules/ai_agent/domain/services/slot_ensemble.py:193-204 | scores determine the picks: two ranked lists of the same candidates are equal |
| Ensemble.SuppressedSinkVariants | modules/ai_agent/domain/services/skeleton_entity_extractor.py:150-164 | drops exactly the write variants of a read source that have no send cue |
| Ensemble.ResolveContext | modules/ai_agent/domain/services/slot_ensemble.py:106-151 | both roles resolved as specified, sources first, sinks over the suppressed pool, only empty roles escalated; who is picked is said by EnsembleVotes.ResolvedExactly |
| EnsembleVotes.RankVote | modules/ai_agent/domain/services/slot_voters.py:81-84 | the candidate at place i of the ranked pool members, counted from zero, has the vote 1 / (1 + i) |
| EnsembleVotes.ScoreIsStrength | modules/ai_agent/domain/services/slot_voters.py:52-104 | the score of every candidate for every role: 1 if the words name it, plus 0.6 / (1 + i) if it stands at place i, plus 0.25 if the ontology allows it; nothing outside the pool |
| EnsembleVotes.FloorExactly | modules/ai_agent/domain/services/slot_ensemble.py:193-204 | who reaches the floor: those named, and of the rest those ranked first, or second with the ontology |
| EnsembleVotes.RankingAloneBindsTheFirst | modules/ai_agent/domain/services/slot_voters.py:65-84 | for a role without word and without ontology the picks are exactly the first ranked pool member, or none |
| EnsembleVotes.ResolvedExactly | modules/ai_agent/domain/services/slot_ensemble.py:106-151 | a role gets exactly the candidates with at least 0.5 and at least 0.7 times what any other has; failing that, those that have so much with the mapper added; the mapper is asked about exactly the roles without picks |
| EnsembleVotes.UnnamedSource | modules/ai_agent/domain/services/slot_ensemble.py:106-151 | so a request without a word for a source is given the first ranked one whatever the mapper would say, and the mapper decides only when none is ranked |
| EnsembleVotes.UnnamedSink | modules/ai_agent/domain/services/slot_ensemble.py:106-151 | likewise for the sinks over their pool |
| EnsembleVotes.SinkPoolExactly | modules/ai_agent/domain/services/skeleton_entity_extractor.py:123-164 | a channel can be picked if and only if no service it belongs to is picked as a source without a word that sends to it; service by service |
| Ensemble.HitLeads | modules/ai_agent/domain/services/slot_voters.py:52-104 | with the default weights a role with a lexical hit in its pool gets a lexical hit as first pick |
| Ensemble.HitIsNeverEscalated | modules/ai_agent/domain/services/slot_ensemble.py:106-151 | such a role is never sent to the mapper and keeps its own picks |
| Ensemble.EscalationOnlyFillsGaps | modules/ai_agent/domain/services/slot_ensemble.py:121-151 | two runs on one context, with any two mappers and pools in any order, agree on every role the voters had filled |
| Ensemble.OntologyAloneNeverBinds | modules/ai_agent/domain/services/slot_voters.py:87-104 | a candidate with neither hit nor rank is never picked by the voters |
| Ensemble.PicksAreDistinctPoolMembers | modules/ai_agent/domain/services/slot_ensemble.py:106-204 | all picks, escalated or not, are distinct pool members and no suppressed sink is among them |
| Ensemble.NamedSurvivesCutExactly | modules/ai_agent/domain/services/slot_ensemble.py:193-204 | a named candidate is picked if and only if no other scores so much more that the top ratio cuts it |
| Ensemble.RatioCutDropsANamedSink | modules/ai_agent/domain/services/slot_ensemble.py:193-204 | the cut does drop a named sink next to one that retrieval ranks |
| Composer.RunsEnd | modules/ai_agent/adapters/langgraph/composer_graph.py:2195-2306 | every run, in either round and for all outcomes, ends within 36 nodes (32 in the second round), with at most five redrafts and two plans, below the recursion limit |
| Composer.BoundIsReached | modules/ai_agent/adapters/langgraph/composer_graph.py:591-650 | the bound is exact: a run with three rejected drafts, two that fail QA and a good one takes 36 nodes |
| Composer.StepCounts | modules/ai_agent/adapters/langgraph/composer_graph.py:1749-1783 | each node lowers a bound on the steps left, computed from place, intent and the two interacting counters |
| ComposerRuns.PassedChecksGoOn | modules/ai_agent/adapters/langgraph/composer_graph.py:578-590 | a first round whose checks do not fail goes on to the search, the consultant or the end as the intent says, and from the search to the suggestion |
| ComposerRuns.SavedIsConfirmed | modules/ai_agent/adapters/langgraph/composer_graph.py:1809-1830 | a save that succeeds is explained, confirmed and remembered; one that fails ends the run |
| ComposerRuns.SuggestsExactly | modules/ai_agent/adapters/langgraph/composer_graph.py:985-1088 | the run waits for the user exactly when a new workflow is wanted, there are options and the store kept them without raising; these are shown, and what the store holds for the session is exactly what the second round needs |
| ComposerRuns.ResumesExactly | modules/ai_agent/adapters/langgraph/composer_graph.py:1090-1140 | a second round goes on if and only if the store can be reached and holds the session for this user, and then with what it holds |
| ComposerRuns.BindsExactly | modules/ai_agent/adapters/langgraph/composer_graph.py:1142-1197 | a node is bound to the skill chosen if and only if this was offered and the node is the target (the choice of which is a parameter); no other node and no edge changes |
| ComposerRuns.DraftsExactly | modules/ai_agent/adapters/langgraph/composer_graph.py:1245-1414 | a draft is what the drafter answers, unless it fails or there is no specification, which ends the run |
| ComposerRuns.SessionsAreIsolated | modules/ai_agent/adapters/langgraph/composer_graph.py:2144-2151 | no step touches the session of another caller, and a session ends exactly when a second round is at its last node and the store deletes it |
| ComposerSafety.EverySaveIsSafe | modules/ai_agent/adapters/langgraph/composer_graph.py:985-1197 | over every history of interleaved runs, what is saved is the latest workflow up to its draft flag, accepted by the validator, passed by QA unless it is an edit (then of a first round), with a skill on at most one node: the one chosen, and stored as an option in round 1 for the same user and session |
| ComposerSafety.StepIsSafe | modules/ai_agent/adapters/langgraph/composer_graph.py:1245-1829 | every node keeps the invariant of its run and of the session store, and saves only what is safe |
| ComposerRuns.EverySaveWasCleared | modules/ai_agent/adapters/langgraph/composer_graph.py:572-650 | over every history: whatever a first round saves, it has been at security, intent and search and none of them failed; whatever a second round saves, that holds of a first round of the same user and session which made the offer in hand; and it is the last workflow made |
| ComposerRuns.EveryOfferWasCleared | modules/ai_agent/adapters/langgraph/composer_graph.py:572-650 | over every history: whatever is stored or shown as an option comes from a first round that had passed the same checks, wants a new workflow and has made nothing yet |
| ComposerRuns.RefusedRunsDoNothing | modules/ai_agent/adapters/langgraph/composer_graph.py:578-590 | over every history: a first round refused at security, intent or search has ended there, without another check, option, draft, plan or save; one that is to be clarified or only proposes does none of these either |
| ComposerRuns.HistoriesAreInLine | modules/ai_agent/adapters/langgraph/composer_graph.py:2195-2306 | the invariant behind these: at each place of the graph, the checks that every run, offer, frame and save has been through |
| ComposerSafety.SavedSkillsWereShown | modules/ai_agent/adapters/langgraph/composer_graph.py:1041-1066 | unless a store raises after keeping the options, every saved skill was shown to the same user in the same session |
| ComposerReports.SkillsAreShownExactly | modules/ai_agent/adapters/langgraph/composer_graph.py:1041-1066 | for any set of things the session store may do: over all histories with such a store every saved skill was shown in the same session, if and only if raising after keeping the options is not among them |
| ComposerReports.HiddenOfferIsSaved | modules/ai_agent/adapters/langgraph/composer_graph.py:1041-1049 | a history of two rounds, with a store that does that, which saves a skill although no options were ever shown |
| ComposerReports.SavesAreCleanExactly | modules/ai_agent/adapters/langgraph/composer_graph.py:1654-1700 | for any validator, taken as a function of the workflow, and any set of workflows that drafting, binding and editing may yield: over all histories every saved workflow has a clean report, if and only if the validator returns a failure on none of the set |
| ComposerReports.RaisingValidatorKeepsSavesClean | modules/ai_agent/adapters/langgraph/composer_graph.py:1654-1700 | when no returned report ever says "failed", whatever else the verdicts depend on, every saved workflow has a clean report, over every history |
| ComposerReports.FailedReportIsSaved | modules/ai_agent/adapters/langgraph/composer_graph.py:1659-1662 | for every workflow an edit may yield and on which the validator returns a failure there is a history that saves exactly this workflow |
| ComposerEdits.PlanIsAppliedExactly | modules/ai_agent/adapters/langgraph/composer_graph.py:1531-1651 | at the applying node of any run the plan in hand makes the workflow if and only if it has operations, can be applied, and no planning or applying node of the run has fallen back before; otherwise the drafter makes it or the run ends |
| ComposerEdits.LaterPlanIsMadeInVain | modules/ai_agent/adapters/langgraph/composer_graph.py:1606-1631 | it happens: a run whose second plan has operations and could be applied, and whatever it yields, the drafter makes the workflow |
| ComposerEdits.FallbackIsSticky | modules/ai_agent/adapters/langgraph/composer_graph.py:1606-1651 | from any state with the fallback flag, the workflow made later in the run does not depend on whether there is a plan |
| ComposerSafety.RepeatedDraftIsTheLast | modules/ai_agent/adapters/langgraph/composer_graph.py:591-629 | after a draft with the signature of the one before there is no further draft |
| ComposerSafety.SignatureIgnoresInstanceIds | modules/ai_agent/adapters/langgraph/composer_graph.py:1416-1429 | renaming instances injectively leaves the signature unchanged |
| Dataflow.SubstitutionReadsBack | modules/ai_agent/domain/services/dataflow_grounding.py:14-38 | replacing references one for one, on every text, is possible exactly when the replacements print as references: none is created, lost or merged |
| Dataflow.SubstituteTwice | modules/ai_agent/domain/services/dataflow_grounding.py:17-38 | two passes over a text are one pass with the composed replacement |
| Dataflow.OnJsonFixed | modules/ai_agent/domain/services/dataflow_grounding.py:17-38 | a pass leaves a JSON value alone exactly when it leaves each of its references alone |
| Dataflow.RewritingResolvesTokens | modules/ai_agent/domain/services/dataflow_grounding.py:17-38 | the shape and all text outside references are kept; no known token is left and a second pass changes nothing, if no instance id is a token |
| Dataflow.RewritingIsIdleExactly | modules/ai_agent/domain/services/dataflow_grounding.py:17-38 | rewriting changes nothing exactly when no reference names a known token |
| Dataflow.GroundingReadsBack | modules/ai_agent/domain/services/dataflow_grounding.py:41-90 | grounding keeps the references one for one, on every text, exactly when the outputs in reach are well named |
| Dataflow.GroundingKeepsShape | modules/ai_agent/domain/services/dataflow_grounding.py:41-90 | then the JSON shape and all text outside references are kept, and nothing changes exactly when every reference is grounded |
| Dataflow.GroundingGrounds | modules/ai_agent/domain/services/dataflow_grounding.py:41-90 | with single outputs named without "}": afterwards no known reference goes below an array or primitive, one to a single-output node names that output, and a second pass changes nothing |
| Dataflow.GroundingIsIdempotentExactly | modules/ai_agent/domain/services/dataflow_grounding.py:41-90 | grounding twice is grounding once on every value, if and only if each single output's name has no "}" or begins with it and goes on with text that grounding leaves alone |
| Dataflow.BraceInNameGrowsForever | modules/ai_agent/domain/services/dataflow_grounding.py:79-83 | a single output named with a brace inside makes the second pass lengthen the text again |
| Dataflow.RewriteThenGround | modules/ai_agent/domain/services/drafter_service.py:764-778 | rewriting followed by grounding acts on each reference as the composed replacement |
| DataflowRefs.RewritingMapsTokens | modules/ai_agent/domain/services/dataflow_grounding.py:17-38 | reference by reference, at the same places of the same tree: a known token becomes its instance id, the path stays, everything else too |
| DataflowRefs.GroundRefLeads | modules/ai_agent/domain/services/dataflow_grounding.py:41-90 | where a path is led: below a list or scalar output it is cut to the output, without an output for its head it goes to the only one, else it stays; tokens stay, and paths of unknown nodes |
| DataflowRefs.GroundingLeadsPaths | modules/ai_agent/domain/services/dataflow_grounding.py:41-90 | with well-named outputs grounding does exactly that to each reference of any value, and nothing else |
| DataflowRefs.BothResolve | modules/ai_agent/domain/services/drafter_service.py:764-778 | rewriting and then grounding resolves each reference of any value: first its token, then its path |
| WorkflowEdit.SerializeForEdit | modules/ai_agent/domain/services/drafter_service.py:698-730 | the loops build the specified document with refs n0, n1, …, or nothing when a node has no candidate |
| WorkflowEdit.BuildFromEdit | modules/ai_agent/domain/services/drafter_service.py:732-808 | the specified workflow, or the error of the first unknown type or repeated ref |
| WorkflowEdit.BuildDraft | modules/ai_agent/domain/services/drafter_service.py:810-897 | the loops build what is specified, with the dropped types reported; what that is, is said by the five WorkflowDrafts theorems on drafts |
| WorkflowDrafts.ByTypeExactly | modules/ai_agent/domain/services/drafter_service.py:738-746 | of several candidates of one type the last one counts |
| WorkflowDrafts.RefsAreNumbered | modules/ai_agent/domain/services/drafter_service.py:710-720 | node i is shown as "n" and the decimal digits of i |
| WorkflowDrafts.EditFailsExactly | modules/ai_agent/domain/services/drafter_service.py:732-760 | an edit answer is built if and only if every node has a known type and a ref of its own; the error is about the first that has not, its type before its ref |
| WorkflowDrafts.EditNodesExactly | modules/ai_agent/domain/services/drafter_service.py:732-760 | the built nodes, in order: the next new instance, the candidate's id, nothing bound |
| WorkflowDrafts.EditLinksExactly | modules/ai_agent/domain/services/drafter_service.py:778-808 | the built connections: exactly those whose both ends are refs of the answer, in order, between the instances of the nodes named, with their handles |
| WorkflowDrafts.EditParamsExactly | modules/ai_agent/domain/services/drafter_service.py:763-777 | the built parameters of each node are its own, tree, keys and text, with each ref turned into its instance and each path led to an output of its candidate |
| WorkflowDrafts.EditKeepsOtherParams | modules/ai_agent/domain/services/drafter_service.py:763-777 | with any outputs: unchanged where no reference is to a ref or to a new instance |
| WorkflowDrafts.DroppedExactly | modules/ai_agent/domain/services/drafter_service.py:810-842 | the types reported as dropped are those of the nodes without a candidate, in order |
| WorkflowDrafts.DraftFailsExactly | modules/ai_agent/domain/services/drafter_service.py:810-842 | a fresh draft fails exactly when a type that has a candidate occurs twice, and names the first that occurs again |
| WorkflowDrafts.DraftNodesExactly | modules/ai_agent/domain/services/drafter_service.py:810-856 | its nodes are, in order, those whose type has a candidate, each with the next new instance, its candidate's id and nothing bound |
| WorkflowDrafts.DraftLinksExactly | modules/ai_agent/domain/services/drafter_service.py:865-897 | its connections are exactly those between two such types, in order, with their handles |
| WorkflowDrafts.DraftParamsExactly | modules/ai_agent/domain/services/drafter_service.py:844-864 | its parameters are the draft's own: with well-named outputs the same tree, keys and text with references by type resolved; with any outputs unchanged where no reference is to such a type or to a new instance |
| WorkflowDrafts.DraftReferencesResolve | modules/ai_agent/domain/services/drafter_service.py:844-864 | with any outputs: references to new instances are grounded when single outputs are named without "}", and with well-named outputs the shape is kept |
| WorkflowEdit.BuiltIsClosed | modules/ai_agent/domain/services/drafter_service.py:732-808 | whatever the model answers, a built workflow has distinct instances and no dangling connection |
| WorkflowEdit.BuiltReferencesResolve | modules/ai_agent/domain/services/drafter_service.py:762-778 | each reference to a new instance is grounded in its output schema when single outputs are named without "}"; then also no parameter still carries a ref of the document, unless the id of a new instance reads as one; well-named outputs keep the shape |
| WorkflowEdit.EchoIsIsomorphic | modules/ai_agent/domain/services/drafter_service.py:698-808 | an unchanged echo is the workflow with its instances renamed: same edges and handles, and same node ids if and only if each node's type leads back to its candidate; repeated types allowed |
| WorkflowEdit.UniqueTypesLeadBack | modules/ai_agent/domain/services/drafter_service.py:710-738 | node types unique among the candidates are enough for that |
| WorkflowEdit.EchoKeepsEveryConnection | modules/ai_agent/domain/services/drafter_service.py:698-808 | no connection of a closed workflow is lost, and each joins the images of its ends |
| WorkflowEdit.EchoUnbinds | modules/ai_agent/domain/services/drafter_service.py:746-760 | an echo keeps the credentials and the skill bound to a node if and only if nothing is bound to it |
| WorkflowEdit.EchoKeepsForeignParameters | modules/ai_agent/domain/services/drafter_service.py:698-808 | parameters are unchanged when they hold no reference to refs or new instances, in particular none at all |
| WorkflowEdit.EchoDetachesDataFlow | modules/ai_agent/domain/services/drafter_service.py:764-778 | references to the old instances survive an echo, so they resolve in the new workflow exactly when there are none |
| ModelSort.ExtractModelDeps | packages/common_schemas/scripts/generate_ts.py:174-189 | returns exactly the known models an annotation mentions, at any depth |
| ModelSort.Sorter.Visit | packages/common_schemas/scripts/generate_ts.py:157-167 | on any graph, cycles included: the visit ends, keeps the ordering invariant for the classes on the stack, only appends, and appends only what the model needs |
| ModelSort.TopoSortModels | packages/common_schemas/scripts/generate_ts.py:151-171 | the sort delivers one class per name, everything needed and nothing else, each dependency earlier or on a cycle back, and of each first part of the list all that it needs before anything that it does not need |
| ModelSort.ListOrderIsKept | packages/common_schemas/scripts/generate_ts.py:151-171 | a model comes before another one listed later, unless it or a model listed before it leads to a class of that name |
| ModelSort.PermutationIffNamesDistinct | packages/common_schemas/scripts/generate_ts.py:151-171 | the result is a permutation of the input if and only if no two models share a name and no unlisted class is in the result; on input that reaches listed models only, if and only if no two share a name |
| ModelSort.DependencyComesFirst | packages/common_schemas/scripts/generate_ts.py:157-167 | if u depends on v and no class of v's name reaches u, that name is placed before u, and v itself if it is placed at all; if names identify the models: if v does not reach u, v is placed before u |
| ModelSort.AcyclicGivesTopologicalOrder | packages/common_schemas/scripts/generate_ts.py:151-171 | on an acyclic graph the result is a topological order, by name and, if names identify the models, class by class |
| Debounce.StepKeepsInv | modules/ai_agent/adapters/memory/gcs_memory_store.py:236-262 | every reload, download and conditional upload of any caller, delivered, lost or with its reply lost, keeps the chain of writes |
| Debounce.SuccessIsAtomic | modules/ai_agent/adapters/memory/gcs_memory_store.py:236-262 | a claim that returns True does, at its upload, what one atomic claim would do on the state it meets; one that returns False leaves the blob alone |
| Debounce.OneClaimPerGeneration | modules/ai_agent/adapters/memory/gcs_memory_store.py:254-262 | no two claims of any run take effect on one generation of the blob |
| Debounce.ClaimsAreSpaced | modules/ai_agent/adapters/memory/gcs_memory_store.py:236-262 | successive claims are at least the later caller's window apart, and with non-negative windows any two are |
| Debounce.UnreadableBlobBlocksEveryClaim | modules/ai_agent/adapters/memory/gcs_memory_store.py:240-253 | an unreadable blob is never overwritten and no claim on it succeeds |
| Debounce.UndisturbedClaimIsExact | modules/ai_agent/adapters/memory/gcs_memory_store.py:236-262 | a caller alone, for every way its reload, download and upload may fail: what it is told and what the blob holds afterwards; a failed read is never taken for leave to overwrite |
| MemoryFile.ParseFrontmatter | modules/ai_agent/adapters/memory/gcs_memory_store.py:101-127 | the loop over lines with its pending heading equals the specified scan |
| MemoryFile.ParseMdFile | modules/ai_agent/adapters/memory/gcs_memory_store.py:47-84 | the specified parse for every text, malformed ones included |
| MemoryFile.FileRoundTrip | modules/ai_agent/adapters/memory/gcs_memory_store.py:47-127 | parsing a printed file gives it back if and only if name and description are each one trimmed line without "---", the name is empty only when that is the default, and the body is its own strip |
| MemoryFile.ParsedHeaderIsClean | modules/ai_agent/adapters/memory/gcs_memory_store.py:47-84 | what comes out of a fenced file always meets that condition |
| MemoryFile.FenceInDescriptionIsLost | modules/ai_agent/adapters/memory/gcs_memory_store.py:87-98 | a description with "---" in it never comes back |
| MemoryHeaders.FencedIsRead | modules/ai_agent/adapters/memory/gcs_memory_store.py:47-84 | any text with two fences: name, description and time are those of the last lines that give them, with their defaults; the body is what follows the second fence, stripped; refused exactly when the type is none of the four |
| MemoryHeaders.UnfencedIsBody | modules/ai_agent/adapters/memory/gcs_memory_store.py:47-84 | any text without two fences is all body, with the file's own name, no description, and the type of a project |
| MemoryHeaders.TextOfKey | modules/ai_agent/adapters/memory/gcs_memory_store.py:101-127 | a key that heads no table has the text of the last line with it and is absent exactly when there is none |
| MemoryHeaders.TableOfKey | modules/ai_agent/adapters/memory/gcs_memory_store.py:101-127 | a table is made of the rows right behind its heading, the last row of a key counting |
| MemoryHeaders.TypeIsRead | modules/ai_agent/adapters/memory/gcs_memory_store.py:61-63 | the type is the last row so named in the table under "metadata", else "project" |
| MemoryHeaders.TypeDefaults | modules/ai_agent/adapters/memory/gcs_memory_store.py:61-63 | and "project" without any such table |
| MemoryIndex.ParseIndex | modules/ai_agent/adapters/memory/gcs_memory_store.py:21-29 | the loop over lines collects exactly the matching ones |
| MemoryIndex.MatchesExactly | modules/ai_agent/adapters/memory/gcs_memory_store.py:18-29 | a line is an entry if and only if it has the printed form, with no group empty and none going past its closing character, whatever follows |
| MemoryIndex.SerializeIndex | modules/ai_agent/adapters/memory/gcs_memory_store.py:32-36 | prints the heading and one line per entry |
| MemoryIndex.IndexRoundTrip | modules/ai_agent/adapters/memory/gcs_memory_store.py:18-36 | the index read back is the index written if and only if every entry fits on its line |
| MemoryIndex.ParsedIndexIsClean | modules/ai_agent/adapters/memory/gcs_memory_store.py:21-29 | every entry that was parsed does |
| Migration.Database.ProcessOne | database/src/helpers/migration_runner.py:190-237 | one file on the live database: skip, mismatch, backfill or execute, as specified, records included; which of these, MigrationPlans says |
| Migration.Database.RunSchemas | database/src/helpers/migration_runner.py:76-119 | the file loop inside one transaction: report and final database equal the specification, rolled back on an error; the MigrationPlans theorems say what that is |
| MigrationPlans.RunIsDoneExactly | database/src/helpers/migration_runner.py:76-119 | a run, real or dry, succeeds if and only if there is nothing to do, or the tracking file is there, no recorded file has changed and (when real) the SQL that is due works; it then reports every file: applied exactly if due, skipped if recorded, else backfilled |
| MigrationPlans.RunExecutesTheDue | database/src/helpers/migration_runner.py:190-237 | a successful run executes, in order, exactly the files without a record that declare nothing, or a table neither there at the start nor declared by an earlier file without a record; the others without a record are recorded as bootstrapped, and old records stay |
| MigrationPlans.SilentFileIsExecuted | database/src/helpers/migration_runner.py:213-220 | in particular a file without a record that declares no table is executed and recorded as such |
| MigrationPlans.RunRaisesTheFirst | database/src/helpers/migration_runner.py:190-237 | a run that fails says so of the first file that has changed, or that is due and whose SQL fails on the tables left by the files before it, and leaves the database as it was |
| Migration.RunKeepsLedger | database/src/helpers/migration_runner.py:76-119 | a run forgets no record or execution; a failing or dry run leaves the database as it was |
| Migration.HistoryIsSafe | database/src/helpers/migration_runner.py:76-119 | over any sequence of runs each file's SQL is committed at most once and no recorded hash ever changes |
| Migration.DryRunPredicts | database/src/helpers/migration_runner.py:190-221 | a dry run reports what a real run reports, mismatches included, unless the real run's SQL fails |
| Migration.RepeatSkipsEverything | database/src/helpers/migration_runner.py:190-204 | repeating a successful run skips every file and changes nothing |
| Migration.TwoBatchesEqualExactly | database/src/helpers/migration_runner.py:76-119 | a sorted prefix and then all files succeed when one run over all does, and end in the same tables, records, flags and executions if and only if no later file without a record declares the tracking table, before anything is known to have made it, and otherwise only tables that exist by then |
| Migration.TwoBatchesEqualOne | database/src/helpers/migration_runner.py:76-119 | in particular when the tracking table exists from the start or no later file declares it |
| Migration.SecondBatchBackfillsTrackingTwin | database/src/helpers/migration_runner.py:205-221 | such a file exists: applied in one run, backfilled in two |
| Supervisor.RelayStream | modules/ai_agent/adapters/supervisor.py:350-400 | the relay over any responses yields the specified frames: cut at the limit, an error last |
| Supervisor.RelayMonitored | modules/ai_agent/adapters/supervisor.py:402-432 | the monitor's loop ends in the specified outcome, a connection failure suppressed only before anything was shown |
| Supervisor.Control | modules/ai_agent/adapters/supervisor.py:185-251 | the control loop with its plan object, counters and frames equals the specified iteration |
| SupervisorRuns.RelayExactly | modules/ai_agent/adapters/supervisor.py:350-432 | what one relay comes to, for every answer, given the first fault among the replies: what is shown, held back, cut; it succeeds if and only if at most 200 replies are heard, none is a fault and the connection holds |
| SupervisorRuns.SkillExactly | modules/ai_agent/adapters/supervisor.py:350-400 | the skill handed on is the last one reported by the responses the exchange gets to |
| SupervisorRuns.StepExactly | modules/ai_agent/adapters/supervisor.py:185-251 | a step is relayed once, or a second time if the first relay failed before anything was seen |
| SupervisorRuns.DraftTurn | modules/ai_agent/adapters/supervisor.py:185-251 | all the frames of a request for a workflow: announcement and relay, and, if the composer itself reports a failure, both once more; and whether the turn gives up |
| SupervisorRuns.SkillThenComposeTurn | modules/ai_agent/adapters/supervisor.py:185-251 | all the frames of a skill with a workflow: the composer follows only when the skill succeeds, and with the skill reported |
| SupervisorRuns.BuildSkillTurn | modules/ai_agent/adapters/supervisor.py:293-299 | a skill build on its own is relayed to no one: whatever the sub-agents would answer, the step is announced and the wizard opened |
| SupervisorRuns.AnsweredLocally | modules/ai_agent/adapters/supervisor.py:284-300 | all the frames of the requests that are answered locally |
| Supervisor.RoutePlan.Insert | modules/ai_agent/domain/value_objects/route_plan.py:55-60 | puts the step at the cursor and keeps all others |
| Supervisor.RelayIsBounded | modules/ai_agent/adapters/supervisor.py:350-432 | one hop shows at most 201 frames, an error only as the last, and nothing at all when an error is held back |
| Supervisor.AtMostTwoErrors | modules/ai_agent/adapters/supervisor.py:185-251 | for all answers and any recovery at most two relay errors are shown; without giving up, exactly one if a corrective step was inserted and otherwise none |
| Supervisor.AtMostOneInsertion | modules/ai_agent/adapters/supervisor.py:225-243 | the plan is always the recipe with at most one step inserted, one that the recovery gives for partial results |
| Supervisor.OnlyTheComposerIsInserted | modules/ai_agent/domain/services/supervisor_router.py:66-87 | with the real recovery that step is the composer |
| Supervisor.SuccessAfterRetriesIsClean | modules/ai_agent/adapters/supervisor.py:185-251 | after any number of suppressed failures a success leaves one announcement, its own frames, no error, and the plan advanced |
| Supervisor.CapIsNeverReached | modules/ai_agent/domain/services/supervisor_router.py:48-87 | with the real recovery every recipe is done, or given up with an error shown, within six hops |
| Supervisor.EndlessRetryHidesTheError | modules/ai_agent/adapters/supervisor.py:185-251 | a recovery without limit runs into the hop cap and shows no error at all |
| SkillDocs.FenceIsFoundExactly | modules/storage/adapters/gcs_skill_document_store.py:111-129 | the closing fence is found behind the front matter, whatever the body, if and only if the front matter has no fence line |
| SkillDocs.DeserializesExactly | modules/storage/adapters/gcs_skill_document_store.py:111-129 | any text: it is read as a document if and only if it has both fences and YAML reads what is between them, the rest being the instructions; every other text is invalid |
| SkillDocs.StripsFinalNewlines | modules/storage/adapters/gcs_skill_document_store.py:100-109 | of the front matter exactly the final newlines are taken away |
| SkillDocs.DocumentRoundTrip | modules/storage/adapters/gcs_skill_document_store.py:100-129 | a document comes back from its text for any instructions, fence lines included |
| SkillDocs.SkillDocumentStore.Save | modules/storage/adapters/gcs_skill_document_store.py:49-74 | both objects are as specified afterwards, the composer's removed when its text is empty |
| SkillDocs.SkillDocumentStore.Load | modules/storage/adapters/gcs_skill_document_store.py:76-86 | reads the pair of objects as specified, a missing composer object being an empty text |
| SkillDocs.SkillDocumentStore.Delete | modules/storage/adapters/gcs_skill_document_store.py:88-97 | removes both objects, either of which may be missing |
| SkillDocs.KeysDiffer | modules/storage/adapters/gcs_skill_document_store.py:28-33 | no two documents share an object, and no text object is a composer object |
| SkillDocs.SaveThenLoad | modules/storage/adapters/gcs_skill_document_store.py:49-86 | a save is seen under its own id and nowhere else |
| SkillDocs.DeleteThenLoad | modules/storage/adapters/gcs_skill_document_store.py:76-97 | a deletion empties its own id and no other |
| SkillDocs.StoreIsAMap | modules/storage/adapters/gcs_skill_document_store.py:49-97 | over any sequence of saves and deletes, loading gives what a plain map would: no stale composer text survives |

## Left out

- Language models, embeddings, Neo4j, Postgres, HTTP and Modal calls are arbitrary answers or failures; timeouts, logging, SSE framing, prompts and user-facing texts are not modelled.
- Positions and layout of nodes, attachment wiring, PDF sections, connection autobinding and parameter filling of drafts.
- Keyword tables and regular expressions of the extractor: the position of each type in the utterance is a parameter.
- Refs of draft nodes are pairs of role and number; the printed form `role_number` is not modelled.
- Scores of templates (`_select`) are an arbitrary function; the keyword bonus that feeds them is not modelled.
- The resolver's decision trace and confidence fields, and floating-point rounding of scores (reals are used).
- `_agent_node`, `_execute_node` and `_evaluate_output_node` of the composer, which its graph does not contain.
- The security screening's, validator's and QA judge's own checks; only the form of their answers matters here.
- A composer run's conversation, candidates and progress frames.
- The turn limit is taken to exceed one, so that a run enters the graph at all.
- Migration: `run_single`, schema name and role switching, and how declared tables are parsed out of SQL; what a file's SQL does to the set of tables is a parameter.
- Migration.TwoBatchesEqualExactly: assumes that executing a file adds exactly its declared tables and that the first batch holds the tracking file, which is what a batch that runs at all and SQL that does what it declares amount to.
- Object stores: partial failure between the two objects of a skill document, and lost updates of the memory index by concurrent writers, which the code does not claim to prevent.
- MemoryFile.FileRoundTrip: the type is assumed to be one of the known ones and parsing a time stamp to undo printing it; and where the name is not a trimmed line without `---`, the default name is assumed to be one.
- MemoryHeaders.FencedIsRead: assumes that no line of the header gives the name, the description or the time without any text, which would make it the heading of a table.
- Exotic Unicode line breaks and Python's lenient reading of UUIDs; `UUID(token)` is an arbitrary partial function.
- SkillDocs.DocumentRoundTrip: YAML is assumed to read back what it wrote and to write no line that is only `---`.
- DraftGraphs.OnlyLoopsHaveAGate: assumes that the ensemble does not resolve the gate role, which the resolver never does.
- Supervisor: building of payloads, memory and session frames around the loop.
