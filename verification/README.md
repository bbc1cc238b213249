# Verified models of the AEEP integrations

A Dafny 4.11 project about the parts of AEEP that carry state or algorithms: the offer-letter
filler, the host bridge and admission plugin of the DSH integration, the workbook reference and its
grader, the resumable validation drivers with their prerequisite checker, and the plugin campaign.
`dafny verify dfyconfig.toml` checks the whole project.

| files | component | main result |
|---|---|---|
| `RunEdits`, `OfferLetter` | template filling over split text runs | the in-place edit loop is one simultaneous substitution on the joined text, for any segmentation, and the two gathering passes always meet its precondition |
| `CanonicalJson`, `JsonText` | `stableJson` | equal text if and only if equal value up to member order; the text is that of RFC 8259 |
| `BridgeProtocol`, `BridgeEvents`, `BridgeClient` | the newline-framed bridge client | chunking is invisible; over all runs every issued id is pending or settled exactly once, and answered only by its own generation; the end of a child, a timeout, an abort and bad output settle everything |
| `RouterConfig`, `Admission`, `AdmissionGrants`, `AdmissionPlugin` | configuration, tool guard, nested admissions | hidden tools run only under the execution in flight that selected them, and there they do run; every running call was routed and checked for its own arguments |
| `Receipts`, `ReceiptTurns`, `ReceiptKeeper` | receipt attribution | at most one request gets a receipt, of the right turn; inclusion of a pending write holds exactly under a stated condition |
| `ValidationRecord`, `ValidationProofs`, `ValidationPhases`, `Prerequisite` | crash/restart drivers over one record | every history is sound; a record can be completed exactly when no phase is wedged; the checker accepts a finished successor's record exactly when no required phase failed and a container outcome exists |
| `Workbook`, `WorkbookGrader`, `Decimal`, `Decimal28` | reference program against grader | the workbook grader accepts the reference's output exactly under a stated condition on the input |
| `CampaignPlan`, `CampaignPairs`, `CampaignStatistics`, `Campaign` | paired trials | for all draws and outcomes: full coverage, complete pairing, conserved savings, a verdict that fits the pairs |
| `SessionEvents` | session log counters | tokens are charged to exactly the model calls that follow tool results |

The state machines come in two layers: functions on values (`Step`, `Run`, `Live`, `History`), over
which whole-run properties are proved, and classes whose methods update fields in place and are
proved to take exactly those steps. Random draws, outcomes of trials, process deaths, chunk
boundaries and the order of events are arbitrary.

## Where the code does less than one might expect

- A successful write that is pending when its turn's next request begins can still miss that
  request: another open request of the turn may take the receipt first, or an earlier one may have
  taken it between the push of the receipt and the end of the write's promise, or the agent may be
  disposed of (`Receipts.OverlappingRequestsCompete`, `Receipts.EarlierRequestCanTakeFirst`; exact
  condition in `Receipts.PendingWriteIsIncludedIff`). Both states are reachable under arbitrary
  events; the repository does not show whether the host ever has two requests of one agent and turn
  open at a time.
- The guard lets calls without an agent through (`Admission.AgentlessCallsPass`).
- An admission is kept under its execution's token alone: of two executions in flight with one token
  the first to return takes the other's admission along (`AdmissionGrants.SharedTokenOccurs`). The
  repository does not show how the host makes tokens. `AdmissionGrants.NestedCallPassesIff` speaks of
  an execution that has its token to itself as long as it is in flight, and `NestedCallPasses` of
  hosts whose tokens are distinct.
- A second routing that fails is recorded under the hint's decision, which was routed for other
  arguments (`Admission.FailedReroutingOccurs`, and for every hint `FailedReroutingIsRecorded`); every
  other record goes under a decision routed for its own arguments (`Admission.RecordedDecisions`).
- A driver killed after it created a phase's log and before it wrote the record can never finish:
  the log's name is taken (`ValidationProofs.KilledInRunWedges`, `WedgedForever`, `CompletableIff`).
- A successor that finishes leaves an acceptable record only if a container outcome was recorded
  before and no required phase ever failed (`Prerequisite.SuccessorRecordAcceptedIff`).
- The workbook grader refuses a correct reference output whose products or sums need more than 28 digits, or
  whose identities or extra texts look like formulas (`WorkbookGrader.LongProductIsRefused`, exact
  condition in `WorkbookGrader.ReferenceAcceptedIff`).
- The campaign's message asks for each capability "exactly once"; the code accepts several cases for
  one capability (`CampaignPlan.RepeatedCapabilityIsAccepted`). It is once each exactly for three
  cases (`CampaignPlan.OnceEachIff`).

## Model

| member | source | states |
|---|---|---|
| `RunEdits.ApplyOne` | integrations/assessment-runtime/skillsbench_offer_letter_program.py:104-113 | one right-to-left step: every run ends up holding the rendering of its own stretch of the old paragraph under that edit, for any segmentation, empty runs included |
| `RunEdits.ApplyEdits` | integrations/assessment-runtime/skillsbench_offer_letter_program.py:103-113 | the whole in-place loop: for any disjoint edits every run holds the rendering of its own stretch of the original paragraph under all of them at once; the run count stays |
| `RunEdits.SortIsRightToLeft` | integrations/assessment-runtime/skillsbench_offer_letter_program.py:103-103 | reverse sorting disjoint edits gives a right-to-left order of the same edits |
| `RunEdits.OneMoreEdit` | integrations/assessment-runtime/skillsbench_offer_letter_program.py:103-113 | an edit made to the left of those already made, at its original positions, is the same as having had it in the set all along |
| `RunEdits.RenderIsSubstitute` | integrations/assessment-runtime/skillsbench_offer_letter_program.py:103-113 | position-wise rendering equals cut-and-paste substitution from left to right |
| `RunEdits.RenderOrder` | integrations/assessment-runtime/skillsbench_offer_letter_program.py:103-113 | what a disjoint edit list means does not depend on its order |
| `RunEdits.JoinedRunsSubstitute` | integrations/assessment-runtime/skillsbench_offer_letter_program.py:92-113 | the joined runs are the simultaneous substitution on the original joined text |
| `RunEdits.UntouchedRun` | integrations/assessment-runtime/skillsbench_offer_letter_program.py:107-113 | a run that no span meets keeps its text |
| `RunEdits.ReplacementInFirstRun` | integrations/assessment-runtime/skillsbench_offer_letter_program.py:109-112 | a replacement stands whole in the run that held the first character of its span, between what that run keeps before and after the span |
| `RunEdits.RestOfSpanIsGone` | integrations/assessment-runtime/skillsbench_offer_letter_program.py:109-112 | a stretch inside a span, past its first character, renders to nothing |
| `OfferLetter.TokenAtIsToken` | integrations/assessment-runtime/skillsbench_offer_letter_program.py:97-97 | the matcher for tokens matches exactly braces around a non-empty name of capitals and underscores |
| `OfferLetter.BlockAtIsBlock` | integrations/assessment-runtime/skillsbench_offer_letter_program.py:94-94 | the matcher for conditional blocks matches exactly from an opening marker to the first closing marker after it on the same line |
| `OfferLetter.TokensApart` | integrations/assessment-runtime/skillsbench_offer_letter_program.py:97-97 | two tokens never share a position |
| `OfferLetter.TokenInOrOut` | integrations/assessment-runtime/skillsbench_offer_letter_program.py:94-98 | no token straddles a block boundary |
| `OfferLetter.FindAllTokens` | integrations/assessment-runtime/skillsbench_offer_letter_program.py:97-97 | the left-to-right scan misses no token |
| `OfferLetter.WantedApart` | integrations/assessment-runtime/skillsbench_offer_letter_program.py:93-101 | the edits that should be made are in range, non-empty and pairwise disjoint, for every text and either relocation choice |
| `OfferLetter.HitsIsInsideRemoved` | integrations/assessment-runtime/skillsbench_offer_letter_program.py:98-98 | the test against all edits gathered so far skips exactly the tokens inside removed blocks |
| `OfferLetter.GatherBlocks` | integrations/assessment-runtime/skillsbench_offer_letter_program.py:93-96 | nothing unless relocation is declined; then deletions of blocks only, which together cover every block of the text |
| `OfferLetter.FindAllBlocks` | integrations/assessment-runtime/skillsbench_offer_letter_program.py:94-94 | every block of the text, also one that begins inside another, lies in a block the scan finds |
| `OfferLetter.GatherEdits` | integrations/assessment-runtime/skillsbench_offer_letter_program.py:93-101 | the two passes gather exactly the wanted edits, disjoint and in range, under which every block renders as nothing if relocation is declined, text outside tokens and cut blocks as itself, the markers as nothing and every other token as its field; they fail exactly when a token outside the cut blocks names no field, and name one such |
| `OfferLetter.GatheredReadsRight` | integrations/assessment-runtime/skillsbench_offer_letter_program.py:93-101 | the same of any edits gathered for a text, said of its blocks and tokens alone |
| `OfferLetter.FillParagraph` | integrations/assessment-runtime/skillsbench_offer_letter_program.py:91-113 | every run holds the rendering of its own stretch, with blocks cut exactly if relocation is declined, plain text kept and tokens replaced by their fields; an unknown field leaves the paragraph unchanged |
| `OfferLetter.FillingIsDetermined` | integrations/assessment-runtime/skillsbench_offer_letter_program.py:91-113 | text and data alone determine every run of the result |
| `OfferLetter.SegmentationDoesNotMatter` | integrations/assessment-runtime/skillsbench_offer_letter_program.py:92-113 | however the same text is split into runs, the filled paragraphs read the same |
| `CanonicalJson.QuoteUnique` | integrations/dsh-aeep-router/lib.js:12-14 | a quoted string is self-delimiting: escapes, short escapes and lone surrogates can be read back in only one way |
| `CanonicalJson.SortSorted` | integrations/dsh-aeep-router/lib.js:12-12 | sorting distinct keys gives a strictly ascending list in UTF-16 code-unit order, the order of section 3.2.3 of RFC 8785 |
| `CanonicalJson.SortedUnique` | integrations/dsh-aeep-router/lib.js:12-12 | a set of keys has only one sorted list |
| `CanonicalJson.EquivalentPrintEqual` | integrations/dsh-aeep-router/lib.js:9-15 | values equal up to member order, at every depth, print the same |
| `CanonicalJson.PrintEqualEquivalent` | integrations/dsh-aeep-router/lib.js:9-15 | nested output can be parsed in only one way: if two prints, each followed by something delimited, are the same text, the values are equal up to member order and so are the rests |
| `CanonicalJson.StableJsonIsCanonical` | integrations/dsh-aeep-router/lib.js:9-15 | two JSON values print equal if and only if they are equal up to member order |
| `JsonText.LiteralTexts` | integrations/dsh-aeep-router/lib.js:14-14 | null, true and false are printed as such |
| `JsonText.ArrayText` | integrations/dsh-aeep-router/lib.js:10-10 | an array is printed as its elements in order, separated by commas, in brackets |
| `JsonText.ObjectText` | integrations/dsh-aeep-router/lib.js:11-13 | an object is printed as its members in ascending key order, each a quoted key, a colon and its value, separated by commas, in braces |
| `JsonText.EscapedIsUnitText` | integrations/dsh-aeep-router/lib.js:12-14 | each unit of a string is printed as section 7 of RFC 8259 prescribes, with the short escape where there is one; lone surrogates are escaped |
| `JsonText.StringText` | integrations/dsh-aeep-router/lib.js:12-14 | a string is printed between quotation marks, unit by unit |
| `BridgeProtocol.Drain` | integrations/dsh-aeep-router/lib.js:183-201 | after draining the buffer holds no newline and is within the limit; settlements are only appended; the child is kept or given up |
| `BridgeProtocol.DrainMore` | integrations/dsh-aeep-router/lib.js:180-202 | draining with more output already appended is draining and then receiving that output |
| `BridgeProtocol.ChunkingDoesNotMatter` | integrations/dsh-aeep-router/lib.js:175-202 | any cutting of a child's output into chunks gives the same settlements, in order, and the same final state as delivering it at once, also for over-long, malformed and unknown-id lines |
| `BridgeProtocol.SameBytesSameOutcome` | integrations/dsh-aeep-router/lib.js:175-202 | two cuttings of the same bytes cannot be told apart |
| `BridgeProtocol.IdFresh` | integrations/dsh-aeep-router/lib.js:219-219 | the next request id was never issued before |
| `BridgeProtocol.StepKeepsInv` | integrations/dsh-aeep-router/lib.js:151-235 | every event keeps: issued ids numbered, each pending or settled exactly once, answers only from the issuing generation, timers exactly on pending ids, no child implies empty buffer and nothing pending, buffer newline-free and within the limit |
| `BridgeProtocol.RunKeepsInv` | integrations/dsh-aeep-router/lib.js:151-235 | the same over every run of events |
| `BridgeProtocol.EveryRunIsSafe` | integrations/dsh-aeep-router/lib.js:151-235 | every state reachable from the fresh client satisfies that invariant |
| `BridgeProtocol.SettlementsAreFinal` | integrations/dsh-aeep-router/lib.js:151-235 | a run only appends to the settlements |
| `BridgeProtocol.DisposalSettlesAll` | integrations/dsh-aeep-router/lib.js:231-234 | after disposal every id ever issued is settled |
| `BridgeProtocol.RepliesReachTheirRequests` | integrations/dsh-aeep-router/lib.js:183-201 | replies in any order settle each its own request with its own answer, in the order of the replies, and leave the others pending |
| `BridgeEvents.EventEndsAll` | integrations/dsh-aeep-router/lib.js:204-215 | the close or error of the current child, the timeout or abort of a waiting request, and disposal leave no child, buffer, timer or listener, and every id ever issued settled; those that waited are settled in order with that event's own reason |
| `BridgeEvents.StaleEventIsIgnored` | integrations/dsh-aeep-router/lib.js:175-177 | events of an older child and timeouts or aborts of requests that do not wait change nothing |
| `BridgeEvents.BadLineEndsAll` | integrations/dsh-aeep-router/lib.js:189-195 | a complete line that is too long, no JSON or of no waiting request ends everything, with the first of these reasons that applies |
| `BridgeEvents.UnfinishedLine` | integrations/dsh-aeep-router/lib.js:185-188 | output without a line end is kept as long as it fits and ends everything once it does not |
| `BridgeEvents.RequestEnters` | integrations/dsh-aeep-router/lib.js:217-229 | an accepted request gets an id never issued before and waits under the current child, or under a new one of a generation no request was ever issued under; its timer runs and its signal is listened to; nothing else changes |
| `BridgeEvents.AbortedRequestEndsAll` | integrations/dsh-aeep-router/lib.js:226-227 | a signal aborted before ends at once everything a live one would let wait |
| `BridgeEvents.LongRequestIsRefused` | integrations/dsh-aeep-router/lib.js:218-221 | an over-long request uses up its number, leaves a child running and nothing waiting for it |
| `BridgeEvents.NextGenerationIsNew` | integrations/dsh-aeep-router/lib.js:161-177 | after an event that ends everything, the next accepted request is alone and under a generation never used before |
| `BridgeEvents.RunKeepsCounted` | integrations/dsh-aeep-router/lib.js:161-172 | over every run the generations in use are at most the number of children started |
| `BridgeEvents.StepKeepsListening` | integrations/dsh-aeep-router/lib.js:196-198 | a request that goes on waiting goes on being listened to, or not, as before |
| `BridgeClient.BridgeClient.constructor` | integrations/dsh-aeep-router/lib.js:152-159 | a fresh client is in the initial protocol state |
| `BridgeClient.BridgeClient.Start` | integrations/dsh-aeep-router/lib.js:161-178 | takes the protocol's start step: a new generation only if there is no child |
| `BridgeClient.BridgeClient.OnData` | integrations/dsh-aeep-router/lib.js:180-202 | the framing loop takes the protocol's data step |
| `BridgeClient.BridgeClient.NextLine` | integrations/dsh-aeep-router/lib.js:184-191 | one round of the framing loop: either the drained state, or a shorter buffer with the same drained state |
| `BridgeClient.BridgeClient.TakeLine` | integrations/dsh-aeep-router/lib.js:189-200 | one complete line: over-long, malformed, unknown id, or the settlement of its request |
| `BridgeClient.BridgeClient.Fail` | integrations/dsh-aeep-router/lib.js:204-215 | rejects every pending request in order, disarms its timer and listener, drops child and buffer |
| `BridgeClient.BridgeClient.Request` | integrations/dsh-aeep-router/lib.js:217-229 | takes the issue step; refused when over the input limit, and an already aborted signal fails everything pending |
| `BridgeClient.BridgeClient.Handle` | integrations/dsh-aeep-router/lib.js:175-177 | every callback takes the protocol step of its event; one that fires ends everything with its own reason, a stale one changes nothing |
| `RouterConfig.CheckBaseline` | integrations/dsh-aeep-router/lib.js:87-88 | accepts exactly the lists of distinct non-empty names |
| `RouterConfig.CheckTargets` | integrations/dsh-aeep-router/lib.js:102-109 | accepts exactly well-formed targets and returns exactly the tools hidden behind the source |
| `RouterConfig.CheckRoute` | integrations/dsh-aeep-router/lib.js:101-109 | accepts exactly well-formed routes with a name and a capability, and returns the tools they hide |
| `RouterConfig.ValidateTools` | integrations/dsh-aeep-router/lib.js:95-111 | accepts exactly the configurations with well-formed routes, one source per capability and no hidden tool in the baseline |
| `RouterConfig.ValidIffFaultless` | integrations/dsh-aeep-router/lib.js:87-111 | the valid configurations are exactly those with no empty or repeated baseline name, no capability twice, no route or target with an empty name, a malformed digest, no targets or another adapter, and no hidden tool in the baseline |
| `RouterConfig.FilterAssembly` | integrations/dsh-aeep-router/lib.js:63-77 | a tool stays exactly if it is allowed; a section stays exactly if it is not the section of a listed tool that is not allowed and no tool that is not allowed is configured with it |
| `RouterConfig.FilterComposes` | integrations/dsh-aeep-router/lib.js:63-77 | filtering by A and then by B is filtering by the intersection, for tools and sections |
| `RouterConfig.FilterIdempotentAndMonotone` | integrations/dsh-aeep-router/lib.js:63-77 | filtering again changes nothing, and a smaller set never shows more |
| `RouterConfig.KeepInOrder` | integrations/dsh-aeep-router/lib.js:74-75 | what stays keeps its order and repetitions |
| `Admission.SelectionIsChecked` | integrations/dsh-aeep-router/index.js:74-92 | a selection is a mapped target of the source's route with both schemas at their reviewed digests, the input valid for both, and equal output schemas unless adapted |
| `Admission.SelectionIff` | integrations/dsh-aeep-router/index.js:74-92 | a selection is returned if and only if the registered tools pass all those checks |
| `Admission.SelectionRefusals` | integrations/dsh-aeep-router/index.js:74-92 | a missing tool, a drifted or missing schema of either tool, an input that fits either one not, and differing output schemas without an adapter each make the selection fail |
| `Admission.StepKeepsInv` | integrations/dsh-aeep-router/index.js:161-329 | every handler segment keeps: hints routed, running executions routed and checked, every admission owned by an execution in flight, no execution recorded twice |
| `Admission.RunKeepsInv` | integrations/dsh-aeep-router/index.js:161-329 | the same over every interleaving |
| `Admission.TopLevelGuard` | integrations/dsh-aeep-router/index.js:189-222 | in every reachable state a model-direct call passes exactly for a baseline tool or the source tool of the hint on the agent's current turn |
| `Admission.HiddenToolsRunOnlyNested` | integrations/dsh-aeep-router/index.js:214-222 | with a validated configuration a hidden tool that is no source passes only as a nested call under a token whose execution in flight selected exactly that tool |
| `Admission.AgentlessCallsPass` | integrations/dsh-aeep-router/index.js:215-215 | the guard lets every call without an agent through, so the two guard results hold for calls of agents only |
| `Admission.AdmissionEndsWithItsExecution` | integrations/dsh-aeep-router/index.js:274-287 | once the granting execution returns, the guard refuses the nested call |
| `Admission.RunningCallsAreRouted` | integrations/dsh-aeep-router/index.js:257-288 | every hinted call that reached the tool carries a decision routed for an equal argument value, up to member order, and passed both schema checks on it |
| `Admission.AtMostOneRecord` | integrations/dsh-aeep-router/index.js:289-329 | no execution is recorded twice, nor while it is in flight |
| `Admission.StepKeepsDecisions` | integrations/dsh-aeep-router/index.js:257-303 | every handler segment keeps the decision of each due and each written record right |
| `Admission.RunKeepsDecisions` | integrations/dsh-aeep-router/index.js:257-303 | the same over every interleaving |
| `Admission.RecordedDecisions` | integrations/dsh-aeep-router/index.js:262-303 | over every interleaving each record goes under a decision routed for its own arguments, up to member order, unless the second routing failed; then it goes under the hint's decision, and the arguments differ from the hint's input by more than member order |
| `Admission.FailedReroutingIsRecorded` | integrations/dsh-aeep-router/index.js:262-303 | for every admissible hint and every call of its source with other arguments there is a run after which that call is recorded under a decision never routed for its arguments |
| `Admission.FailedReroutingOccurs` | integrations/dsh-aeep-router/index.js:262-303 | one such run, under a validated configuration |
| `AdmissionGrants.AdmissibleHintWaits` | integrations/dsh-aeep-router/index.js:169-180 | the command queues exactly a hint whose selection passes the checks |
| `AdmissionGrants.ClaimGivesTheHint` | integrations/dsh-aeep-router/index.js:189-196 | after a claim the turn's model-direct calls are the baseline and the source of the hint that waited for that message, which waits no longer |
| `AdmissionGrants.DiscardedHintIsGone` | integrations/dsh-aeep-router/index.js:201-201 | a discarded message leaves no hint to claim |
| `AdmissionGrants.NoTurnNoHint` | integrations/dsh-aeep-router/index.js:331-334 | after a turn has ended, and before the first, only the baseline passes |
| `AdmissionGrants.OtherAgentsTurnStays` | integrations/dsh-aeep-router/index.js:189-196 | claims and ends of one agent do not touch another |
| `AdmissionGrants.VisibleNestedCallPasses` | integrations/dsh-aeep-router/index.js:217-217 | a nested call of a tool that is not hidden always passes |
| `AdmissionGrants.SameArgumentsRun` | integrations/dsh-aeep-router/index.js:262-275 | a hinted call with the hint's arguments runs the tool its decision selects, and another tool is admitted under its token; if the selection fails a record is due at once |
| `AdmissionGrants.OtherArgumentsReroute` | integrations/dsh-aeep-router/index.js:266-268 | with other arguments it waits for a second routing and admits nothing |
| `AdmissionGrants.SecondDecisionRuns` | integrations/dsh-aeep-router/index.js:267-274 | and then runs what the second decision selects |
| `AdmissionGrants.ReturnIsRecorded` | integrations/dsh-aeep-router/index.js:285-303 | a running execution that returns owes exactly one record under the decision it ran with, and its result writes it |
| `AdmissionGrants.RunKeepsGrant` | integrations/dsh-aeep-router/index.js:274-287 | over every run an execution that runs another tool and has its token to itself keeps that tool admitted until it returns |
| `AdmissionGrants.NestedCallPassesIff` | integrations/dsh-aeep-router/index.js:214-222 | from the step that starts such an execution to the one that ends it, the guard lets a nested call of a hidden tool through under its token exactly for the tool selected in its stead |
| `AdmissionGrants.SharedTokenTakesTheGrant` | integrations/dsh-aeep-router/index.js:285-287 | an execution that returns takes the admission of any other one with its token along, though that one then has the token to itself |
| `AdmissionGrants.SharedTokenOccurs` | integrations/dsh-aeep-router/index.js:257-288 | such a state is reachable if two executions get one token |
| `AdmissionGrants.DistinctTokensAreAlone` | integrations/dsh-aeep-router/index.js:257-288 | executions of a host that gives each one a token of its own have it to themselves |
| `AdmissionGrants.NestedCallPasses` | integrations/dsh-aeep-router/index.js:214-222 | so with distinct tokens every substituted call passes, and no other hidden tool does |
| `AdmissionPlugin.Plugin.constructor` | integrations/dsh-aeep-router/index.js:120-131 | a fresh plugin is in the initial admission state, with the hidden tools computed |
| `AdmissionPlugin.Plugin.AdmitHint` | integrations/dsh-aeep-router/index.js:167-185 | takes the model's step for a routed hint, error paths included |
| `AdmissionPlugin.Plugin.Claim` | integrations/dsh-aeep-router/index.js:189-196 | the claimed message's hint becomes the turn's hint and is used up |
| `AdmissionPlugin.Plugin.Allows` | integrations/dsh-aeep-router/index.js:214-222 | answers exactly the guard of the model, from the precomputed hidden tools |
| `AdmissionPlugin.HiddenNames` | integrations/dsh-aeep-router/index.js:130-130 | holds exactly the target tools of routes with another source |
| `AdmissionPlugin.Plugin.Execute` | integrations/dsh-aeep-router/index.js:257-260 | takes the model's execute step; unhinted and nested calls pass by |
| `AdmissionPlugin.Plugin.Launch` | integrations/dsh-aeep-router/index.js:262-268 | a hinted call waits for a second routing exactly when its arguments print unlike the hint's input |
| `AdmissionPlugin.Plugin.Proceed` | integrations/dsh-aeep-router/index.js:269-274 | admits the selected tool under the call's token exactly if it is another one; a refused selection makes a record due |
| `AdmissionPlugin.Plugin.Finish` | integrations/dsh-aeep-router/index.js:289-295 | the ended handler leaves only the decision of its record, under its call id |
| `AdmissionPlugin.Plugin.Resume` | integrations/dsh-aeep-router/index.js:267-274 | continues with the second routing's decision |
| `AdmissionPlugin.Plugin.GiveUp` | integrations/dsh-aeep-router/index.js:293-295 | a failed second routing owes a record under the hint's decision |
| `AdmissionPlugin.Plugin.Return` | integrations/dsh-aeep-router/index.js:285-294 | withdraws the admission and owes one record |
| `AdmissionPlugin.Plugin.SeeResult` | integrations/dsh-aeep-router/index.js:299-303 | writes the due record once, under the decision kept for the call |
| `AdmissionPlugin.Plugin.Handle` | integrations/dsh-aeep-router/index.js:161-329 | every event takes the model's step, so what is proved of all runs holds of the plugin |
| `Receipts.StepKeepsInv` | integrations/dsh-aeep-router/index.js:133-159 | every step keeps: waiting and handed receipts each come from one settled write of their agent and turn, without repetition |
| `Receipts.RunKeepsInv` | integrations/dsh-aeep-router/index.js:133-159 | the same over every interleaving |
| `Receipts.ReceiptsAreAttributedOnce` | integrations/dsh-aeep-router/index.js:133-159 | a write's receipt is handed to at most one request, once, and only to a request of the agent and turn its result was recorded in |
| `Receipts.AvailableStep` | integrations/dsh-aeep-router/index.js:154-159 | a step keeps a waiting receipt exactly when it is not a take of this or a later turn, a claim of a later turn, or a disposal |
| `Receipts.AvailableIff` | integrations/dsh-aeep-router/index.js:133-159 | over every run: a receipt waits at the end exactly when its write succeeded and no such step came in between |
| `Receipts.PendingWriteIsIncludedIff` | integrations/dsh-aeep-router/index.js:224-226 | for every write, from the moment it is recorded: a request of its turn that began while it was pending includes it if and only if it succeeded and, from its settlement on (before or after the request began), no later turn was claimed, the agent was not disposed and no other request of the turn or a later one took |
| `Receipts.SecondTakerGetsNothing` | integrations/dsh-aeep-router/index.js:150-159 | of two overlapping requests of one turn the second to take gets nothing |
| `Receipts.OverlappingRequestsCompete` | integrations/dsh-aeep-router/index.js:224-226 | a state reachable in the model in which a request misses a successful write that was pending when it began although no later turn was claimed: another open request of the turn takes first |
| `Receipts.EarlierRequestCanTakeFirst` | integrations/dsh-aeep-router/index.js:139-159 | a second such state, with no other request open: an earlier request took the receipt after it was pushed and before the write left the pending set |
| `Receipts.ReceiptIdsAreHandedOnce` | integrations/dsh-aeep-router/index.js:154-159 | if different writes are answered with different receipt ids, no receipt id is handed over twice |
| `ReceiptTurns.TurnIsLastClaim` | integrations/dsh-aeep-router/index.js:189-196 | over every run an agent is in the turn of its last claim that no end of a turn and no disposal followed, and in none without one |
| `ReceiptTurns.WriteHasItsTurn` | integrations/dsh-aeep-router/index.js:320-322 | a result is recorded under that turn, or under 0, and its write is pending from then on |
| `ReceiptTurns.RunKeepsPending` | integrations/dsh-aeep-router/index.js:133-149 | until the agent is disposed of, its pending writes are exactly those that have not left |
| `ReceiptTurns.RequestWaitsForItsWrites` | integrations/dsh-aeep-router/index.js:150-153 | so a new request waits for exactly those |
| `ReceiptTurns.ReceiptsComeInOrder` | integrations/dsh-aeep-router/index.js:141-143 | receipts are handed over in the order in which they came in |
| `ReceiptKeeper.Keeper.constructor` | integrations/dsh-aeep-router/index.js:127-128 | a fresh keeper is in the initial receipt state |
| `ReceiptKeeper.Keeper.Enqueue` | integrations/dsh-aeep-router/index.js:133-148 | takes the model's step for a new write |
| `ReceiptKeeper.Keeper.Settle` | integrations/dsh-aeep-router/index.js:139-146 | pushes turn and id, without the write, exactly for a write answered with an id |
| `ReceiptKeeper.Keeper.Leave` | integrations/dsh-aeep-router/index.js:147-147 | a settled write leaves the pending set |
| `ReceiptKeeper.Keeper.Claim` | integrations/dsh-aeep-router/index.js:197-198 | drops the receipts of earlier turns |
| `ReceiptKeeper.Keeper.KeepFrom` | integrations/dsh-aeep-router/index.js:157-157 | filtering the untagged list agrees with filtering the model's tagged one |
| `ReceiptKeeper.UntaggedOfTurn` | integrations/dsh-aeep-router/index.js:156-156 | taking by turn from the untagged list gives the ids of the entries the model takes, in order |
| `ReceiptKeeper.UntaggedFrom` | integrations/dsh-aeep-router/index.js:157-157 | dropping by turn commutes with forgetting the write tags |
| `ReceiptKeeper.Keeper.Begin` | integrations/dsh-aeep-router/index.js:224-225 | a request waits for exactly the writes pending now |
| `ReceiptKeeper.Keeper.Ids` | integrations/dsh-aeep-router/index.js:156-156 | the ids of the turn's receipts, in order |
| `ReceiptKeeper.Keeper.Take` | integrations/dsh-aeep-router/index.js:154-159 | hands over the ids of exactly the turn's receipts and keeps only later ones |
| `ReceiptKeeper.Keeper.Stop` | integrations/dsh-aeep-router/index.js:331-334 | takes the model's end of a turn |
| `ReceiptKeeper.Keeper.Dispose` | integrations/dsh-aeep-router/index.js:335-341 | forgets the agent |
| `ValidationRecord.Driver.constructor` | reports/v08/native-boundary-validation-task-presentation-driver.py:12-17 | resumes from the stored checks |
| `ValidationRecord.Driver.Run` | reports/v08/native-boundary-validation-task-presentation-driver.py:18-34 | one phase changes list, file and logs as the model's step, for every fate of the process; a phase that ran to its end, passing or not, leaves exactly one more check in list and file, and the process goes on exactly after a pass |
| `ValidationRecord.Driver.RunAll` | reports/v08/native-boundary-validation-task-presentation-driver.py:8-58 | one life of the driver, or of the successor, changes the disk as the model's life |
| `ValidationProofs.AppendKeeps` | reports/v08/native-boundary-validation-task-presentation-driver.py:21-31 | a check appended by the rule keeps the record sound |
| `ValidationProofs.RunPhaseOutcome` | reports/v08/native-boundary-validation-task-presentation-driver.py:18-34 | a phase goes on or dies after an earlier pass, leaves one record with the next attempt number, or dies without one; one that ran to its end leaves its record |
| `ValidationProofs.RunPhaseKeeps` | reports/v08/native-boundary-validation-task-presentation-driver.py:18-34 | one phase keeps the record sound and reaches the next phase only with a pass |
| `ValidationProofs.EveryHistoryIsSound` | reports/v08/native-boundary-validation-task-presentation-noncontainer-successor.py:8-57 | any history of driver and successor lives, crashes and outcomes: attempts numbered 1..k, nothing after a pass, a record only after all earlier phases but the container one passed, completion marks only over the passes they claim |
| `ValidationProofs.EveryDriverHistoryIsSound` | reports/v08/native-boundary-validation-task-presentation-driver.py:8-58 | with the driver alone the container phase counts too: complete is written only over 22 passing, source-unchanged phases |
| `ValidationProofs.KilledInRunWedges` | reports/v08/native-boundary-validation-task-presentation-driver.py:25-32 | being killed between creating a log and writing its record wedges the phase |
| `ValidationProofs.WedgedForever` | reports/v08/native-boundary-validation-task-presentation-driver.py:25-25 | no later life of either program ever gets past a wedged phase |
| `ValidationProofs.CleanLifeCompletes` | reports/v08/native-boundary-validation-task-presentation-driver.py:36-58 | one undisturbed life completes any record without a wedged phase |
| `ValidationProofs.CompletableIff` | reports/v08/native-boundary-validation-task-presentation-driver.py:8-58 | a record neither corrupt nor complete can be completed by some sequence of lives exactly when no phase is wedged |
| `ValidationPhases.EndedPhaseIsRecorded` | reports/v08/native-boundary-validation-task-presentation-driver.py:26-34 | a phase that had not passed, with its next log free, and that ran to its end leaves exactly one more check, with its exit, its source flag and the next attempt number, in memory and in the file |
| `ValidationPhases.PassedPhaseIsRetained` | reports/v08/native-boundary-validation-task-presentation-driver.py:21-22 | a phase that passed is not run again |
| `ValidationPhases.WedgedPhaseStops` | reports/v08/native-boundary-validation-task-presentation-driver.py:25-25 | a wedged phase stops the process and changes nothing |
| `ValidationPhases.WedgedOnlyByKill` | reports/v08/native-boundary-validation-task-presentation-driver.py:25-32 | in a readable record an unwedged phase becomes wedged exactly by being killed while it runs |
| `ValidationPhases.LifeWedgesOnlyByKill` | reports/v08/native-boundary-validation-task-presentation-driver.py:8-58 | the same over a whole life of either program |
| `ValidationPhases.HistoryWedgesOnlyByKill` | reports/v08/native-boundary-validation-task-presentation-driver.py:8-58 | the same after every history |
| `ValidationPhases.NothingToDo` | reports/v08/native-boundary-validation-task-presentation-driver.py:9-13 | a complete or unreadable record and an unauthorized life leave the disk alone |
| `Prerequisite.GatherRecord` | reports/v08/native-only-validation-prerequisite-5fff.py:12-15 | gathers one record's checks; stops exactly on a repeated phase |
| `Prerequisite.Judge` | reports/v08/native-only-validation-prerequisite-5fff.py:16-18 | the final assertions: exactly the required phases, all passing, some container outcome |
| `Prerequisite.VerdictIsEvidence` | reports/v08/native-only-validation-prerequisite-5fff.py:12-18 | those assertions on the gathered dictionary say exactly that the evidence as a whole is acceptable |
| `Prerequisite.Validate` | reports/v08/native-only-validation-prerequisite-5fff.py:5-19 | accepts if and only if all records are bound to the source, every required phase occurs exactly once, passing and unchanged, nothing else occurs and a container outcome is retained, which it returns |
| `Prerequisite.SuccessorRecordAcceptedIff` | reports/v08/native-boundary-validation-task-presentation-noncontainer-successor.py:17-57 | end to end: the record of any history in which a successor finished is accepted if and only if no required phase ever failed in it and a container outcome was recorded |
| `ValidationPhases.AcceptsIffCounts` | reports/v08/native-only-validation-prerequisite-5fff.py:5-19 | records are accepted if and only if they are bound to the source, each required phase occurs once over all of them and passed, the container phase at least once, and no other |
| `ValidationPhases.ContainerFailureThenSuccessorIsAccepted` | reports/v08/native-boundary-validation-task-presentation-noncontainer-successor.py:8-57 | a driver that fails at the container phase only and a successor in which every phase passes leave a record that is accepted |
| `Workbook.CleanRows` | integrations/assessment-runtime/workbook_program.py:62-75 | the entries stand, in order, for exactly the first occurrences of non-null identities whose numbers and date parse, each with its own identity, date, quantity, price and product |
| `Workbook.KeptExactly` | integrations/assessment-runtime/workbook_program.py:62-75 | an entry is there exactly when some first occurrence says it, field by field: a duplicate never revives a rejected first row |
| `Workbook.CleanedAmounts` | integrations/assessment-runtime/workbook_program.py:74-74 | each kept row carries the product of its own numbers |
| `Workbook.AddressInjective` | integrations/assessment-runtime/workbook_grader.py:77-77 | column letter plus decimal row number names one cell only |
| `Workbook.FormulasCiteTheirCells` | integrations/assessment-runtime/workbook_program.py:116-121 | a row's formula multiplies its own quantity and price cells; the total sums the amount cells from the first row to the last |
| `Workbook.RewriteData` | integrations/assessment-runtime/workbook_program.py:114-118 | whatever the old data rows hold, the header stays and the sheet then holds exactly the cleaned rows with relative formulas, at their addresses |
| `Workbook.Reference` | integrations/assessment-runtime/workbook_program.py:111-145 | the produced workbook has the rewritten Data sheet, the Summary and the extra sheets with every formula cache filled; fails exactly when an extra formula has no row to take its cache from |
| `WorkbookGrader.CheckHeaders` | integrations/assessment-runtime/workbook_grader.py:80-82 | accepts exactly five right and bold headers |
| `WorkbookGrader.CheckRow` | integrations/assessment-runtime/workbook_grader.py:84-92 | names the first fault of a row, in order: cell value, formula cache, row formula, recomputed cache |
| `WorkbookGrader.CheckRows` | integrations/assessment-runtime/workbook_grader.py:83-94 | accepts exactly when all rows are right, returning the recomputed sum; otherwise names the fault of the first wrong row |
| `WorkbookGrader.CheckSummary` | integrations/assessment-runtime/workbook_grader.py:95-98 | accepts exactly the right label, value and formula; a missing cell makes the workbook invalid |
| `WorkbookGrader.CheckData` | integrations/assessment-runtime/workbook_grader.py:76-94 | extent, then headers, then rows |
| `WorkbookGrader.CheckFixedSheets` | integrations/assessment-runtime/workbook_grader.py:76-98 | Data before Summary |
| `WorkbookGrader.FailureCode` | integrations/assessment-runtime/workbook_grader.py:68-99 | accepts exactly when sheet set, extent, headers, every value and formula, Summary and extras match; each code exactly when its check is the first to fail |
| `WorkbookGrader.ReferenceAcceptedIff` | integrations/assessment-runtime/workbook_grader.py:68-99 | for any rounding: the workbook grader accepts the reference's output if and only if no extra sheet is called Summary, identities and extra texts are not formula-like and the recomputation is exact |
| `WorkbookGrader.AcceptedBooksAgree` | integrations/assessment-runtime/workbook_grader.py:68-99 | any two books accepted against the same truth have the same sheets, Data values, Amount formulas, total and extra texts |
| `WorkbookGrader.SmallSumsAreExact` | integrations/assessment-runtime/workbook_grader.py:91-94 | sums of amounts below 10^28 are recomputed exactly |
| `WorkbookGrader.RoundTrip` | integrations/assessment-runtime/workbook_program.py:62-145 | for any raw rows with plain kept identities and sums below 10^28 and any plain extra sheets, the workbook grader accepts the reference's output against the cleaned rows |
| `WorkbookGrader.LongProductIsRefused` | integrations/assessment-runtime/workbook_grader.py:89-92 | a correct 29-digit product is refused: 28-digit arithmetic rounds it |
| `Decimal28.RoundExactly` | integrations/assessment-runtime/workbook_grader.py:91-93 | rounding to 28 digits leaves a number alone exactly when all further digits are zero |
| `Decimal28.RoundToNearest` | integrations/assessment-runtime/workbook_grader.py:91-93 | rounding goes to the nearest multiple, and to the even one of two equally near ones |
| `Decimal28.ExcessIsExact` | integrations/assessment-runtime/workbook_grader.py:91-93 | the excess is the number of digits beyond 28 |
| `CampaignPlan.Shuffle` | examples/dsh_campaign/plugin_campaign.py:191-199 | for all draws the result is a rearrangement |
| `CampaignPlan.AddRepetitions` | examples/dsh_campaign/plugin_campaign.py:194-197 | one block for each repetition of the case, each with both arms |
| `CampaignPlan.OnceEachIff` | examples/dsh_campaign/plugin_campaign.py:158-161 | an accepted definition covers each capability exactly once if and only if it has three cases |
| `CampaignPlan.RepeatedCapabilityIsAccepted` | examples/dsh_campaign/plugin_campaign.py:158-161 | four cases, two of one capability, are accepted although the message asks for each capability exactly once |
| `CampaignPlan.BuildPlan` | examples/dsh_campaign/plugin_campaign.py:183-200 | refuses exactly repetition counts outside 1..100; otherwise two warm-ups for each case, one for each arm, and a plan made of exactly one two-arm block for each case and repetition, in any order |
| `CampaignPlan.PlanCoversOnce` | examples/dsh_campaign/plugin_campaign.py:183-200 | each case, repetition and arm stands in the plan at exactly one place, and the two arms of a pair are adjacent |
| `CampaignPairs.InsertKey` | examples/dsh_campaign/plugin_campaign.py:392-392 | keeps the keys sorted and without repetition |
| `CampaignPairs.Keys` | examples/dsh_campaign/plugin_campaign.py:390-392 | the sorted distinct keys, and a dictionary that holds the last trial of each key and arm |
| `CampaignPairs.Pairs` | examples/dsh_campaign/plugin_campaign.py:389-428 | fails exactly when some key lacks an arm; otherwise sorted pairs, one for each key, each holding its two arms |
| `CampaignPairs.PlanIsComplete` | examples/dsh_campaign/plugin_campaign.py:389-394 | for the trials of any plan no key is missing |
| `CampaignPairs.BlockIsFound` | examples/dsh_campaign/plugin_campaign.py:390-394 | the dictionary finds for each key the two trials of its own block |
| `CampaignPairs.SavedByBlocks` | examples/dsh_campaign/plugin_campaign.py:400-402 | block by block, the savings add up to the difference of the arms' totals |
| `CampaignPairs.SavingsAreConserved` | examples/dsh_campaign/plugin_campaign.py:572-572 | cases times repetitions pairs, and for every measure the summed savings equal the direct total minus the native total |
| `CampaignStatistics.SortRanks` | examples/dsh_campaign/plugin_campaign.py:209-212 | the k-th element of the sorted list has rank k in the unsorted one |
| `CampaignStatistics.RanksAreOrdered` | examples/dsh_campaign/plugin_campaign.py:215-216 | elements are ordered as their ranks, so the element of a rank is determined |
| `CampaignStatistics.MedianHalves` | examples/dsh_campaign/plugin_campaign.py:214-214 | at most half of the values lie below the median and at most half above it |
| `CampaignStatistics.Bootstrap` | examples/dsh_campaign/plugin_campaign.py:203-218 | fails exactly without values or below 100 resamples; otherwise the ends are the elements of rank n/40 and 39n/40 among the resampled medians, for every draw |
| `CampaignStatistics.IntervalIsOrdered` | examples/dsh_campaign/plugin_campaign.py:213-218 | the lower end does not exceed the upper one and both lie within any bounds of the values |
| `CampaignStatistics.VerdictFollowsThePairs` | examples/dsh_campaign/plugin_campaign.py:480-487 | invalid exactly if a gate fails; otherwise all-positive pairs always demonstrate savings, all non-positive never do, and either verdict needs a pair that supports it |
| `Campaign.RunTrials` | examples/dsh_campaign/plugin_campaign.py:509-524 | one outcome for each planned trial, in order, under its key and arm, measured as the run of that very trial |
| `Campaign.PlanAndPair` | examples/dsh_campaign/plugin_campaign.py:494-525 | planning, running and pairing succeed for every draw and outcome: each case, repetition and arm is planned once, each trial measures its own planned one, and counts and totals are exact |
| `Campaign.GatesPassIff` | examples/dsh_campaign/plugin_campaign.py:529-536 | with full coverage all gates pass exactly when every trial completed correctly with the expected tool, every native trial has one receipt and exposes at most one tool, and the process was preserved |
| `Campaign.RunCampaign` | examples/dsh_campaign/plugin_campaign.py:490-582 | the campaign fails only on a bad repetition or resample count; otherwise each reported trial measured its own planned trial, the coverage gate passes, the reported saving is the difference of the arms' totals and the verdict fits the trials and the pairs |
| `SessionEvents.AfterResultStep` | examples/dsh_campaign/plugin_campaign.py:78-115 | the waiting flag follows from the last event: set by a rendered result, cleared by a model message, kept by everything else |
| `SessionEvents.Consume` | examples/dsh_campaign/plugin_campaign.py:64-121 | what one event adds to each counter |
| `SessionEvents.AddMessage` | examples/dsh_campaign/plugin_campaign.py:91-119 | what one model message adds |
| `SessionEvents.ParseSession` | examples/dsh_campaign/plugin_campaign.py:43-145 | every counter means what it says over the whole log: sums over model messages, input side of exactly the model messages that follow a tool result with no model message in between, largest schema, exposed names, last text, last turn's completion |
| `SessionEvents.ChargedCallsBounded` | examples/dsh_campaign/plugin_campaign.py:108-115 | each charged call answers a result of its own |
| `SessionEvents.CountersAreBounded` | examples/dsh_campaign/plugin_campaign.py:122-131 | charged tokens never exceed input tokens, charged calls neither results nor model calls, and bytes ≤ 4 × tokens ≤ bytes + 3 × results |
| `SessionEvents.OneMessage` | examples/dsh_campaign/plugin_campaign.py:91-107 | one model message adds each field of the event's usage, or of its own if the event has none; negative and missing counts add nothing |
| `SessionEvents.OtherMessage` | examples/dsh_campaign/plugin_campaign.py:93-94 | a message that is not the model's adds nothing |
| `SessionEvents.ResultIsMeasured` | examples/dsh_campaign/plugin_campaign.py:78-90 | a result is measured by its own content, or else the message's, or else the result's, in bytes and in bytes by four, rounded up |
| `SessionEvents.ResultThenMessage` | examples/dsh_campaign/plugin_campaign.py:108-115 | the model message after a result is charged its input, cache reads and cache writes |
| `SessionEvents.NoListNoCharge` | examples/dsh_campaign/plugin_campaign.py:85-90 | a result that shows no list charges nothing |
| `SessionEvents.OrderIsKept` | examples/dsh_campaign/plugin_campaign.py:74-77 | tool names, results and texts keep their order |

## Left out

- XML, ZIP, base64 and openpyxl mechanics (`inspect`, `canonical`, `encode`, `render`) are not modelled: runs, cells and sheets are taken as given, one paragraph at a time without nested paragraphs.
- Offer letters: the validation of the employee fields, the `xml:space` pass and the other document parts; a run without text is read as the empty text.
- Numbers in JSON are their printed numerals, so 0 and -0 are one value; `undefined` is no value.
- BridgeClient: UTF-8 decoding and JSON parsing of a line are one arbitrary function; a payload that overrides `id`, the spawn arguments and the exit signal are not modelled; the two halves of `close` are a request and a disposal that may be any events apart.
- Schema digests and JSON-schema validation are arbitrary functions; so what is proved holds for any of them.
- `validateConfig`: the checks of paths, identifiers, arguments, prompt sections and model routes, which are independent field checks.
- `parseActionEnvelope`, `adaptResult`, `invokeJson`, model routing and stream observation (`agent/request` after `takeReceipts`, `llm/stream`): plumbing around calls to the router.
- AdmissionPlugin.Plugin.Handle: a handler suspended at an await is an entry of `flights`, which the program keeps on its own stack; result values and footprints are not modelled.
- ReceiptKeeper.Keeper.Begin: the identities of requests and writes are given from outside and must be new, where the program has closures and promises.
- The `system-prompt/assemble` handler around `filterAssembly`: which set it filters by, and its error when the hinted source tool is absent.
- Drivers: command lines, environments, log contents, scratch directories and coverage totals; source and binary digests are outcomes that may differ at any check. A write of the record is complete, absent or unreadable.
- Workbook.CleanRows: number and date parsing are arbitrary functions; Python's equality of 1, True and 1.0 as identities is not modelled.
- Workbook.RewriteData: starts from the header row that `render` writes, since every input workbook comes from it; another header row would be kept as it is and refused by the workbook grader.
- Workbook.Reference: texts that openpyxl itself rewrites (empty, over-long or error literals) are not modelled; an extra sheet is one text cell and is not called Data.
- WorkbookGrader.ReferenceAcceptedIff: speaks of books as sheets of values; how a library prints and reads long numbers (openpyxl is understood to write 16 significant digits, so longer integers may change), sheet names that differ from Summary or Data in case only, and the size bounds of `inspect` (integrations/assessment-runtime/workbook_grader.py:15-23) are outside it.
- WorkbookGrader.RoundTrip: the same, and it assumes normalised dates, which never look like formulas.
- `generate` and the generators' fixed data are not modelled.
- CampaignStatistics.Bootstrap: exact reals in place of floating point, so the two ranks are exactly n/40 and 39n/40 rounded down.
- `validate_definition`: only the checks of the cases' capabilities and ids, since the others look at one field each.
- Campaign.RunCampaign: the arm summaries, which are one median each, and the report's descriptive fields; what a trial is observed to have done is given with its measurement.
- CampaignPlan.Shuffle: the random generator is an arbitrary sequence of draws.
- SessionEvents.ParseSession: JSON parsing and digests are given with the events; logs whose fields have the wrong container type, which raise errors, are not modelled.
- The router library, the other validation drivers and probes, install scripts, schema generation and example servers are not part of this model.
