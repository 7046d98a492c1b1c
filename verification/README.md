# The agent loop, verified

A Dafny model of the parts of the agent that decide what a provider is sent, which
prompt runs, and what is kept: the transcript renderer and its repair, turn
segmentation and coverage-gated eviction, the per-session dispatch and cancel
protocol, the run-boundary edge engine, notebook selection, and four small exact
cores (the JSON extractor, session model overrides, the first-write scope gate and
the coalescing balance fetcher).

`dafny verify dfyconfig.toml` checks everything.

## How the model is laid out

- `Transcript` holds messages, parts and positional turns. `PriorTurns` is the
  collapse, summarize and stub rewriting of single messages, and
  `PriorTurnsProperties` what that leaves of each part; `Settle` answers calls and
  repairs a transcript, and `SettleProperties` says what it writes; `Render` is the
  renderer; `RenderProperties`, `RenderRepaired` and `RenderShown` hold what it promises.
- `Segments` is the segmentation walk, `SegmentProperties` and `SegmentCuts` what it
  promises, `Boundary` with `BoundaryProperties` the raw-window budget, the registry and
  stub promotion, and `PreparePrompt` the whole of a request: detect, choose a boundary,
  freeze the collapse set, render the notes, roll back, render the rest.
  `CollapsedTurns` follows the collapse set over the requests of a run.
- `DispatchState` says what each critical section does to one session's dispatch
  state, and `DispatchSorting` what a drain does prompt by prompt. `SessionAgent` is the agent's own maps and methods, each tied to one of
  those functions. `DispatchProtocol` runs the same functions as steps of any number
  of callers in any order; `DispatchInvariants` and `DispatchTheorems` prove what
  every reachable state satisfies.
- `RunEdges`, `RunEdgesProperties`, `RunEdgesConservation` and `RunEdgesRows` are the
  run-boundary engine, against an outcome table written from its inputs alone.
- `Selection`, `SelectionProperties`, `SelectionPriority` and `SelectionFloors` are
  notebook selection.
- `ExtractJson` with `ExtractJsonTokens`, `ModelOverride`, `ScopeGate` and `BalanceFetcher` stand alone.

Methods follow the loops and field updates of the source and are proved equal to
functions; the promises are proved of the functions. Strings stand for bytes, so
`|s|` is a byte length. Store failures, clocks, model calls and file checks are
inputs.

## Where the code and its promises part

For each of these the exact condition is proved over all inputs or all reachable
states, and a concrete case or trace reaches it.

- A rebuild drops the "no override" markers so that pins are tried again, but does not
  bump the override generation. A marker of an earlier build can come back exactly
  when, at the rebuild, no pin is cached and some lookup holds that marker unpublished
  and not overtaken by a writer (`ModelOverride.RebuildReevaluatesIff`); a publish
  does it exactly when its lookup was resolved to it at the rebuild and nothing was
  published ahead of it (`ModelOverride.StalePublishIff`). The trace is
  `ModelOverride.StaleMarkerSurvivesARebuild`.
- A run ID is not always reported once: at rest it has been reported as often as it
  was submitted, less the hand-offs that carried it on to a queued prompt
  (`DispatchTheorems.AtRestEveryRunIdWasTold`). A cancelled repair retry reports it,
  and the turn it came from reports it again
  (`DispatchTheorems.CancelledRetryReportsTwice`).
- A queued prompt is dropped by a drain or a hand-off exactly when it was enqueued
  without an accept reservation and a mark stands
  (`DispatchTheorems.OnlyUntrackedAreDropped`), even if it was enqueued after the
  Cancel, while another accepted prompt keeps the mark standing
  (`DispatchTheorems.LateUntrackedPromptIsDropped`).
- A row is inserted twice past the entry guard exactly for the edge whose scan dies
  while a trigger is carried for it (`RunEdgesRows.RowWrittenTwiceIff`); the second
  insert, with the carried detail, is ignored (`RunEdgesRows.DyingScanWritesTwice`).
- A bookkeeping todos call in a session whose stored plan binds evidence is bounced
  exactly when the gate arms between the call's two phases
  (`ScopeGate.DeclaredPlanBouncedIff`, `ScopeGate.BoundPlanIsBounced`).
- A cancel mark can outlive the handles it is for. A finishing run finds one to clear
  exactly when a Cancel wrote it after the last handle it had read was given up outside
  a turn, and no handle is open (`DispatchTheorems.IdleClearWorksIff`,
  `DispatchTheorems.OrphanedMarkIsCleared`). It takes that race: with no handle given up
  between a Cancel's read and its write, a standing mark implies an open handle and the
  clear does nothing (`DispatchTheorems.IdleClearNeedsARace`). Cancelling stays exact
  in every interleaving, that one included (`DispatchTheorems.CancelIsExact`).
- The comment on the fill band says that with few covered segments every entry is in
  the band and the fill stays newest first. A stored entry is in it exactly when its
  turn is not negative, and the fill stays newest first exactly when all are
  (`SelectionFloors.FillIsNewestFirstIff`); a hydrated seed is in no band
  (`SelectionFloors.SeedIsInNoBand`).

## What the code relies on

These promises hold for everything the code itself stores and does. Each is proved with the
exact condition on arbitrary inputs, and no divergence is claimed.

- Repair counts a tool result in a message of any role, the renderer looks in tool
  messages only. Repair answers every call where the renderer looks exactly when no
  call has all its results elsewhere (`Settle.RepairAnswersInToolMessagesIff`,
  `RenderRepaired.RepairedRendersStoredIff`). Both writers of results
  (`internal/agent/settle.go:118-126`, `internal/agent/agent.go:1794-1799`) use the
  tool role (`Settle.ToolRoleMeansAnswered`).
- Settling changes nothing but the finished flags exactly when no unfinished call it
  settles stands behind another call part with its ID (`Settle.MarkFinishedExactIff`).
  Calls are only ever added by ID (`internal/message/content.go:630-640`), so two
  parts under one ID do not arise (`Settle.AddedCallsAreFirst`).
- The window estimate counts an applied stub instead of the stored result, and so does a
  render, except that a failed result always shows in full. They agree on every part but
  a failed result under an applied mark of another length
  (`BoundaryProperties.PartCountsAsShown`,
  `BoundaryProperties.EstimateCountsWhatIsShown`); a promotion applies marks only to
  results that did not fail (`BoundaryProperties.PromotionIsExact`).
- The superseded-read filter looks a missing tag up as the zero stamp. Only a failed
  read stamped before turn 0 is affected (`SelectionProperties.StrandedReadsFailed`,
  `SelectionProperties.DropsPromisedIff`, `SelectionProperties.FilteringTwice`), and
  the only entries below turn 0 are hydrated ones, stored as succeeded
  (`internal/notebook/hydrate.go:344`). Of stored notes the filter drops exactly what
  it promises, and filtering twice equals filtering once
  (`SelectionProperties.StoredReadsDropAsPromised`,
  `SelectionProperties.FilteringTwiceIsOnce`).
- The coordinator alone does not keep a cached pin and the stored row together: two
  sets that publish in the opposite order to their rows leave them apart
  (`ModelOverride.SetsPublishCrossed`, `ModelOverride.PinAgreesWithRowIff`). The
  backend's lock has writers one at a time (`internal/backend/agent.go:331-376`), and
  then they agree whenever no writer is at work
  (`ModelOverride.PinAgreesOneByOne`).
- The final message of a run gets a report only beside some note line
  (`RunEdgesRows.ReportsNeedANoteLine`); every edge that carries a report renders one
  (`internal/agent/run_edges.go:1475-1476`, `:1670-1673`, `:1820-1823`).

## Model

| member | source | states |
|---|---|---|
| `Transcript.MessageTurns` | internal/agent/stubs.go:89-99 | the array holds each message's positional turn: user messages after index 0, counted up to it |
| `Transcript.TurnMonotone` | internal/agent/stubs.go:80-99 | turns never go down along the transcript |
| `Transcript.TurnStable` | internal/agent/stubs.go:80-99 | appending messages renumbers no stored message |
| `Transcript.TurnCountsPrompts` | internal/agent/stubs.go:80-99 | a message's turn is the number of user messages behind the first message and up to it |
| `PriorTurns.ResolvePriorTurns` | internal/agent/prior_turns.go:71-80 | stub and digest take effect exactly with notebook and recall on, summarize exactly with the notebook on, and everything else resolves verbatim |
| `PriorTurns.CollapseAssistantForTurn` | internal/agent/prior_turns.go:180-231 | the copy-on-first-change loop equals the part-by-part collapse and counts exactly the non-exempt calls |
| `PriorTurns.CollapseFastPath` | internal/agent/prior_turns.go:180-200 | the early return changes nothing: with no part to rewrite, the collapse is the identity |
| `PriorTurns.CollapseKeepsCalls` | internal/agent/prior_turns.go:180-231 | collapse keeps every call, its ID and its order; exempt calls are untouched, the others change only their input |
| `PriorTurns.CollapseReplaysReasoningHonestly` | internal/agent/prior_turns.go:205-256 | reasoning keeps its signature only while the call it belongs to is replayed unchanged |
| `PriorTurns.CollapseToolMessageForTurn` | internal/agent/prior_turns.go:261-300 | every non-exempt result turns into its pointer text without payload, everything else stays, and the count is exact |
| `PriorTurns.ApplySupersededStubs` | internal/agent/stubs.go:550-570 | exactly the applied, non-error marks show as stubs |
| `PriorTurns.SummarizeAssistantForTurn` | internal/agent/prior_turns.go:370-425 | the loop equals the part-by-part summarize and counts exactly the dropped calls |
| `PriorTurns.SummarizeFastPath` | internal/agent/prior_turns.go:370-390 | with nothing to drop or strip, summarize is the identity |
| `PriorTurns.SummarizeKeepsCallsUnmutated` | internal/agent/prior_turns.go:370-425 | the calls left are the stored question calls, unchanged and in order |
| `PriorTurns.SummarizeKeepsReasoningWithCalls` | internal/agent/prior_turns.go:376-425 | reasoning survives summarize exactly when some call does |
| `PriorTurns.SummarizeToolMessageForTurn` | internal/agent/prior_turns.go:430-458 | exactly the results whose calls this render drops, or does not know, leave |
| `PriorTurnsProperties.CollapseShows` | internal/agent/prior_turns.go:161-256 | part by part and from the stored parts alone: question and provider-executed calls and the reasoning bound to them stay as stored, other reasoning keeps only its place and replay data, other calls change only their input, and nothing else changes |
| `PriorTurnsProperties.SummarizeShows` | internal/agent/prior_turns.go:370-425 | in stored order: every part but the calls that do not ask the user stays; reasoning stays while some call asks the user, and is bare unless bound to one that does |
| `PriorTurnsProperties.DroppedCallsLeaveNoSignature` | internal/agent/prior_turns.go:394-412 | reasoning left with thinking or a signature is a stored part bound to a question |
| `PriorTurnsProperties.CollapsedResultsPoint` | internal/agent/prior_turns.go:258-300 | a collapsed result of a call that does not stay whole is a pointer under its own ID and name that names the recall, without payload or failure; any other is as stored, and none is lost or moved |
| `PriorTurnsProperties.StubsShow` | internal/agent/stubs.go:546-570 | a result shows its stub text exactly if it succeeded and its mark was applied; a pending mark stays hidden |
| `PriorTurnsProperties.SummarizedResultsAnswer` | internal/agent/prior_turns.go:427-458 | a summarized tool message keeps, in order, exactly the results of calls the render knows and does not drop |
| `Settle.ToolResultsForCalls` | internal/agent/settle.go:32-57 | each call gets its pooled results or one made-up reply, in call order, and its pool entry is consumed |
| `Settle.RepliesFromRest` | internal/agent/settle.go:32-57 | consuming the pool message by message equals skipping the IDs already used |
| `Settle.RepliesAnswer` | internal/agent/settle.go:32-57 | replies come as one non-empty run per call, in call order, each naming that call |
| `Settle.EachCallAnswered` | internal/agent/settle.go:20-57 | a list of that shape holds a reply for each call |
| `Settle.EachReplyAsked` | internal/agent/settle.go:20-57 | and no reply for any other call |
| `Settle.SettleToolCalls` | internal/agent/settle.go:99-135 | calls are marked finished in the message, one error reply per call in order, and success means every store write landed |
| `Settle.SettleTurn` | internal/agent/settle.go:82-97 | exactly the calls without a reply are marked finished and get, in order, a reply that gives the reason the turn ended; it fails exactly when the store fails one of the writes |
| `Settle.RepairInterruptedToolCalls` | internal/agent/settle.go:140-175 | the in-place loop equals the repaired transcript, and fails exactly when the store fails one of its writes |
| `Settle.RepairAnswersEveryCall` | internal/agent/settle.go:140-175 | after repair every call has a reply |
| `Settle.RepairIdempotent` | internal/agent/settle.go:140-175 | a second repair changes nothing and writes nothing |
| `Settle.RepairAt` | internal/agent/settle.go:149-175 | a repaired message keeps role, call IDs and results; each appended message answers one orphan |
| `Settle.OwedReplyIsAppended` | internal/agent/settle.go:149-175 | every orphaned call gets its reply |
| `Settle.AppendedReplyIsOwed` | internal/agent/settle.go:149-175 | and nothing else is appended |
| `Settle.RepairKeepsShape` | internal/agent/settle.go:149-175 | unique call IDs, results behind calls and results only in tool messages all survive repair |
| `Settle.RepairAnswersInToolMessagesIff` | internal/agent/settle.go:140-175 | repair answers every call where the renderer looks exactly when no call's only results sit outside tool messages |
| `Settle.ToolRoleMeansAnswered` | internal/agent/settle.go:118-126 | which holds when results sit only in tool messages |
| `Settle.MarkFinishedExactIff` | internal/agent/settle.go:103-114 | settling sets the finished flags of the settled calls and changes no other part exactly when no unfinished one stands behind another call part with its ID |
| `Settle.AddedCallsAreFirst` | internal/message/content.go:630-640 | adding calls by ID never makes a second part under one ID, so settling such a message is exact |
| `SettleProperties.ReplyGivesTheReason` | internal/agent/settle.go:59-97 | a cancelled or failed run gives its own reason, otherwise the first finish of the message does, or the turn was abandoned |
| `SettleProperties.RepairFinishesTheMessage` | internal/agent/settle.go:149-168 | exactly the messages that left a call are rewritten: every part stays in place, changed at most in a call, and a message without a finish gets an interrupted one at its end |
| `SettleProperties.RepairWritesEachOnce` | internal/agent/settle.go:99-175 | repair writes once for each message it rewrites and once for each reply it appends |
| `Render.IndexCalls` | internal/agent/agent.go:2857-2881 | the index holds each call's name, exemption and whether this render drops it; a repeated ID keeps the last |
| `Render.CollectResults` | internal/agent/agent.go:2882-2911 | results grouped by call in stored order, as this render shows them, without the ones whose call is not in the window |
| `Render.PoolStep` | internal/agent/agent.go:2882-2911 | one tool message extends every call's group by its own results |
| `Render.EmitMessage` | internal/agent/agent.go:2913-2975 | a turn's summary opens its span, the converted message follows exactly if it has something to show, with the parts its tag leaves, and its results come right behind it |
| `Render.RenderWindow` | internal/agent/agent.go:2839-2975 | the three loops equal the rendered history, and apart from results and summaries it is, in stored order, each prompt with parts and each assistant message left with a call, a text or thinking, as its tag shows it, and nothing else |
| `RenderProperties.RenderIsPaired` | internal/agent/agent.go:2839-2975 | for every window, tagging and mode: each message with calls is followed at once by one tool message with at least one result for each call and none for any other, and no other tool message appears |
| `RenderProperties.SyntheticExactlyWhenUnanswerable` | internal/agent/settle.go:32-57 | a reply is made up if and only if two emitted calls share an ID or an emitted call has no stored result in the window |
| `RenderProperties.StoredRendersServeAll` | internal/agent/agent.go:2839-2975 | when nothing is made up, each tool message is all the pooled results of the calls in front of it, in order |
| `Render.RenderKeepsOrder` | internal/agent/agent.go:2913-2975 | for every pool and every prefix of the window: pulling results forward and inserting summaries hides, repeats and moves no message that has something to show, said of roles and parts alone |
| `RenderProperties.EveryPromptIsSent` | internal/agent/agent.go:2948-2970 | whatever collapses, every prompt of the window with parts is in the request as stored |
| `RenderProperties.OneSummaryPerTurn` | internal/agent/agent.go:2913-2930 | summarize emits one summary for each collapsed turn with an executable span in the window and none for any other |
| `RenderProperties.SummaryOpensSpan` | internal/agent/agent.go:2916-2930 | the summary stands in front of the first message of the span and behind everything before it |
| `RenderRepaired.EmittedIsKept` | internal/agent/agent.go:2857-2881 | a call this render emits is known and not marked dropped, even when its result sits in another turn |
| `RenderRepaired.SurvivingCallHasAllResults` | internal/agent/agent.go:2839-2911 | each surviving call's stored results are all in the pool, each once, in order, and as the turn of its own message shows it, however turns collapse |
| `RenderRepaired.AnsweredTranscriptNeverSynthesizes` | internal/agent/agent.go:2839-2975 | a transcript whose calls are answered behind them renders without made-up replies, from any start and in any mode |
| `RenderRepaired.RepairedTranscriptRendersStored` | internal/agent/settle.go:140-175 | a repaired transcript renders paired, with nothing made up, and every tool message is exactly what the transcript stores for the calls in front of it |
| `RenderRepaired.EachStoredResultIsShownOnce` | internal/agent/agent.go:2839-2975 | over the whole request, the replies to a surviving call are its stored results of the repaired transcript, each exactly once and in order, and no other call is replied to |
| `RenderRepaired.RepairedRendersStoredIff` | internal/agent/settle.go:140-175 | a repaired transcript renders without a made-up reply from every start, tagging and mode exactly when no call that can be shown has all its results outside tool messages |
| `RenderRepaired.MisplacedResultIsMadeUp` | internal/agent/settle.go:141-146 | for any call whose only results sit outside tool messages the verbatim render makes a reply up |
| `RenderShown.SurvivesIff` | internal/agent/agent.go:2857-2881 | a request carries a call exactly if a message of the window makes it and, under summarize, its turn does not collapse or the call asks the user |
| `RenderShown.IndexIsLast` | internal/agent/agent.go:2857-2881 | the index describes the last call of the window under each ID: its name, whether it stays whole and whether it leaves with a summarized turn |
| `RenderShown.IndexKnows` | internal/agent/agent.go:2857-2881 | and it knows exactly the calls of the window |
| `RenderShown.EachResultShowsAs` | internal/agent/agent.go:2882-2911 | each result shows as its own message's turn and its call say: as stored or as its applied stub while raw, in a collapsed turn as stored for a question, a provider's own call or a summary, and otherwise as a pointer |
| `RenderShown.SummaryIsSent` | internal/agent/agent.go:2786-2800 | a summary at the head of the window is sent as a prompt, and no other message changes its role |
| `Segments.EstimateSegmentTokens` | internal/agent/notebook_segments.go:216-233 | a quarter of the stored content bytes, whatever stubs apply |
| `Segments.PassMessage` | internal/agent/notebook_segments.go:163-182 | the pending map tracks exactly the calls made before the cut whose last result lies at or behind it |
| `Segments.PendingIsStraddled` | internal/agent/notebook_segments.go:163-195 | the pending map is empty exactly when no call before the cut waits for a result behind it |
| `Segments.SegmentBoundaries` | internal/agent/notebook_segments.go:129-210 | the single-pass loop equals the greedy segmentation |
| `SegmentProperties.SegmentsAreTheGreedyPartition` | internal/agent/notebook_segments.go:116-210 | the segmentation is the one and only greedy partition: contiguous, non-empty, cut at the first point that may close, only the last open |
| `SegmentProperties.SegmentsPartition` | internal/agent/notebook_segments.go:129-210 | each message is in exactly one segment, keys are unique, and only the last segment is open |
| `SegmentProperties.SegmentHasOneTurn` | internal/agent/notebook_segments.go:129-210 | every message of a segment has the segment's turn, as messageTurns numbers it |
| `SegmentProperties.KeysAscend` | internal/agent/notebook_segments.go:184-207 | (turn, number) keys strictly ascend |
| `SegmentProperties.AllCallsResolved` | internal/agent/notebook_segments.go:94-115 | the reference predicate holds exactly when every answered call before the cut has a result before it |
| `SegmentProperties.CutsKeepCallsWithResults` | internal/agent/notebook_segments.go:80-210 | at a cut the user did not force, all results of all earlier answered calls lie before it, so allCallsResolved holds |
| `SegmentProperties.ClosedSegmentsStableIff` | internal/agent/notebook_segments.go:116-210 | appending messages keeps every closed segment, unmoved and under its key, if and only if no call made before a cut the user did not force is answered by them |
| `SegmentProperties.ClosedSegmentsStable` | internal/agent/notebook_segments.go:116-210 | in particular when no call before the open tail is answered by the appended messages |
| `SegmentProperties.CutsIgnoreStubs` | internal/agent/notebook_segments.go:211-233 | the cut points do not depend on which superseded stubs are applied |
| `SegmentCuts.EachCutHasItsReason` | internal/agent/notebook_segments.go:80-210 | from the messages alone: a closed segment ends before a user message, or where no call is split from a result and the tokens or the steps suffice, and no segment holds an earlier such place |
| `SegmentCuts.NumbersCountPerTurn` | internal/agent/notebook_segments.go:184-207 | segments are numbered from 0 in each turn, one by one |
| `Boundary.EstimateRawMessageTokens` | internal/agent/notebook_boundary.go:10-33 | the nested loop equals a quarter of the shown content bytes |
| `Boundary.FindSegmentBoundaryByTokenBudget` | internal/agent/notebook_segments.go:241-270 | the boundary is the start of the first raw segment: the budget's choice, pulled back to the first uncovered one |
| `Boundary.SegmentsAreASegmentation` | internal/agent/notebook_segments.go:129-210 | the walk's output is what the boundary search relies on: it tiles the list and only its last segment is open |
| `Boundary.OnlyCoveredSegmentsAreEvicted` | internal/agent/notebook_segments.go:258-269 | everything in front of the boundary is closed and covered, and it is pulled back exactly when something in front of the budget's choice is not |
| `Boundary.BudgetIsTight` | internal/agent/notebook_segments.go:245-257 | without a pull-back the raw segments fit the larger of budget and open tail, and one more would not fit the budget |
| `Boundary.WindowEstimate` | internal/agent/notebook_boundary.go:10-33 | the whole-window estimate exceeds that by less than one token per raw segment |
| `Boundary.DetectSegments` | internal/agent/notebook_segments.go:477-534 | coverage is exactly the segments with a processed row of the same extent, and new or drifted closes are recorded |
| `Boundary.RecordingKeepsCoverage` | internal/agent/notebook_segments.go:499-518 | recording never changes, grants or takes a processed row |
| `Boundary.CoveredKeyIsExact` | internal/agent/notebook_segments.go:519-534 | a segment's key is covered exactly when its own extent is |
| `Boundary.CoveredPriorTurns` | internal/agent/prior_turns.go:95-119 | exactly the earlier turns with a segment and none uncovered |
| `Boundary.PromoteSupersededStubs` | internal/agent/stubs.go:472-545 | pending marks apply in place exactly on promotable messages whose write lands, stored marks are joined in, everything else is untouched, and the result says whether all landed |
| `Boundary.MergeSupersededMarks` | internal/agent/stubs.go:570-611 | each result is joined with the last stored result of its call, and nothing changes when the stored message cannot be read |
| `Boundary.MarksOnlyGrow` | internal/agent/stubs.go:570-575 | a promotion that lands loses no mark and unapplies none, neither its own nor a stored one |
| `BoundaryProperties.ClosesAreRecorded` | internal/agent/notebook_segments.go:477-518 | a detection pass writes a closed segment under its own extent exactly if its row is missing or unprocessed and the write lands, and leaves every other row alone |
| `BoundaryProperties.PartCountsAsShown` | internal/agent/notebook_boundary.go:15-29 | a part counts as long as it shows with stubs on, unless it is a failed result under an applied mark of another length |
| `BoundaryProperties.EstimateCountsWhatIsShown` | internal/agent/notebook_boundary.go:10-33 | so the estimate of a message without such a part is what a render with stubs shows |
| `BoundaryProperties.GuardIsTheLastTwo` | internal/agent/stubs.go:472-500 | stubs are promoted in tool messages from the boundary on and in front of the last two segments |
| `BoundaryProperties.PromotionIsExact` | internal/agent/stubs.go:472-611 | a pending mark is applied exactly if the write lands, any other mark is the join of its own and the stored one, and nothing but marks changes |
| `PreparePrompt.LastSummaryIndex` | internal/agent/agent.go:3380-3387 | the newest committed summary, or -1 when there is none |
| `PreparePrompt.NotebookPrefix` | internal/agent/notebook_segments.go:897-975 | it is the rendered notes, or empty when they cannot be read or nothing is covered or seeded, and it fails exactly when they cannot be read or no real note stands for a non-empty covered span |
| `PreparePrompt.Freeze` | internal/agent/agent.go:2690-2722 | the collapse set freezes once, to exactly the fully covered earlier turns, and the summaries freeze with it; while none is covered nothing freezes |
| `PreparePrompt.ChooseBoundary` | internal/agent/agent.go:2652-2779 | the applied boundary, the failure flag and the collapse state of a render |
| `PreparePrompt.Prepare` | internal/agent/agent.go:2641-2975 | the request is the note prefix followed by the rendering of the window that starts at the boundary or a later committed summary; it collapses exactly the messages whose turn is in the frozen set, or under summarize has a frozen text, each under its own turn, unless it rolled back or would print pointers nothing can follow |
| `PreparePrompt.NothingIsEvictedUncovered` | internal/agent/agent.go:2680-2795 | every message left out lies before a committed summary, or in a closed segment covered for exactly its extent while some note stands for the span |
| `PreparePrompt.FailedPrefixEvictsNothing` | internal/agent/agent.go:2725-2741 | a failed prefix, or a render that is not engaged, evicts nothing but what a committed summary covers |
| `PreparePrompt.OpenTailIsRaw` | internal/agent/notebook_segments.go:241-270 | without a summary floor the window starts at a segment start and holds the whole open tail |
| `PreparePrompt.SummaryIsAFloor` | internal/agent/agent.go:2780-2800 | the window starts at the later of the coverage boundary and the newest committed summary |
| `PreparePrompt.WindowFitsTheBudget` | internal/agent/notebook_segments.go:241-270 | what is covered does leave: if nothing in front of the budget's choice lacks coverage and the notes stand, the window fits the larger of budget and open tail, but for less than one token a segment |
| `PreparePrompt.PrepareIsPaired` | internal/agent/agent.go:2623-2975 | whatever the inputs, the whole request keeps calls next to their results |
| `CollapsedTurns.FrozenOnce` | internal/agent/agent.go:2690-2722 | over the requests of a run the collapse set freezes at one render, to exactly the turns that render saw fully covered, and never changes again |
| `CollapsedTurns.FrozenTexts` | internal/agent/agent.go:2700-2722 | under summarize the frozen texts are those of the covered turns that have one and still have a message at or behind the boundary of the freezing render |
| `CollapsedTurns.OnlyCoveredTurnsCollapse` | internal/agent/agent.go:2803-2838 | no message of the run's own turn or a later one is ever collapsed, and every collapsed one is of a turn fully covered when the set froze |
| `CollapsedTurns.CoveredMessageByMessage` | internal/agent/prior_turns.go:82-119 | each message of a fully covered turn lies in a segment with coverage committed for exactly its extent |
| `CollapsedTurns.StandsForWhatIsEvicted` | internal/agent/notebook_segments.go:1141-1156 | a note written for a segment stands for the evicted span exactly if it is no seed and its segment ends at or before the boundary |
| `CollapsedTurns.CommittedMeans` | internal/agent/agent.go:3380-3387 | a summary is committed exactly if its first finish says that its turn ended |
| `SessionAgent.Agent.BeginAccepted` | internal/agent/agent.go:890-897 | one more open handle under a fresh sequence number |
| `SessionAgent.Agent.EndAccepted` | internal/agent/agent.go:913-922 | one handle fewer; the last takes the mark with it |
| `SessionAgent.Agent.Close` | internal/agent/agent.go:866-874 | closing a handle twice releases it once |
| `SessionAgent.Agent.CanceledBySeq` | internal/agent/agent.go:1078-1084 | a sequence is covered by a standing mark at or above it; 0 by any |
| `SessionAgent.Agent.EnqueueCall` | internal/agent/agent.go:948-963 | the call goes to the end of the queue under its accept sequence |
| `SessionAgent.Agent.DrainQueueForStep` | internal/agent/agent.go:984-1009 | by queue position: the uncovered prompts with a run ID stay, the uncovered ones without are folded, and of the covered ones those with a run ID are returned, each in queue order and as often as queued |
| `SessionAgent.Agent.PublishCanceledQueueDrops` | internal/agent/agent.go:1020-1044 | one cancelled event per dropped call with a run ID, in order, and none for the others |
| `SessionAgent.Agent.ClearQueueAndNotify` | internal/agent/agent.go:1049-1056 | the queue is empty and every named call was reported |
| `SessionAgent.Agent.EnterTurn` | internal/agent/agent.go:1208-1283 | cancelled on entry, enqueued or active, decided and recorded in one critical section |
| `SessionAgent.Agent.ReleaseSlot` | internal/agent/agent.go:2207 | the slot is emptied without a look at its holder |
| `SessionAgent.Agent.CompareAndDelete` | internal/agent/agent.go:1289 | the slot is emptied only if it holds this token |
| `SessionAgent.Agent.QueueRetry` | internal/agent/run_edges.go:623-627 | the retry goes in front of the queue |
| `SessionAgent.Agent.HandOffTurn` | internal/agent/agent.go:2236-2327 | covered prompts are dropped and reported, the first survivor gets a fresh handle, and the run owes its own event unless a survivor carries its run ID |
| `SessionAgent.Agent.ReadReservations` | internal/agent/agent.go:3756-3759 | what a Cancel reads: the latest sequence if a handle is open |
| `SessionAgent.Agent.RecordCancel` | internal/agent/agent.go:3760-3771 | the mark is raised to what was read, and the queue cleared and reported |
| `SessionAgent.Agent.Cancel` | internal/agent/agent.go:3723-3771 | the active run is cancelled, the mark raised to the latest sequence if a handle is open, the queue cleared and reported |
| `DispatchState.SurvivorsArePicked` | internal/agent/agent.go:2240-2266 | without a mark the hand-off drops nothing; with one, exactly the covered prompts |
| `DispatchState.CountSplit` | internal/agent/agent.go:984-1009 | a drain puts each queued prompt on exactly one side |
| `DispatchState.FoldedAreUnnamed` | internal/agent/agent.go:989-1002 | folded prompts carry no run ID |
| `DispatchSorting.DrainSorts` | internal/agent/agent.go:984-1009 | the same of the sort itself, from mark, accept sequence and run ID alone |
| `DispatchSorting.DrainLeavesNamed` | internal/agent/agent.go:984-1009 | what is left queued are exactly the prompts with a run ID that no standing mark covers |
| `DispatchSorting.HandOffSorts` | internal/agent/agent.go:2240-2266 | what outlives a finishing run are the uncovered prompts, in queue order and as often as queued; it reports the covered ones with a run ID |
| `DispatchInvariants.StepKeeps` | internal/agent/agent.go:1208-1283 | every step of every caller keeps the invariant: one place per call, an owned slot, counted handles, an exact mark, balanced accounts |
| `DispatchInvariants.AlwaysInv` | internal/agent/agent.go:890-2327 | so every interleaving does |
| `DispatchInvariants.MarkKept` | internal/agent/agent.go:904-922 | a handle is covered by the mark, or by the one a Cancel is about to write, exactly if a Cancel hit it; a tracked queued prompt never is; a mark without an open handle is one a Cancel left behind |
| `DispatchInvariants.SlotKept` | internal/agent/agent.go:1284-1289 | the slot always holds the token of exactly one live run |
| `DispatchInvariants.AccountKept` | internal/agent/agent.go:2283-2327 | told, owed and carried on together grow exactly by what is submitted, and no step loses a run ID's last debt |
| `DispatchTheorems.CancelIsExact` | internal/agent/agent.go:3723-3771 | an accepted handle is cancelled on entry if and only if a Cancel read the reservations between its acceptance and its entry, whatever is reserved or given up while that Cancel is at work |
| `DispatchTheorems.HandedOffCancelIsExact` | internal/agent/agent.go:2304-2315 | the same for the fresh handle of a dequeued prompt |
| `DispatchTheorems.NothingEscapesCancel` | internal/agent/agent.go:3723-3771 | when a Cancel has written its mark, exactly the handles a Cancel has read will be cancelled on entry, every active run is cancelled and the queue is empty |
| `DispatchTheorems.OnlyUntrackedAreDropped` | internal/agent/agent.go:2241-2262 | a drain or hand-off drops a queued prompt exactly when it is untracked and a mark stands |
| `DispatchTheorems.LateUntrackedPromptIsDropped` | internal/agent/agent.go:1058-1084 | a trace in which an untracked prompt queued after a Cancel is covered by it |
| `DispatchTheorems.IdleClearWorksIff` | internal/agent/agent.go:2267-2281 | leaving an empty queue, a finishing run clears a mark exactly if a Cancel left it behind and no handle is open |
| `DispatchTheorems.IdleClearNeedsARace` | internal/backend/agent.go:49-58 | with no handle given up between a Cancel's read and its write, a standing mark implies an open handle and the clear does nothing |
| `DispatchTheorems.OrphanedMarkIsCleared` | internal/agent/agent.go:3756-3764 | a trace in which the last handle is given up while a Cancel is at work, and a finishing run clears the mark |
| `DispatchTheorems.SlotIsExclusive` | internal/agent/agent.go:1284-1289 | at most one run holds the slot, its own entry is what a release deletes, and a finished run's deferred clean-up removes nothing |
| `DispatchTheorems.EachCallInOnePlace` | internal/agent/agent.go:948-1009 | each submitted call is queued, in flight, folded, dropped or finished, exactly one of them, and a named one is never folded |
| `DispatchTheorems.NoPromptIsStranded` | internal/agent/agent.go:1151-1175 | a non-empty queue always has a live call that will still look at it and cannot be given up, or a Cancel about to clear it |
| `DispatchTheorems.RestIsIdle` | internal/agent/agent.go:1151-1175 | when every call and every Cancel has come to rest, queue, slot and reservations are empty, and a mark stands exactly if a Cancel left it behind; it covers no later handle |
| `DispatchTheorems.EveryRunIdIsAccountedFor` | internal/agent/agent.go:1011-1056 | a run ID is reported, or its submitter refused, at most as often as it was submitted, and until it is some queued or live call owes it |
| `DispatchTheorems.AtRestEveryRunIdWasTold` | internal/agent/agent.go:1311-1343 | at rest a run ID was reported exactly as often as it was submitted less the hand-offs that carried it on, at least once, and exactly once if and only if all its calls but one were carried on |
| `DispatchTheorems.FinishedRunTellsIff` | internal/agent/agent.go:2283-2327 | a finishing run with a run ID publishes its own event unless an uncovered queued prompt carries that run ID on, and is spared exactly then |
| `DispatchTheorems.SingleCallIsToldOnce` | internal/agent/agent.go:1311-1343 | a run ID that labels a single call is reported exactly once |
| `DispatchTheorems.CancelledRetryReportsTwice` | internal/agent/run_edges.go:531-541 | a trace in which a cancelled repair retry yields a second event |
| `RunEdges.ScanEdges` | internal/agent/run_edges.go:339-409 | the scan loop's verdict rows, contenders and waiting claims, or the cancelled tail of the edge it died on |
| `RunEdgesProperties.EdgeCases` | internal/agent/run_edges.go:348-409 | from the inputs alone: a live edge contends exactly for a scan no hint stopped whose trigger fires once resolved, waits exactly for an empty scan with a carried trigger at a boundary that is not clean, is silent exactly for an empty scan with none, and otherwise gets the row its hint or the clean boundary names |
| `RunEdgesProperties.DeadFromIs` | internal/agent/run_edges.go:339-372 | the loop stops at the first edge whose scan, or whose resolve behind a scan no hint stopped, leaves the context dead |
| `RunEdgesProperties.CarrierHoldsLast` | internal/agent/run_edges.go:318-330 | of several carried triggers for an edge the last counts |
| `RunEdges.RecordCancelledBoundary` | internal/agent/run_edges.go:662-687 | cancelled rows for contenders, waiting claims, unreached edges and the dying edge's carried trigger |
| `RunEdges.SplitSlot` | internal/agent/run_edges.go:473-492 | the first escalation takes the slot alone, otherwise all contenders share it |
| `RunEdges.Decide` | internal/agent/run_edges.go:413-652 | the rows, notes and retry of a boundary that evaluated every edge |
| `RunEdges.RunBoundary` | internal/agent/run_edges.go:289-652 | the whole log of a boundary, on every path, and the retry it queued |
| `RunEdgesProperties.OneOutcomePerEdge` | internal/agent/run_edges.go:289-687 | past the entry guard, on every path, the rows written for an edge are exactly its entry in an outcome table that is written from scans, hints, resolves, the carrier and the context alone |
| `RunEdgesProperties.SkippedBoundaryCancels` | internal/agent/run_edges.go:289-305 | in front of the entry guard exactly the edges the carrier names get a row, and it says cancelled |
| `RunEdgesProperties.NoRowMeansClean` | internal/agent/run_edges.go:280-288 | an edge has no row exactly when it was scanned to nothing with nothing carried |
| `RunEdgesProperties.StoredRowsAreTheTable` | internal/agent/run_edges.go:699-702 | the insert-or-ignore table ends up holding exactly the outcome table |
| `RunEdgesProperties.WinnersMember` | internal/agent/run_edges.go:473-492 | a contender wins exactly if it is the first that escalates, or none does; the losers are the rest |
| `RunEdgesConservation.RetryComesFirst` | internal/agent/run_edges.go:595-652 | a fired row or a commit is only written behind the enqueued retry, and at most one is enqueued |
| `RunEdgesConservation.CommitsArePrompted` | internal/agent/run_edges.go:629-642 | a commit runs exactly for the triggers whose prompt is on the retry |
| `RunEdgesConservation.FiringTriggersAreConserved` | internal/agent/run_edges.go:531-577 | when a retry is queued every firing trigger is prompted or cleared, carried on, or noted |
| `RunEdgesConservation.RetryCarriesOnlyThose` | internal/agent/run_edges.go:542-577 | and the retry carries nothing else |
| `RunEdgesConservation.DeferredNamesEdgesOnce` | internal/agent/run_edges.go:320-324 | the carrier never names an edge twice and names only edges of the set |
| `RunEdgesConservation.AtMostTwoRepairs` | internal/agent/run_edges.go:450-468 | a user turn spawns at most two repair runs |
| `RunEdgesRows.RowWrittenTwiceIff` | internal/agent/run_edges.go:289-687 | an edge's row is written twice exactly if its scan dies while a trigger is carried for it, or, before the entry guard, if the carrier names it twice |
| `RunEdgesRows.RowCountBoundary` | internal/agent/run_edges.go:289-687 | past the entry guard an edge's row is written as often as the outcome table says, and once more for the edge a dying scan still carries a trigger for |
| `RunEdgesRows.RowCountDecided` | internal/agent/run_edges.go:413-652 | whatever a full scan decides, each contending and each waiting claim gets exactly one row |
| `RunEdgesRows.DyingScanWritesTwice` | internal/agent/run_edges.go:341-347 | the case: a scan dying on a carried edge |
| `RunEdgesRows.VerdictRowTells` | internal/agent/run_edges.go:348-409 | the stored row of an edge that neither contends nor waits tells its own trigger: the scan's if it was stopped, the resolved one otherwise, the last carried one for an empty scan |
| `RunEdgesRows.DyingRowTells` | internal/agent/run_edges.go:341-372 | the stored row of the edge a scan dies on tells what was at hand: the scan's trigger, or the resolved one |
| `RunEdgesRows.ReportsNeedANoteLine` | internal/agent/run_edges.go:426-600 | on every path, a claim is noted on the final message exactly if it dies with this run, renders a line and there is a message; its report is there exactly if some such claim renders a line |
| `Selection.Selector.TrySelect` | internal/agent/notebook_selection.go:301-333 | a note is taken unless its ID is in or the budget is short |
| `Selection.RunPasses` | internal/agent/notebook_selection.go:341-434 | the passes visit notes in priority order and take greedily |
| `SelectionPriority.PriorityHolds` | internal/agent/notebook_selection.go:341-434 | by the notes' own fields: a note whose ID is missing would not fit beside the first chosen notes, each of a more urgent grade, or of its own and tried before it: oldest first for recent, pinned and named notes, by kind then recency behind the band, newest first otherwise |
| `SelectionPriority.RecentComeFirst` | internal/agent/notebook_selection.go:341-348 | a note at or after the recency floor that is left out would not fit beside chosen notes that are all at or after it |
| `SelectionPriority.ChosenComeByGrade` | internal/agent/notebook_selection.go:341-434 | the chosen notes come grade by grade, so nothing is taken ahead of a more urgent note |
| `SelectionPriority.RankedThenNewest` | internal/agent/notebook_selection.go:430-431 | behind the band a higher kind comes first, and of one kind the newer turn, segment and event |
| `SelectionPriority.SortIsStable` | internal/agent/notebook_selection.go:430-431 | notes the comparison calls equal keep their order |
| `Selection.Buckets` | internal/agent/notebook_selection.go:415-429 | band and old, live and dead notes, each newest first |
| `Selection.SortIsInOrder` | internal/agent/notebook_selection.go:430-431 | the stable sort is in order under the comparison |
| `Selection.SortCounts` | internal/agent/notebook_selection.go:430-431 | and a permutation |
| `Selection.PrecedesIsOrder` | internal/agent/notebook_selection.go:489-500 | type-then-recency is a strict weak order |
| `Selection.RenderedDigests` | internal/agent/notebook_selection.go:470-483 | the turns with an eligible turn digest that has content |
| `Selection.DropSupersededReads` | internal/agent/notebook_selection.go:608-648 | the in-place filter leaves exactly the kept notes, in order, at the front |
| `Selection.SelectNotebookEntries` | internal/agent/notebook_selection.go:284-461 | passes, demotion, superseded reads and chronological order, one after the other |
| `SelectionProperties.SelectionFillsTheBudget` | internal/agent/notebook_selection.go:301-434 | before demotion the selection fits the cap, repeats no ID and is maximal |
| `SelectionProperties.EarlierVisitsWin` | internal/agent/notebook_selection.go:301-434 | a note is left out only if what was chosen in front of its visit left no room for it |
| `SelectionProperties.SelectedIsChosen` | internal/agent/notebook_selection.go:436-461 | what is carried is what was chosen, less the demoted and the superseded, in chronological order |
| `SelectionProperties.DemotedBehindACarriedDigest` | internal/agent/notebook_selection.go:436-452 | a note is demoted only behind a digest of its own turn that is itself carried |
| `SelectionProperties.DemotedIff` | internal/agent/notebook_selection.go:436-483 | a chosen note is demoted exactly if it is no checkpoint and a chosen turn digest of its turn, eligible and with content, stands in for it |
| `SelectionProperties.NewestIsMaximal` | internal/agent/notebook_selection.go:611-625 | the newest stamp of a tag belongs to a note that carries it, and none is newer |
| `SelectionProperties.DropsExactly` | internal/agent/notebook_selection.go:626-648 | a read is dropped exactly if it is superseded or stranded |
| `SelectionProperties.DropsPromisedIff` | internal/agent/notebook_selection.go:597-648 | the filter drops a read exactly when a newer successful note that is no checkpoint shares a file tag, unless the read is stranded and not superseded |
| `SelectionProperties.StrandedReadsFailed` | internal/agent/notebook_selection.go:626-648 | only a failed read stamped before turn 0 can be stranded |
| `SelectionProperties.StrandedReadIsDropped` | internal/agent/notebook_selection.go:635-637 | the exception is not idle: a failed read of turn -1, which no run stores |
| `SelectionProperties.StoredReadsDropAsPromised` | internal/agent/notebook_selection.go:597-648 | of stored notes exactly the reads with a newer successful note that is no checkpoint and shares a file tag are dropped |
| `SelectionProperties.DropsIgnoreOrder` | internal/agent/notebook_selection.go:608-648 | the result as a multiset does not depend on list order |
| `SelectionProperties.FilteringTwice` | internal/agent/notebook_selection.go:608-648 | filtering twice equals filtering once exactly when no failed read stamped before turn 0 keeps its place only through a tag whose successful carriers are all superseded reads |
| `SelectionProperties.FilteringTwiceIsOnce` | internal/agent/notebook_selection.go:608-648 | on every list of stored notes filtering twice equals filtering once |
| `SelectionProperties.FilteringTwiceCanDropMore` | internal/agent/notebook_selection.go:608-648 | the condition is not idle: a list, which no run stores, that fails it |
| `SelectionFloors.CoveredSegmentFloor` | internal/agent/notebook_selection.go:506-530 | the key of the second-to-last covered segment, or of the first segment |
| `SelectionFloors.FillBandFloor` | internal/agent/notebook_selection.go:536-548 | the key eight covered segments back, or the zero key |
| `SelectionFloors.RecentMeansLastTwo` | internal/agent/notebook_selection.go:341-348 | the first pass takes exactly the notes of the last two covered segments and later, and one of these that is left out would not fit beside chosen notes that are all at or after that floor |
| `SelectionFloors.BandMeansLastEight` | internal/agent/notebook_selection.go:532-548 | of the transcript's segments, the band holds exactly the notes of the last eight covered ones and later |
| `SelectionFloors.ZeroKeyTakesIff` | internal/agent/notebook_selection.go:532-548 | the zero key takes exactly the notes at turn 0 or later, whatever segment they name |
| `SelectionFloors.FillIsNewestFirstIff` | internal/agent/notebook_selection.go:532-548 | while the band has room for every covered segment, a stored note is in it exactly if its turn is not negative, and the fill stays newest first exactly if that holds of all |
| `SelectionFloors.SeedIsInNoBand` | internal/notebook/hydrate.go:320-345 | the case: a hydrated seed is outside every band |
| `ExtractJson.ExtractJsonObject` | internal/agent/scope_resolver.go:352-377 | the loop returns what the scan consumes from the first brace, or nothing |
| `ExtractJson.PassesValue` | internal/agent/scope_resolver.go:357-375 | scanning any JSON value inside an object neither stops nor moves the depth |
| `ExtractJson.ExtractsTheObject` | internal/agent/scope_resolver.go:349-377 | text without an opening brace, then any JSON object, then any text: exactly the object is returned |
| `ExtractJson.ExtractsFirstBalanced` | internal/agent/scope_resolver.go:347-377 | on any text at all, the result is the span from the first opening brace to the first brace outside strings that balances it, and it is empty exactly when no brace does |
| `ExtractJsonTokens.ExtractsBalancedTokens` | internal/agent/scope_resolver.go:347-377 | on any text, from its quoted strings and bare characters alone: a brace, tokens that close every brace they open and not this one, and the brace that closes it are returned exactly, whatever follows |
| `ExtractJsonTokens.ExtractsNothingUnclosed` | internal/agent/scope_resolver.go:347-377 | if the tokens never close the brace, or the text breaks off inside a string, nothing is returned |
| `ExtractJson.ExtractionStays` | internal/agent/scope_resolver.go:352-373 | an object once found stays the answer, whatever text follows |
| `ExtractJson.ExtractionIsItsOwn` | internal/agent/scope_resolver.go:352-373 | extracting from the answer returns the answer |
| `ModelOverride.Coordinator.SetSessionModelOverride` | internal/agent/coordinator.go:2127-2143 | the pin is in and the generation bumped |
| `ModelOverride.Coordinator.ClearSessionModelOverride` | internal/agent/coordinator.go:2145-2156 | the entry is gone and the generation bumped |
| `ModelOverride.Coordinator.PublishVerdict` | internal/agent/coordinator.go:2243-2258 | an entry already there wins; after a writer in between only the marker is published |
| `ModelOverride.Coordinator.PublishTombstone` | internal/agent/coordinator.go:2206-2215 | a session without a row gets the marker unless an entry is there |
| `ModelOverride.Coordinator.SweepMarkers` | internal/agent/coordinator.go:2300-2308 | markers go, pins stay |
| `ModelOverride.PinStaysVisible` | internal/agent/coordinator.go:2127-2258 | in every interleaving the cache answers with the last published set until a writer replaces or clears it |
| `ModelOverride.ClearedPinStaysDead` | internal/agent/coordinator.go:2188-2258 | a pin cached after a clear comes from a row written after the cleared one |
| `ModelOverride.LatePublishIsHarmless` | internal/agent/coordinator.go:2243-2258 | a late publish changes no entry, and publishes no pin after a writer |
| `ModelOverride.QuietLookupShowsTheRow` | internal/agent/coordinator.go:2188-2258 | from any reachable state, a lookup nobody overtakes answers with the model of the stored row, or with no override if its build fails |
| `ModelOverride.QuietLookupWithoutRow` | internal/agent/coordinator.go:2206-2215 | and caches the marker when there is no row |
| `ModelOverride.PinAgreesWithRowIff` | internal/agent/coordinator.go:2127-2258 | once the stored row has been published, a cached pin is what it says exactly if the last to publish selects nothing or the same |
| `ModelOverride.NoWriterLeft` | internal/agent/coordinator.go:2127-2156 | which it has when every writer wrote its row first and none is between its two writes |
| `ModelOverride.SetsPublishCrossed` | internal/agent/coordinator.go:2127-2143 | two sets that publish in the opposite order to their rows leave pin and row apart |
| `ModelOverride.PinAgreesOneByOne` | internal/backend/agent.go:331-376 | with writers one at a time, pin first or row first, a cached pin is what the stored row says whenever no writer is at work |
| `ModelOverride.RebuildReevaluatesIff` | internal/agent/coordinator.go:2295-2308 | in every reachable state, a marker of an earlier build can be cached after a rebuild exactly when at the rebuild no pin is cached and some lookup holds such a marker, unpublished and not overtaken |
| `ModelOverride.StalePublishIff` | internal/agent/coordinator.go:2243-2258 | a publish caches such a marker exactly when its lookup was resolved to it at the rebuild and nothing has been published ahead of it |
| `ModelOverride.StaleMarkerSurvivesARebuild` | internal/agent/coordinator.go:2295-2308 | a trace that reaches the case |
| `ScopeGate.PlanParamsResolve` | internal/agent/scope_gate.go:86-96 | a list declares a plan exactly if it is non-empty and every item binds evidence |
| `ScopeGate.Gates.ApprovePlan` | internal/agent/scope_gate.go:164-168 | the approval is pending for that session only |
| `ScopeGate.Gates.EnsureState` | internal/agent/scope_gate.go:173-184 | a missing or stale state is created, and creating it consumes a pending approval |
| `ScopeGate.Gates.NeedsPlanCheck` | internal/agent/scope_gate.go:214-222 | the stored plan is read only for a todos call at an armed gate |
| `ScopeGate.Gates.Observe` | internal/agent/scope_gate.go:226-281 | the second phase's verdict and the state it leaves |
| `ScopeGate.Gates.Resolve` | internal/agent/scope_gate.go:285-296 | the latest run is resolved and its question slot free |
| `ScopeGate.OneQuestionThreeBounces` | internal/agent/scope_gate.go:205-281 | in every interleaving a run claims the question slot at most once and bounces at most three declarations |
| `ScopeGate.WritesPassOnlyWhenCleared` | internal/agent/scope_gate.go:230-239 | a mutating call passes exactly if the run has explored fewer than eight steps or something resolved its gate |
| `ScopeGate.VerdictsFollowTheLog` | internal/agent/scope_gate.go:226-281 | every verdict from the run's verdicts so far: a blocked write asks exactly if the run has not asked, and waits otherwise; a plan that does not resolve is bounced three times and then asks; everything else passes |
| `ScopeGate.PlanIsReadWhenItCounts` | internal/agent/scope_gate.go:205-222 | the first phase reads the stored plan exactly for a plan call of a run that must declare |
| `ScopeGate.AnswerFreesTheSlot` | internal/agent/scope_gate.go:285-296 | an answer or a plan that lands frees the question slot and lets writes through |
| `ScopeGate.ApprovalResolvesOneRun` | internal/agent/scope_gate.go:160-184 | each approval given while none is pending resolves exactly one run or still waits for one, and a run counts as approved, and is resolved from its start, exactly if it consumed one |
| `ScopeGate.DeclaredPlanBouncedIff` | internal/agent/scope_gate.go:209-272 | with a bound stored plan, a non-validating todos call is bounced exactly when the gate arms between the two phases |
| `ScopeGate.BoundPlanIsBounced` | internal/agent/scope_gate.go:209-272 | a trace that reaches the bounce |
| `BalanceFetcher.HyperCredits.RefreshBalance` | internal/agent/hyper_credits.go:69-80 | a fetch is started unless one runs, in which case one is pending |
| `BalanceFetcher.HyperCredits.EndFetch` | internal/agent/hyper_credits.go:94-98 | the flags are cleared and a pending request is handed back |
| `BalanceFetcher.EveryRequestIsFollowed` | internal/agent/hyper_credits.go:67-103 | never two fetches at once, and a request no fetch has begun after yet has one coming |

## Left out

- Provider calls, streaming, OAuth, MCP, hooks and logging: each is a success or failure input where it matters.
- Converting a message part by part to the provider's types, image and audio filtering, attachments: one stored message becomes one provider message, one stored result one result part.
- Text content that is trimmed before the emptiness checks of the renderer: the model compares the stored text.
- Timestamps, including the backdated finish of a repaired message.
- Prompt, note, stub and report wording: fixed strings stand for it.
- Tool-result metadata, which a promotion joins along with the marks.
- Which render promotes stubs: promotion is a method of its own and leaves cut points alone, and a request is prepared from the list it leaves.
- The prefix cache, the backfill of the segment registry, generation bursts and retries: they decide when notes exist, not what a render does with them.
- The pressure gate: whether a render is engaged is an input.
- A session without an ID, for which the note prefix is skipped.
- The summarize path of a run, which releases and re-takes the slot without the lock; `ClearQueue`, which takes no lock; and the timing of `CancelAll`.
- Calls that fail validation before they are dispatched.
- Creation of the per-session mutex. Each section under it is one step, except a Cancel, whose read and write are two: a reservation made or released without the mutex may fall between those, and before or after any other section.
- A fresh handle that a finishing run gives to the prompt it dequeues is closed only by that prompt's own turn, which follows at once; any other handle may be given up before its turn.
- How a refused submitter is told, by the error its call returns or by the fallback event: either counts as its terminal event.
- The payload of terminal events and the coordinator's own completion hook: an event is the run ID it is for.
- Events of prompts dropped by a drain are published in the drain's own step; the source publishes them right after it, unlocked.
- A dequeued prompt may enter before the run that dequeued it has left: the source runs both on one goroutine, so the model allows more orders than it has.
- Edge scans, resolves, prompts and notes themselves; the burn-watch marker on the retry; where the row's key comes from when the user-message count fails.
- A carried trigger that names an edge outside the set, which the source calls unreachable.
- Matching notes to files, prompts and the working set, and the choice of the newest checkpoint: inputs of a note.
- Selection's per-pass counters.
- Fixed-width integers: token counts, turn numbers and sequence numbers are unbounded, and differences are compared without truncation.
- The question service, the session's plan store and the non-interactive degrade of the scope gate: an answer is a step.
- Gates of overlapping runs of one session: a newer run stamp appears only once the older run's calls are through, which the dispatch protocol provides.
- The text of an API key and the result of a balance fetch.
