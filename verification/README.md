# Verified models of the orchestration scripts

This project models seven parts of the repository's `scripts/` in Dafny and proves what they are for. Each Dafny module
belongs to one component:

| component | modules |
|---|---|
| parallel test sharding | `Sharding`, on the scheduling theory of `GreedyLoad` and `GreedyTight` |
| sprint continuation | `Sprint`, `SprintDrain`, `SprintDiscovery`, `SprintExamples` |
| local model responses | `ReasoningFilter`, `ThinkTags`, `ThinkTagCases`, `LocalResponse`, `LocalResponseStatus`, `LocalResponseSafety`, `LocalResponseExamples`, `CriticContract`, `Json` |
| one-shot native activation | `ActivationLedger`, `ActivationScript`, `LedgerTransport`, `BeadClosure`, `ActivationRun`, `ActivationExamples` |
| tool-surface proofs | `CanonicalJson`, `CursorChain`, `EndpointInventory`, `ToolSurface`, `ToolSurfaceMeaning`, `ToolSurfaceDrift` |
| native worker packets | `PacketReservation`, `PacketInterleaving`, `PacketBudget`, `PacketValidation` |
| share-URL extraction | `ShareUrl`, `UrlText`, `UrlRoundTrip`, `DerivationSearch` |

`Sorting`, `Text` and `Wrappers` hold what several modules share. Code that changes things step by step is a method or a
class whose contract ties it to a specification function, and the promises are proved about that function. Whatever may
fail from outside (a write, a server reply, a process) is a parameter, so that a theorem about all parameters is a theorem
about every failure. Hash functions, the UTF-8 decoder, `urlparse`, Unicode folding and the validators of imported modules
are uninterpreted parameters.

Verify the project with `dafny verify dfyconfig.toml`.

## What the proofs found

Seven promises do not hold as plainly as one would state them. The model keeps the code's behaviour, gives an input at
which each fails, and proves exactly when it holds:

- The text of an eligible response is blanked all the same when unusable content is quarantined and no response contract
  is set (condition: `LocalResponseSafety.EligibleTextSurvivesIff`; input: `LocalResponseExamples.GoodAnswerIsBlanked`).
- The activation ledger can end in an accepting terminal record although no accepted result was written: exactly when the
  append reports an error after storing, or loading the ledger or writing the result fails
  (`ActivationRun.Activation.RunLiveActivation`; `ActivationExamples.AcceptedLedgerRejectedResult`).
- A failed activation is contained if and only if there is no ledger yet or its summary can be read: the summary comes
  before the sweep, so that a started server may go unswept and unreported
  (`ActivationRun.Activation.Handle`, `RunLiveActivation`; `ActivationExamples.UnsweptServer`).
- A receipt can be consumed although no packet is returned: exactly when a write of the commit fails late enough
  (`PacketReservation.CommittedWithoutPacketIff`; `PacketInterleaving.SpentWithoutPacket`).
- The early steps of the packet builder take a boolean budget override for an integer, and an empty parent id on a first
  validation attempt for none; only the validation that closes the build refuses them. A packet is returned, always a valid
  one, if and only if the early steps accept and neither is the case (`PacketValidation.BuildPacket`;
  `BooleanOverrideIsInvalid`, `EmptyParentIsInvalid`).
- Share-URL extraction is not total: it raises if and only if, of the candidates that are valid or that `urlparse` chokes
  on, the first in queue order is of the latter kind (`ShareUrl.ExtractShareUrl`; `ShareUrl.RaisesOverAShareUrl`).
- Recommend-then-close stops early exactly when the open issues contain a self-blocking set; with nothing else in the way
  that is a dependency cycle (`SprintDrain.ClosedUnlessSelfBlocked`, `SprintDrain.DrainsCompletelyIffAcyclic`;
  `SprintExamples.CyclicWorkgraphIsStuck`).

## Model

| member | source | states |
|---|---|---|
| Sharding.Shard.constructor | scripts/run_parallel_unittest.py:43-48 | a new shard has its index, no paths and no bytes |
| Sharding.LightestShard | scripts/run_parallel_unittest.py:86 | the shard chosen is the one of least load, the first of several |
| Sharding.DealOne | scripts/run_parallel_unittest.py:85-88 | one round of the loop keeps every shard equal to what greedy dealing of the files so far prescribes |
| Sharding.Deal | scripts/run_parallel_unittest.py:84-88 | the loop deals the whole ordered list greedily |
| Sharding.SortPaths | scripts/run_parallel_unittest.py:89-90 | every shard's paths end up sorted, nothing else changes |
| Sharding.BuildShards | scripts/run_parallel_unittest.py:77-91 | fails exactly for fewer than one worker; otherwise fresh, distinct shards, as many as there are workers but no more than files, holding exactly the paths, in order, and bytes of the greedy placement |
| Sharding.OrderDescends | scripts/run_parallel_unittest.py:84 | files are dealt in order of descending size, and of their paths where sizes agree |
| Sharding.LoadIsNearOptimal | scripts/run_parallel_unittest.py:77-91 | Graham's bound: 3·m·load ≤ (4·m − 1)·opt against any rival assignment of the same files, listed in any order |
| Sharding.InputOrderIsIrrelevant | scripts/run_parallel_unittest.py:83-91 | permuting the input paths changes no shard |
| Sharding.RecordedLoadIsExact | scripts/run_parallel_unittest.py:87-88 | the recorded bytes are the sum of the sizes of the paths held |
| Sharding.ShardsPartitionInput | scripts/run_parallel_unittest.py:84-91 | together the shards hold each input file exactly as often as the input does |
| Sharding.ShardsAreBalanced | scripts/run_parallel_unittest.py:84-91 | two loads differ by at most the largest file |
| Sharding.NoShardIsEmpty | scripts/run_parallel_unittest.py:83-91 | with positive sizes every shard gets a file |
| GreedyLoad.HeavyItemsFit | scripts/run_parallel_unittest.py:84-88 | while every item exceeds a third of the optimum, greedy dealing is optimal |
| GreedyLoad.LongestFirstBound | scripts/run_parallel_unittest.py:84-88 | the 4/3 − 1/(3m) bound for descending weights against any rival on the same bins |
| GreedyTight.BoundIsAttained | scripts/run_parallel_unittest.py:84-88 | the bound is tight for every number m of shards: sizes 2m−1, 2m−1, …, m+1, m+1, m, m, m attain it |
| GreedyTight.HeavyLoadsFit | scripts/run_parallel_unittest.py:84-88 | when every item exceeds a third of the optimum, no greedy bin exceeds the optimum |
| GreedyLoad.GreedySpread | scripts/run_parallel_unittest.py:85-88 | greedy bins differ by at most the heaviest item |
| GreedyLoad.GreedyUsesEveryBin | scripts/run_parallel_unittest.py:85-88 | positive items, no fewer than bins, leave no bin empty |
| Sprint.DependencyLookup | scripts/continue_sprint.py:253-262 | the lookup lists, under each id and each lane, exactly the items that answer to it, in order |
| Sprint.BlockerReasons | scripts/continue_sprint.py:265-280 | the reasons accumulated in the loop are those the specification derives from the item list itself |
| Sprint.DependencyBlockers | scripts/continue_sprint.py:272-279 | one dependency contributes its open resolvers, or that it is unresolved |
| SprintDrain.RankedIsSorted | scripts/continue_sprint.py:283-312 | the ranking is a permutation of the ready issues, ascending by (priority, −unblocks, label rank, id) |
| Sprint.ItemReasons | scripts/continue_sprint.py:416-442 | an item's reasons in the brief, with the canonical-readiness reasons of Beads mode in front |
| Sprint.RankedIsBestFirst | scripts/continue_sprint.py:283-312 | ranking puts urgency first, then what more open issues wait for, then validation before plain work before follow-ups, then the id |
| Sprint.ContinuationBrief | scripts/continue_sprint.py:393-450 | the brief's ready, blocked and recommended parts are exactly those of the specification; the ready issues stand best first, the first of them is recommended, and every blocked issue has a reason |
| SprintDrain.NoReasonsIff | scripts/continue_sprint.py:265-280 | no reasons exactly when nothing obstructs the issue itself and no open issue blocks it |
| SprintDrain.ReadyExactly | scripts/continue_sprint.py:403-450 | ready is exactly the open work that can start, in Beads mode the canonically ready executable leaves of it, and blocked exactly the rest |
| SprintDrain.ReasonsSayWhy | scripts/continue_sprint.py:265-280 | the reasons given are exactly those that hold: status, guard labels, open blockers with their status, unknown dependencies |
| SprintDrain.BriefReasonsSayWhy | scripts/continue_sprint.py:416-442 | and in Beads mode exactly what it adds to them |
| SprintDrain.ReadyAfter | scripts/continue_sprint.py:265-280 | after closing a set of issues, an issue is free exactly when all its blockers are in that set |
| SprintDrain.ClosingAddsNoBlocker | scripts/continue_sprint.py:265-280 | closing never gives another issue a blocker |
| Sprint.RankIsTotal | scripts/continue_sprint.py:283-312 | the ranking key is a total preorder |
| SprintDrain.RecommendedIsBestReady | scripts/continue_sprint.py:403-450 | the recommendation is open, unblocked and ranked first; none is made exactly when no open work is free |
| SprintDrain.BeadsRecommendationIsCanonical | scripts/continue_sprint.py:416-450 | in Beads mode only canonically ready executable leaves without blockers are recommended |
| SprintDrain.DrainIsTopological | scripts/continue_sprint.py:393-450 | over a whole run of recommend-then-close, each issue is closed once, and only after all its blockers |
| SprintDrain.DrainEnds | scripts/continue_sprint.py:393-450 | such a run ends only where nothing is recommended |
| SprintDrain.SelfBlockingIsNeverClosed | scripts/continue_sprint.py:265-280 | a set whose members wait for one another or are obstructed is never entered |
| SprintDrain.ClosedUnlessSelfBlocked | scripts/continue_sprint.py:265-312 | an open issue is eventually closed if and only if no self-blocking set contains it |
| SprintDrain.CycleIsSelfBlocking | scripts/continue_sprint.py:265-280 | a dependency cycle blocks itself |
| SprintDrain.SelfBlockingHasCycle | scripts/continue_sprint.py:265-280 | with nothing obstructed, a self-blocking set contains a cycle |
| SprintDrain.DrainsCompletelyIffAcyclic | scripts/continue_sprint.py:253-450 | with distinct ids and nothing obstructed, the run closes every open issue if and only if the dependencies have no cycle |
| SprintExamples.CyclicWorkgraphIsStuck | scripts/continue_sprint.py:253-312 | two plain tasks that wait for each other, read from their words and labels: a cycle, and nothing is ever closed |
| SprintDiscovery.Visit | scripts/continue_sprint.py:203-208 | the children of one answer are all discovered; those neither asked nor queued, and no others, are queued once, in order of first occurrence |
| SprintDiscovery.OrderIsDecided | scripts/continue_sprint.py:173-178 | the order of first occurrence is the only one of its kind |
| SprintDiscovery.Ask | scripts/continue_sprint.py:185-208 | one query keeps the exploration exact |
| SprintDiscovery.Discover | scripts/continue_sprint.py:182-208 | terminates on every graph, asks about each parent reachable from the epic exactly once, and discovers exactly the epic, the ready ids and what the epic reaches |
| SprintDiscovery.ShowAll | scripts/continue_sprint.py:211-214 | chunks of fifty together show every id |
| SprintDiscovery.EveryIdIsAskedFor | scripts/continue_sprint.py:211-214 | the calls ask about every id once, in order, at most fifty at a time, and all their answers are kept |
| SprintDiscovery.ReadyOrder | scripts/continue_sprint.py:173-178 | each non-blank ready id once, in order of first occurrence |
| SprintDiscovery.SortedIds | scripts/continue_sprint.py:211 | the discovered ids, sorted and without repetition |
| SprintDiscovery.LoadBeadsItems | scripts/continue_sprint.py:159-234 | fails exactly when a discovered id was not shown, and names exactly those; otherwise each issue is its last shown record, marked ready with its place in the ready order as rank, and leaf exactly when no shown record names it as parent |
| ReasoningFilter.StripRawReasoningFields | scripts/dispatch_work.py:1158-1199 | the in-place walk computes the pure key filter and its metadata |
| ReasoningFilter.StripIsClean | scripts/dispatch_work.py:1175-1199 | no reasoning-named key is left at any depth |
| ReasoningFilter.StripKeepsClean | scripts/dispatch_work.py:1175-1199 | a value without such keys passes unchanged |
| ReasoningFilter.StripIsIdempotent | scripts/dispatch_work.py:1175-1199 | filtering twice is filtering once |
| ReasoningFilter.StripPathwise | scripts/dispatch_work.py:1175-1199 | every path of ordinary keys leads to the filtered form of what it led to; every other path leads nowhere |
| ReasoningFilter.StripForgetsReasoning | scripts/dispatch_work.py:1175-1199 | values that differ only under reasoning keys are filtered alike |
| ReasoningFilter.NotesForgetReasoning | scripts/dispatch_work.py:1158-1199 | they also yield the same verdict in the metadata |
| ThinkTags.SplitThinking | scripts/dispatch_work.py:1095-1155 | a malformed verdict leaves no content; unstripped content is unchanged |
| ThinkTags.SplitUndoesWrapping | scripts/dispatch_work.py:1095-1155 | splitting a wrapped answer, in any spelling of any tag, gives back the trimmed answer and the trimmed reasoning |
| ThinkTags.UntouchedIffTagFree | scripts/dispatch_work.py:1095-1155 | text passes untouched exactly when it looks like JSON or contains no think tag |
| ThinkTagCases.UnclosedIsMalformed | scripts/dispatch_work.py:1104-1121 | a block opened and never closed is malformed |
| ThinkTagCases.LoneClosingTagSplits | scripts/dispatch_work.py:1129-1141 | a lone closing tag separates reasoning from answer when both say something, and is malformed otherwise |
| ThinkTagCases.SeveralTagsAreMalformed | scripts/dispatch_work.py:1142-1149 | several tags outside a block are malformed |
| ThinkTagCases.LateOpeningIsMalformed | scripts/dispatch_work.py:1142-1149 | so is an opening tag that does not stand at the start |
| LocalResponse.ReadFinishReasons | scripts/dispatch_work.py:1244-1255 | the finish reasons are the non-blank ones, trimmed, in order |
| LocalResponse.ReadChoices | scripts/dispatch_work.py:1265-1302 | the loop over the choices computes the specified scan: rewritten choices, metadata and final texts |
| LocalResponse.SanitizeLocalResponsePayload | scripts/dispatch_work.py:1202-1335 | the whole sanitizer, payload and metadata, equals its specification |
| LocalResponseStatus.StatusOfPayload | scripts/dispatch_work.py:1202-1335 | the status of every payload: sound or not by its error, forbidden keys and single choice; then, by its raw finish reasons and first text, cut off, empty, ended otherwise than required, or completed |
| LocalResponseStatus.OffendsIff | scripts/dispatch_work.py:1158-1199 | the walk finds a payload malformed exactly when a forbidden key has a value outside reasoning |
| LocalResponse.QuarantineLocalResponseContent | scripts/dispatch_work.py:716-727 | exactly the message contents are blanked |
| LocalResponse.FinishDispatch | scripts/dispatch_work.py:1754-1845 | the post-response steps compute the specified response, status, eligibility and final content |
| LocalResponseSafety.QuarantinedIsBlank | scripts/dispatch_work.py:716-727 | a quarantined payload projects to a response without message content |
| LocalResponseSafety.ChoiceIs | scripts/dispatch_work.py:1338-1381 | a retained choice has its finish reason if that is a string or missing, and the text of its message |
| LocalResponseSafety.UsageIs | scripts/dispatch_work.py:1338-1381 | the usage figures retained are the non-negative integers of the known keys |
| LocalResponseSafety.NoFinalMeansBlank | scripts/dispatch_work.py:1265-1306 | a payload without final content shows no message content even before quarantine |
| LocalResponseSafety.IneligibleIsQuarantined | scripts/dispatch_work.py:1800-1828 | with quarantine configured, an ineligible response shows no message content and has empty final content; model name and finish reason are projected all the same |
| LocalResponseSafety.ExitZeroIffEligible | scripts/dispatch_work.py:2064-2072 | exit code 0 holds exactly for eligible responses |
| LocalResponseSafety.StatusIsNeverPromoted | scripts/dispatch_work.py:1764-1805 | no later check turns a status into completed |
| LocalResponseSafety.DispatchStatusIs | scripts/dispatch_work.py:1764-1805 | the status a dispatch ends with, and when its response is usable |
| LocalResponseSafety.CompletedResponseShowsItsFinal | scripts/dispatch_work.py:1265-1335 | a completed response has one choice and no provider error, and shows its safe, non-blank final content |
| LocalResponseSafety.EligibleTextSurvivesIff | scripts/dispatch_work.py:1806-1827 | eligible text is delivered if and only if a contract is set or unusable content is not quarantined |
| LocalResponseExamples.GoodAnswerIsBlanked | scripts/dispatch_work.py:1806-1827 | a plain answer that is usable, and blank when unusable content is quarantined |
| LocalResponseSafety.PlainKeysAreReadable | scripts/dispatch_work.py:76-88 | key normalisation never takes the pipeline's own keys for reasoning |
| LocalResponseSafety.SanitizingForgetsReasoning | scripts/dispatch_work.py:1175-1335 | noninterference: payloads that differ only under reasoning keys are sanitized to the same payload, status and final content |
| LocalResponseSafety.DispatchForgetsReasoning | scripts/dispatch_work.py:1175-1381 | so are the projected response, eligibility and exit code |
| LocalResponseSafety.UsableReviewSatisfiesSchema | scripts/dispatch_work.py:1779-1814 | a usable response under a critic contract carries a review that its declared schema allows |
| CriticContract.ValidateResponseContract | scripts/dispatch_work.py:505-654 | the validator with its error loop equals its specification |
| CriticContract.CheckFindings | scripts/dispatch_work.py:595-633 | the loop over the findings collects exactly the specified errors |
| CriticContract.FindingAgrees | scripts/dispatch_work.py:117-248 | one finding passes exactly when its schema allows it and its texts are not blank |
| CriticContract.ListAgrees | scripts/dispatch_work.py:505-654 | a list field passes exactly when its schema allows it and no item is blank |
| CriticContract.AcceptsIffSchema | scripts/dispatch_work.py:117-248 | the validator accepts exactly what the JSON schema sent to the model allows, minus blank texts |
| CriticContract.V1IsBoundedV2 | scripts/dispatch_work.py:505-654 | a text passes under v1 exactly when it passes under v2, as the same review, within all v1 bounds |
| CriticContract.ReviewIff | scripts/dispatch_work.py:505-580 | a text becomes a review exactly when it is short enough, free of control characters before and after parsing, and a faultless object |
| ActivationLedger.LedgerStore.Append | scripts/cwo_core/native_activation_ledger.py:823-907 | an entry is stored exactly when the history stays legal and the write is not lost; success means it was, without error |
| ActivationLedger.AppendKeepsLegal | scripts/cwo_core/native_activation_ledger.py:823-907 | under every fault the stored history stays legal and grows by at most the entry; success means it grew |
| ActivationLedger.LegalIsConsistent | scripts/cwo_core/native_activation_ledger.py:518-650 | in every legal history phase, counters, pending intents and bound threads agree |
| ActivationLedger.PendingIsRecorded | scripts/cwo_core/native_activation_ledger.py:518-650 | a pending intent stands in the history |
| ActivationLedger.ThreadsAreRecorded | scripts/cwo_core/native_activation_ledger.py:518-650 | a bound thread stands in the history under its role |
| ActivationLedger.NothingAfterTerminal | scripts/cwo_core/native_activation_ledger.py:518-650 | a terminal entry is the last one |
| ActivationScript.LegalIffScripted | scripts/cwo_core/native_activation_ledger.py:518-650 | the legal histories, exactly: the beginnings of one script of claim, approval, calibration, threads and turns, each entry answering those it refers to, perhaps ended by a terminal entry |
| ActivationScript.FullScriptIsDispatched | scripts/cwo_core/native_activation_ledger.py:518-650 | the dispatched phase is reached exactly at the end of the script |
| LedgerTransport.ActivationLedgerTransport.StartThread | scripts/run_native_pool_activation_preview.py:165-198 | state and outcome of a thread start, under every fault and reply |
| LedgerTransport.ActivationLedgerTransport.StartTurn | scripts/run_native_pool_activation_preview.py:200-222 | state and outcome of a turn start, under every fault and reply |
| LedgerTransport.ThreadStartIs | scripts/run_native_pool_activation_preview.py:165-198 | with an intent the RPC is issued, and it succeeds exactly when a usable answer is bound on record, which makes the thread's role known |
| LedgerTransport.TurnStartIs | scripts/run_native_pool_activation_preview.py:200-222 | a turn's RPC is issued exactly when its intent is recorded without error, and it succeeds exactly when the answer is bound on record |
| LedgerTransport.StartedThreadKeepsInv | scripts/run_native_pool_activation_preview.py:165-198 | a thread start keeps the write-ahead invariant |
| LedgerTransport.StartedTurnKeepsInv | scripts/run_native_pool_activation_preview.py:200-222 | a turn start keeps the write-ahead invariant |
| LedgerTransport.RunKeepsInv | scripts/run_native_pool_activation_preview.py:145-222 | the invariant holds after every run of calls with any faults |
| LedgerTransport.DistinctIdsAreFresh | scripts/run_native_pool_activation_preview.py:165-222 | identifiers that are distinct among themselves and from those in use are fresh whenever they are minted |
| LedgerTransport.RpcsFollowTheirOwnIntent | scripts/run_native_pool_activation_preview.py:145-222 | in every run each RPC was issued after its own recorded intent, no two share an intent, and turns go to role-bound threads only |
| LedgerTransport.ContainedMeansIdentified | scripts/run_native_pool_activation_preview.py:926-1008 | containment is reported complete only when no intent is pending, so every RPC issued is identified in the ledger |
| BeadClosure.CheckDispositions | scripts/run_native_pool_activation_preview.py:687-723 | no error exactly when the dispositions are the expected children, each once, each with exactly the authorised flags |
| BeadClosure.BoundBeadsAreDistinct | scripts/run_native_pool_activation_preview.py:725-753 | the reservation checks leave no bead expected twice |
| BeadClosure.ExpectedByOrdinal | scripts/run_native_pool_activation_preview.py:681-686 | the tasks are taken in the order of their ordinals, each once |
| BeadClosure.FullyClosedMeans | scripts/run_native_pool_activation_preview.py:674-899 | full closure, written out: every disposition, claim, close and final status |
| BeadClosure.CloseInOrder | scripts/run_native_pool_activation_preview.py:755-811 | beads are closed in order, each on owned claim proof, stopping at the first doubt |
| BeadClosure.ShowAll | scripts/run_native_pool_activation_preview.py:813-832 | the final status of every expected bead is what the adapter shows |
| BeadClosure.CloseAcceptedActivationBeads | scripts/run_native_pool_activation_preview.py:674-899 | no close is attempted unless dispositions and claims match; attempted ++ unattempted is the expected list; all attempted but the last are receipted closed; `all_closed` holds exactly when everything is proven closed and the epic open |
| BeadClosure.Conclude | scripts/run_native_pool_activation_preview.py:813-899 | the report on a finished loop, and its `all_closed` flag |
| ActivationRun.Activation.Record | scripts/run_native_pool_activation_preview.py:1076-1100 | a ledger event advances the phase exactly when the append is faultless; it is stored, and in the log, exactly unless the write was lost |
| ActivationRun.Activation.RecordTerminal | scripts/run_native_pool_activation_preview.py:1346-1362 | a terminal record is stored, and in the log, exactly when the ledger is open and the write is not lost; the ledger has ended exactly when it holds one |
| ActivationRun.Activation.RecordCalibrationIntent | scripts/run_native_pool_activation_preview.py:1141-1151 | the intent recorded before any app-server exists is the one handed to the transport |
| ActivationRun.Activation.Drive | scripts/run_native_pool_activation_preview.py:1152-1300 | whatever calls the work makes, the ledger is what the transport's run of all calls so far leaves |
| ActivationRun.Activation.Authorize | scripts/run_native_pool_activation_preview.py:1062-1099 | claim, ledger and verified approval come first and in order |
| ActivationRun.Activation.Approve | scripts/run_native_pool_activation_preview.py:1075-1099 | the approval is checked between its own ledger events |
| ActivationRun.Activation.Admit | scripts/run_native_pool_activation_preview.py:1101-1151 | no app-server exists before admitted, binding-matched reservation and the recorded calibration intent |
| ActivationRun.Activation.Prepare | scripts/run_native_pool_activation_preview.py:1152-1207 | calibration, worker contracts and pool contract keep the ledger running |
| ActivationRun.Activation.RunPool | scripts/run_native_pool_activation_preview.py:1280-1327 | the pool runs and its outcome and tool trace are stored before anything is accepted |
| ActivationRun.Activation.RequireAcceptance | scripts/run_native_pool_activation_preview.py:1328-1345 | passes exactly for an accepting receipt, a satisfied trace and full bead closure |
| ActivationRun.Activation.Accept | scripts/run_native_pool_activation_preview.py:1346-1375 | the accepted result is written only after the terminal record |
| ActivationRun.Activation.Handle | scripts/run_native_pool_activation_preview.py:1376-1460 | threads are swept and containment is reported if and only if there is no ledger or its summary can be read; then at most a rejected terminal record and a rejected result follow, and the log is exactly that trail |
| ActivationRun.Activation.RunLiveActivation | scripts/run_native_pool_activation_preview.py:1027-1463 | with a failure injected anywhere: an accepted result if and only if the whole path was walked in order; a failure caught right where the attempt stopped, and contained if and only if the ledger, if any, can be read; no app-server before approval and reservation, and one that was started closed last; a normal return exactly when, besides, that close succeeds; the ledger legal, ended exactly when a terminal record is in the log, and the exact condition for accepted without an accepted result; with distinct identifiers every RPC follows its own intent, and complete containment means that all are identified |
| ActivationRun.TracedIsWriteAhead | scripts/run_native_pool_activation_preview.py:145-222 | in an activation with distinct identifiers every RPC was issued after its own intent, and no two share one |
| ActivationRun.ReportIsTrue | scripts/run_native_pool_activation_preview.py:926-1008 | a report of complete containment in such an activation means that every RPC of it is identified in the ledger |
| ActivationExamples.ProfilesAreWellFormed | scripts/cwo_core/native_activation_ledger.py:29-33 | each profile begins with its one calibration role and repeats no role |
| ActivationExamples.SmoothReachesTerminal | scripts/run_native_pool_activation_preview.py:1027-1375 | an attempt that passes every gate |
| ActivationExamples.UnsweptServer | scripts/run_native_pool_activation_preview.py:926-962 | a run in which a server is started, the attempt fails, and nothing is swept or reported |
| ActivationExamples.AcceptedLedgerRejectedResult | scripts/run_native_pool_activation_preview.py:1346-1463 | a run whose ledger says accepted and whose result says rejected |
| CanonicalJson.SameIffCanonical | scripts/codex_tool_surface.py:123-136 | `_same_json` accepts exactly the pairs with one canonical text, whatever their key order |
| CanonicalJson.EqualityCoerces | scripts/codex_tool_surface.py:123-136 | Python's `==` does not tell `true` from `1`, `_same_json` does |
| CursorChain.CheckPages | scripts/codex_tool_surface.py:266-284 | the page loop accepts exactly the complete, repetition-free cursor chains, and otherwise names the first broken link |
| CursorChain.DistanceIsUnique | scripts/codex_tool_surface.py:279-282 | a listing that ends repeats no cursor |
| EndpointInventory.RequireZeroEndpointInventory | scripts/codex_tool_surface.py:251-285 | accepts exactly complete empty chains under a valid header |
| EndpointInventory.AcceptedMeansNoEndpoints | scripts/codex_tool_surface.py:251-285 | if the recording is what the server answers, walking the server ends within a hundred pages and finds nothing |
| EndpointInventory.EmptyListingIsAccepted | scripts/codex_tool_surface.py:266-284 | a faithful recording of an ending empty listing is a complete chain |
| ToolSurface.NormalizedTools | scripts/codex_tool_surface.py:220-232 | a tool list is accepted only as a permutation of a known profile |
| ToolSurface.RequireCaptureBinding | scripts/codex_tool_surface.py:571-606 | passes exactly for a sealed binding whose causal fields are what the host says now; a drift report names the first field that differs |
| ToolSurfaceMeaning.AcceptedBindingMeans | scripts/codex_tool_surface.py:571-606 | looked up in an accepted binding: every optional tool source and each of the user's servers, and no other, is off; the catalog is the live one or the projection as the profile asks; no network; the sandbox is writable exactly for the patch tool; and the live entry of the model is the one frozen |
| ToolSurfaceMeaning.LockdownIs | scripts/codex_tool_surface.py:386-414 | the same lookups in the lockdown configuration itself |
| ToolSurface.RequireProcessBinding | scripts/codex_tool_surface.py:624-650 | passes exactly for the associated process, the expected thread and two endpoint-free observations on one connection |
| ToolSurfaceMeaning.ProcessIsConfined | scripts/codex_tool_surface.py:624-650 | looked up in an accepted process: its model, no network, no approvals, no fallback, the sandbox of its profile, and the binding it belongs to |
| ToolSurface.BuildSurfaceProof | scripts/codex_tool_surface.py:653-708 | builds exactly when capture, binding and process match, and what it builds |
| ToolSurfaceMeaning.BuildableMeans | scripts/codex_tool_surface.py:653-708 | a proof is built only for a request that offers exactly the tools asked for, of the model asked for, on a restrained host |
| ToolSurface.ReportFaults | scripts/codex_tool_surface.py:733-793 | every fault of shape is reported, and no other |
| ToolSurface.BindingErrors | scripts/codex_tool_surface.py:794-804 | clean exactly when capture, process and claims are bound to one another |
| ToolSurface.DriftErrors | scripts/codex_tool_surface.py:805-830 | clean exactly when every live drift check agrees |
| ToolSurface.CausalSymmetric | scripts/codex_tool_surface.py:531-536 | causal agreement is symmetric |
| ToolSurface.CausalTransitive | scripts/codex_tool_surface.py:531-536 | causal agreement is transitive |
| ToolSurface.CleanIff | scripts/codex_tool_surface.py:794-831 | in a proof of good shape the comparison of the capture binding already implies every live drift check |
| ToolSurface.ValidateSurfaceProof | scripts/codex_tool_surface.py:711-831 | clean if and only if the proof is consistent in itself and the host agrees on every causal field |
| ToolSurfaceMeaning.CleanProofRestrains | scripts/codex_tool_surface.py:711-831 | a clean proof and its binding restrain the host as it is now |
| ToolSurfaceMeaning.CleanProofIsOf | scripts/codex_tool_surface.py:733-793 | a clean proof is verified, sealed, and of the model and tools asked for |
| ToolSurfaceMeaning.CleanProofIsFilledIn | scripts/codex_tool_surface.py:733-793 | its hashes look like hashes and its texts say something |
| ToolSurfaceMeaning.CleanProofIsConfined | scripts/codex_tool_surface.py:794-804 | its process ran the claimed binary on the claimed home, confined |
| ToolSurfaceDrift.BuiltProofIsSound | scripts/codex_tool_surface.py:653-831 | every built proof validates on the host it was built on |
| ToolSurfaceDrift.ProofLivesWhileCausalInputsLast | scripts/codex_tool_surface.py:531-831 | on any later host a built proof validates if and only if that host would freeze the same causal inputs |
| ToolSurfaceDrift.ProvenanceIsNotCausal | scripts/codex_tool_surface.py:530-536 | whole-file bytes, other catalog entries, unrelated preferences and server order may change without causal effect |
| PacketReservation.Store.Reserve | scripts/cwo_core/native_precommit.py:868-909 | a reservation is refused exactly for a consumed receipt or one held by a seen owner or an unended state; otherwise granted, under every fault |
| PacketReservation.Store.CommitReservation | scripts/cwo_core/native_precommit.py:912-947 | refused for a consumed receipt, another holder, or a changed packet id, nonce or state id; otherwise the two writes of a commit, under every fault |
| PacketReservation.Store.Release | scripts/cwo_core/native_precommit.py:950-964 | exactly the holder releases, nothing is consumed, under every fault |
| PacketReservation.BuildPacket | scripts/prepare_native_worker.py:759-810 | one undisturbed build follows the reserve, construct, commit or release protocol |
| PacketReservation.BuildOutcomes | scripts/prepare_native_worker.py:759-810 | exactly when a packet is returned; it is the one committed and nothing stays reserved; a clean failure commits nothing and leaves nothing reserved; a consumed receipt is never used again |
| PacketInterleaving.StepKeepsInv | scripts/prepare_native_worker.py:759-810 | every step of every build, and every death of a process, keeps the registry explained: each reservation and each commit is that of one build, with the ids it reserved under |
| PacketInterleaving.RunKeepsInv | scripts/prepare_native_worker.py:759-810 | so does every interleaving |
| PacketInterleaving.HoldersKeepTheirReservation | scripts/cwo_core/native_precommit.py:868-964 | a reservation changes hands or disappears only by its build's own commit or release, or to a build that finds its owner gone and its state ended |
| PacketInterleaving.ReservationLasts | scripts/cwo_core/native_precommit.py:868-964 | over every run without such a step it stays where it is |
| PacketInterleaving.UndisturbedBuildReturns | scripts/prepare_native_worker.py:759-810 | on a free receipt, a build without faults returns its packet |
| PacketInterleaving.CommitsLast | scripts/cwo_core/native_precommit.py:912-947 | a consumed receipt keeps its one commit for good |
| PacketInterleaving.OnePacketPerReceipt | scripts/prepare_native_worker.py:759-810 | in every interleaving at most one build of a receipt returns a packet, and its hash and ids are the ones committed, for good |
| PacketInterleaving.NoStrayReservation | scripts/prepare_native_worker.py:803-810 | a build that ended holds no reservation unless it failed closed, a registry write failed under it, or its process died |
| PacketReservation.CommittedWithoutPacketIff | scripts/cwo_core/native_precommit.py:937-947 | a hash is committed without a returned packet exactly when a commit write fails late enough |
| PacketInterleaving.SpentWithoutPacket | scripts/cwo_core/native_precommit.py:937-947 | such a run: receipt spent, reservation released, no packet |
| PacketBudget.EffectiveBudget | scripts/prepare_native_worker.py:178-198 | accepts exactly the acceptable overrides, computes the overridden budget, and lists exactly the fields that differ from policy, by name |
| PacketBudget.OverridesOnlyTighten | scripts/prepare_native_worker.py:178-198 | an accepted budget is pointwise at most the policy's, with soft limits within hard ones |
| PacketValidation.OverriddenIs | scripts/prepare_native_worker.py:178-198 | the effective budget is each override's value where there is one, and the policy's elsewhere |
| PacketBudget.ThresholdIsBelowLimit | scripts/prepare_native_worker.py:201-212 | interrupts lie strictly below a positive hard limit, with at least floor and ratio to spare, or at zero |
| PacketBudget.EachThresholdIsLatest | scripts/prepare_native_worker.py:201-212 | each threshold is the latest that leaves the reserve of its own hard limit, or zero |
| PacketBudget.ThresholdIsMonotone | scripts/prepare_native_worker.py:201-212 | thresholds are monotone in the hard limit, for every ratio |
| PacketValidation.BudgetErrors | scripts/prepare_native_worker.py:1293-1312 | clean exactly for integer limits within policy and the three limit rules |
| PacketValidation.ProvenanceErrors | scripts/prepare_native_worker.py:1342-1364 | clean exactly when the provenance names the lane, the policy and the true differences |
| PacketValidation.LineageErrors | scripts/prepare_native_worker.py:1395-1419 | clean exactly for a valid lineage |
| PacketValidation.ValidatePacket | scripts/prepare_native_worker.py:1293-1419 | clean exactly when budget, provenance, thresholds and lineage are valid |
| PacketValidation.BuiltBudgetIsValidIff | scripts/prepare_native_worker.py:178-198 | an accepted budget passes the validator if and only if no override is a boolean that changes its field |
| PacketValidation.BuiltProvenanceIsValid | scripts/prepare_native_worker.py:690-696 | the builder's provenance always passes |
| PacketValidation.BuiltLineageIsValidIff | scripts/prepare_native_worker.py:618-646 | an accepted lineage passes if and only if it is not a first attempt with an empty parent id |
| PacketValidation.ValidLineageIsBuilt | scripts/prepare_native_worker.py:618-646 | the builder accepts every valid lineage and writes it unchanged |
| PacketValidation.BuiltPacketIsValidIff | scripts/prepare_native_worker.py:616-712 | once the early steps accept, what the builder writes passes the validator if and only if no override is a boolean that changes its field and no first attempt has an empty parent id |
| PacketValidation.BuildPacket | scripts/prepare_native_worker.py:616-756 | every packet returned is valid; one is returned if and only if the early steps accept and neither of those two holds; the closing validation refuses exactly the rest of what the early steps accept |
| PacketValidation.BooleanOverrideIsInvalid | scripts/prepare_native_worker.py:178-198 | `True` for 1: taken by the early steps, refused by the closing validation |
| PacketValidation.EmptyParentIsInvalid | scripts/prepare_native_worker.py:618-646 | an empty parent id: taken by the early steps, refused by the closing validation |
| PacketValidation.ValidBudgetIsBuildable | scripts/prepare_native_worker.py:1293-1312 | every budget the validator accepts is produced by some overrides |
| PacketValidation.ValidPacketIsBuilt | scripts/prepare_native_worker.py:616-756 | every valid packet that lists its differences by name is what the builder returns for some input |
| UrlText.UnquoteShrinks | scripts/chatgpt_browser_review.py:284 | percent-decoding leaves a string alone or makes it strictly shorter |
| UrlRoundTrip.UnquoteUndoesEncoding | scripts/chatgpt_browser_review.py:284 | decoding gives back any ASCII text that was form-encoded, with escapes of either case |
| UrlRoundTrip.NothingToUnquote | scripts/chatgpt_browser_review.py:284 | text without a percent sign is left alone |
| UrlText.QueryValuesWithin | scripts/chatgpt_browser_review.py:288-290 | no decoded query value is longer than the query |
| UrlRoundTrip.QueryValuesComeBack | scripts/chatgpt_browser_review.py:288-290 | every value put into a query is read out of it, and nothing else |
| UrlRoundTrip.DistinctNamesKeepOrder | scripts/chatgpt_browser_review.py:288-290 | in order, when no name repeats |
| UrlText.MatchesShrink | scripts/chatgpt_browser_review.py:292-293 | a pattern match is shorter than the candidate or the candidate itself |
| UrlRoundTrip.ShareUrlMatches | scripts/cwo_core/chatgpt_urls.py:8-10 | every share URL, on either host and in either form, is matched up to the end of its id |
| UrlRoundTrip.OnlyShareUrlsMatch | scripts/cwo_core/chatgpt_urls.py:8-10 | and nothing else is matched |
| UrlRoundTrip.FirstIsFound | scripts/chatgpt_browser_review.py:292-293 | the matches are the first one and those after its end |
| UrlRoundTrip.NoneIsFound | scripts/chatgpt_browser_review.py:292-293 | where nothing matches, nothing is found |
| ShareUrl.DerivedIs | scripts/chatgpt_browser_review.py:284-293 | a candidate leads to its decoding, the values of its query, and the matches in it |
| ShareUrl.CleanIs | scripts/chatgpt_browser_review.py:277 | cleaning takes white space and then punctuation off both ends, and no more |
| ShareUrl.DerivedShrinks | scripts/chatgpt_browser_review.py:284-293 | so is every derived string |
| DerivationSearch.Search | scripts/chatgpt_browser_review.py:273-294 | the worklist loop terminates, and its answer is that of the first candidate in queue order that is valid or unparsable; it finds nothing exactly when there is none at any distance |
| DerivationSearch.DecidesOnce | scripts/chatgpt_browser_review.py:273-294 | there is at most one such first candidate |
| DerivationSearch.Visit | scripts/chatgpt_browser_review.py:277-293 | one round keeps the queue in the order of the levels, or answers with its head, and makes progress |
| ShareUrl.ExtractShareUrl | scripts/chatgpt_browser_review.py:273-294 | the extractor terminates on every text; the first valid or unparsable candidate in queue order decides: it is returned if valid, and raises if unparsable; the empty string is returned exactly when no candidate is either |
| ShareUrl.RaisesOverAShareUrl | scripts/chatgpt_browser_review.py:273-294 | a text that makes it raise although a valid share URL is one derivation step away |

## Left out

- Subprocesses, network, TLS, sockets, browsers, clocks and file layout: their outcomes are parameters.
- SHA-256, HMAC and UUIDs: hashes are uninterpreted functions; fresh identifiers are assumed not to collide.
- Unicode normalisation, case folding and surrogates: `casefold`, `lower` and NFKC are parameters, and strings are
  sequences of characters.
- Dictionaries changed in place are modelled on values (`ReasoningFilter`, `LocalResponse`, `Sprint`): aliasing between
  sub-objects is not captured.
- NaN and signed zero in JSON: floats are real numbers.
- Digests and character counts that the sanitizer records beside its verdict: computed, but nothing is proved of them.
- File sizes in `build_shards` are taken to be stable between the two `stat` calls.
- The serial/parallel split, the worker processes and the summary of `scripts/run_parallel_unittest.py`: single-branch
  bookkeeping around `build_shards`.
- Markdown sources, definition checks, hand-off packets and printing in `scripts/continue_sprint.py`.
- How `bd ready` decides canonical readiness: a mark on each issue.
- Hash chain, sequence numbers and file permissions of the activation ledger: only its order of events is modelled.
- Pool runner, calibration, preflight and approval verification of an activation: each is a step that succeeds or raises,
  after any number of transport calls.
- LedgerTransport.RunKeepsInv: identifiers are assumed fresh; it suffices that those minted in a run are distinct
  (`LedgerTransport.DistinctIdsAreFresh`), which is all that is asked of an activation.
- Versions 2 to 4 of tool-surface proofs, and malformed records: proofs and bindings are typed records of version 5, so
  faults of missing, unknown or ill-typed fields are not modelled.
- The extraction of tool definitions from a captured request (`scripts/codex_tool_surface.py:469-527`) is a parameter.
- ToolSurface.ValidateSurfaceProof: versions 2 to 4 and malformed records are not modelled, and the host is taken to be
  stable during one call.
- ToolSurface.ReportFaults: reports the faults of a typed record; missing, unknown and ill-typed fields are not modelled.
- Unreadable reservation registries; receipt and process identity are compared as values.
- PacketBudget.ThresholdIsMonotone: floating-point rounding of ratio times limit is not modelled; ratios are real numbers.
- PacketValidation.ValidatePacket: work-plan allowances, unknown-field checks and the remaining supervision fields are not
  modelled, nor are version 3 packets.
- ShareUrl.ExtractShareUrl: `urlparse` is a parameter of which only the length of its query is assumed.
- Replaying epics, cleaning up agents, hooks, instruction profiles, telemetry import, documentation generators and
  command-line wrappers: they stand apart from the seven parts above.
