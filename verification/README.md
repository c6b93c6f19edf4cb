# MOZI: verified models of its schedulers, artifact state and text formats

MOZI is an agent runtime: a gateway that queues chat turns, a brain that streams answers, a
coordinator that turns tool output and produced files into cards, background jobs, subagent
processes, and a desktop application that takes over an older home directory. This project models
the parts of it that keep state across interleaved steps or that print and parse text, and proves
what they promise for every run and every input.

`dafny verify dfyconfig.toml` checks everything.

## What is modelled

**Turn scheduler** (`TurnScheduler*.dfy`). One promise chain per session and one counting semaphore
per user, in four maps. A step is the code between two awaits. A ticket waits for its session, then
for a user slot, may be handed a slot before its continuation runs, and releases both when its task
ends. Safety, exact map contents, absence of deadlock and a decreasing measure hold in every
interleaving. Progress needs the queue notice to return: it is called outside the `try`, and the
model says exactly what a throwing notice costs.

**Artifact coordinator** (`Coordinator*.dfy`). Mutable records shared by three maps, and a stream of
open and patch events. The fold a client makes of the stream (the shape of
`ui/src/hooks/useChat.ts:187-215`) shows what the coordinator records. Where the two can part, the
condition is exact, and what can differ after an arbitrary run is spelled out field by field.

**File tracker** (`FileTracker*.dfy`). Which files of a turn become cards, which of them lead, which
are demoted and which have vanished, on top of the coordinator. The emit loop is cut at its awaits,
so that passes over several files, latches, sweeps and calls of the coordinator interleave; a pass
that nothing interrupts is one step of the loop. A turn interleaves scans and sweeps with calls of
the coordinator, and the signals for pages and documents are read from what the calls made of it.

**CSV** (`Csv*.dfy`). The usage export prints quoted rows, the file preview parses delimited text.
The parser is the hand-written loop over characters. What it makes of every text, quoted or not, is
stated by a grammar of its own, and the round trip is exact (section 2 of RFC 4180).

**Canonical JSON and presets** (`StableJson*.dfy`, `Presets.dfy`). Key-sorted JSON text, the
comparison of a preset file with the stored agent that rests on it, and the loading loop.

**Subagent processes** (`SubagentRpc*.dfy`). Line framing over arbitrary chunks and the table of
pending requests.

**Stream segments** (`StreamSegments*.dfy`). The start, chunk and end frames of one Web turn.

**Job runner** (`JobRunner*.dfy`). Claims, retries, timeouts, forced failures, cancellation, stop,
restart and delivery; at most three calls are counted at a time, the calls at work beyond these are
accounted for, and so is how often a result is handed to its channel.

**Home migration** (`Migration*.dfy`). The ordered file system effects, cut off at every point, and
any number of launches in a row.

**Agent definitions** (`DefinitionCache*.dfy`, `DefinitionLoader.dfy`). A cache guarded by a
generation counter, and a synchronous probe that must agree with the asynchronous discovery.

**Scores and lifecycle** (`AgentScoring.dfy`, `AgentLifecycle.dfy`). The score formula over exact
reals, extended by the results of dividing by zero, and the promotion, demotion, blacklisting and
archiving rules.

Files named `...Spec` hold the state and its steps as values and functions. What each step brings
about, in words that do not use the functions, is in `...Effects`, `...Order`, `...Latches`, `...Answers`,
`...Texts` and `...Frames`; `...Proofs`, `...Theorems`, `...Cards`, `...Roles`, `...Calls`,
`...Turns`, `...Awaits`, `...Work` and `...Delivery` hold the invariants and the other main results.
The file without a suffix holds the same steps as a class or as methods with loops, proved equal to
the functions. `Options.dfy`, `Sequences.dfy` and `JsText.dfy` are shared.

## What the code does and its comments do not say

Each of these is proved. Where a promise fails, the condition under which it holds is exact; where it
takes a run to get there, a run from the initial state shows it.

- A queue notice that throws leaves its session blocked for good, and a slot already queued for it
  leaks (`TurnSchedulerTheorems.RejectedCallWedgesItsSession`, `ThrowingNoticeExample`).
- Reviving a published card by path tells the client nothing until the next patch
  (`CoordinatorProofs.OpReplays`, `CoordinatorCards.RevivedReportExample`, `RevivalEndsInStepIff`),
  empty texts are sent but not recorded (`CoordinatorProofs.PatchReplaysIff`,
  `CoordinatorCards.EmptiedTitleExample`), and a seed whose content type contradicts its data flips
  the record at every call (`CoordinatorProofs.ContradictingSeedFlips`).
- A page that a scan saw counts for the rest of the turn, also when it is reopened and not finished
  again (`FileTrackerTurns.EndDecidesIff`, `ReopenedPageExample`). Outside the delivery directory the
  moment of a scan decides whether a sheet gets a card (`FileTrackerTurns.ScratchSheetDependsOnTiming`).
- A path that gets a card while a pass waits to add its file is taken off that card when the content
  of the file already has another one (`FileTrackerAwaits.LatePathKeepsCardIff`).
- A text whose last row is one empty cell loses that row (`Csv.RoundTrip`, `EmptyCellIsLost`).
- A key comparison that ties on two distinct keys, as a locale comparison may, makes the text depend
  on key order (`StableJson.CanonicalIffNoTies`).
- A preset file that drops its prompt or config is written again at every start, because the update
  leaves absent fields alone (`Presets.SecondLoadIsSilentIff`, `DroppedPromptNeverSettles`).
- A request that cannot be written is rejected at once and stays pending
  (`SubagentRpcProofs.SettledOnce`, `UnwritableStaysPending`).
- After one streamed answer, the end frame of a second one is taken for a repetition and its segment
  stays open (`StreamSegmentsProofs.VisibleEndClosesIff`, `SegmentIsEndedIff`, `SecondAnswerStaysOpen`).
- A task cancelled after its timeout fired is queued again when its handler gives up, although the
  comment above `cascadeCancelCronTask` says late handlers cannot do that
  (`JobRunnerTheorems.CancellationIsFinalIff`, `CancelledTaskComesBack`); the same holds after a
  forced failure (`TerminalIsFinalIff`, `FailedTaskComesBack`).
- A forced failure frees its slot while the handler is still at work, so handlers that ignore their
  signal pile up without bound (`JobRunnerWork.WorkOfEveryRun`, `ForcedFailuresPileUp`).
- A task that is failed as stale and then returns is handed to its channel for both outcomes, also
  after the attempts to deliver the first one were used up (`JobRunnerDelivery.GivingUpIsFinalIff`,
  `BothOutcomesAreDelivered`).
- A tick that is under way when the runner is stopped still starts the tasks it had picked
  (`JobRunnerTheorems.StoppedTickCallsIff`, `StoppedRunnerCalls`).
- A config write that fails during the migration is swallowed, and the torn or unchanged file is
  installed (`MigrationProofs.MigratedIsCompleteIff`, `SwallowedWriteExample`).
- A negative token budget lifts the efficiency above one, and a budget of zero on which nothing was
  spent makes the score not a number (`AgentScoring.ScoreIsBounded`, `NegativeBudgetOverpays`).
- Thresholds that both demote and promote one score move an agent at every evaluation
  (`AgentLifecycle.AtMostThreeIff`, `CrossedThresholdsCycle`), and refreshing an inactive agent keeps
  it from being archived (`ArchivedIffGap`, `DailyRefreshKeepsInactive`).

## Model

| member | source | states |
|---|---|---|
| TurnSchedulerTheorems.SafetyOfEveryRun | src/index.ts:403-491 | in every interleaving a user's count equals the slot holders and those handed a slot, never exceeds the maximum, and equals it while anyone waits; one task per session; sessions and users are served in arrival order |
| TurnSchedulerTheorems.MapsConserveTheirMeaning | src/index.ts:363-491 | a tail entry exists iff a ticket of the session is unfinished, the depth counts the tickets behind work, and count and queue entries exist iff somebody holds or awaits a slot |
| TurnSchedulerTheorems.ClampsNeverBite | src/index.ts:413-470 | neither clamp at zero ever changes a value |
| TurnSchedulerTheorems.NeverStuck | src/index.ts:420-491 | with a slot and no rejected call, unfinished work always has a next step, also when tickets hold their session while awaiting a slot |
| TurnSchedulerTheorems.DrainBound | src/index.ts:444-491 | every step but an arrival lowers the work left |
| TurnSchedulerTheorems.EveryTicketCompletes | src/index.ts:444-491 | once arrivals stop, every schedule ends after at most four steps a ticket with all done and all four maps empty |
| TurnSchedulerTheorems.QuiescentMapsEmptyIffNoneLost | src/index.ts:439-491 | when nothing can move, the maps are clean iff no notice rejected a call |
| TurnSchedulerTheorems.RejectedCallWedgesItsSession | src/index.ts:461-468 | no later ticket of a rejected call's session is ever served, and a slot handed to it is never returned |
| TurnSchedulerTheorems.ThrowingNoticeExample | src/index.ts:462-467 | the smallest run in which a throwing notice blocks a session |
| TurnSchedulerTheorems.TicketMoves | src/index.ts:420-490 | a throwing notice rejects a call exactly when it has to wait, behind unfinished work of its session or for a slot; a slot is free exactly when fewer than the maximum are held and nobody is in line |
| TurnSchedulerProofs.StepKeepsInv | src/index.ts:403-491 | every atomic step keeps the invariant of tickets and maps |
| TurnScheduler.TurnQueues.ReleaseSlot | src/index.ts:403-419 | hands the slot to the first waiter, else lowers the count |
| TurnScheduler.TurnQueues.AcquireSlot | src/index.ts:420-442 | takes a free slot only if nobody waits, else queues |
| TurnScheduler.TurnQueues.EnterChatQueue | src/index.ts:453-466 | appends a ticket to its session's chain |
| TurnScheduler.TurnQueues.AdmitToSession | src/index.ts:468-481 | leaves the waiting depth and asks for a slot |
| TurnScheduler.TurnQueues.FinishTask | src/index.ts:482-490 | gives back slot, session and tail entry |
| CoordinatorProofs.OpKeepsInv | src/artifacts/coordinator.ts:144-457 | every operation keeps the three maps coherent, `terminal` equal to the status, and forgets no path or record |
| CoordinatorCards.CardsOfEveryRun | src/artifacts/coordinator.ts:144-497 | after every run whatever, the client fold shows each opened artifact as recorded, except for empty texts and, once it was revived by path, its status and path; every card that carries a role has one |
| CoordinatorProofs.ReplayOfEveryTurn | src/artifacts/coordinator.ts:144-497 | without empty texts and revivals the client fold shows exactly the recorded fields |
| CoordinatorProofs.OpReplays | src/artifacts/coordinator.ts:261-291 | each operation keeps the client in step; the revival by path does so iff it changes nothing the client shows |
| CoordinatorProofs.PatchReplaysIff | src/artifacts/coordinator.ts:466-497 | a patch keeps the client in step iff it sends no empty text that the record refuses |
| CoordinatorCards.EmptiedTitleExample | src/artifacts/coordinator.ts:466-497 | the shortest run in which an emptied title parts client and record |
| CoordinatorCards.RevivalEndsInStepIff | src/artifacts/coordinator.ts:256-291 | after a revival by path the next patch, such as the completion of the write, brings the client back in step iff it names the status and path that the revival changed |
| CoordinatorCards.RevivedReportExample | src/artifacts/coordinator.ts:261-291 | the shortest run in which a revived card and its record part, until the second write completes |
| CoordinatorProofs.RunKeepsStream | src/artifacts/coordinator.ts:144-497 | each id is opened at most once, and before all its patches |
| CoordinatorProofs.TerminalRecordsStay | src/artifacts/coordinator.ts:210-220 | only a direct patch or a revival by path changes an ended record |
| CoordinatorProofs.TerminateAllTwice | src/artifacts/coordinator.ts:441-457 | ending everything twice is silent iff the first status was terminal or nothing was live |
| CoordinatorEffects.TerminateAllEnds | src/artifacts/coordinator.ts:441-457 | every live record ends with exactly the status asked for and keeps the rest, ended ones stay, and the client gets one patch for each live record in opening order, with status, phase, turn and content type |
| CoordinatorEffects.PatchReachesCard | src/artifacts/coordinator.ts:466-497 | a patch shows on its card value by value with its data merged and the role stamped, its record keeps what is not empty, its paths lead to it, and nothing else is touched |
| CoordinatorEffects.ToolPatchesIff | src/artifacts/coordinator.ts:210-220 | by tool call a patch is sent iff the artifact is running; completing it without a status completes it |
| CoordinatorEffects.NewCardShowsSeed | src/artifacts/coordinator.ts:152-204 | the first call of a tool opens one card that shows its seed field by field, running unless the seed says otherwise, and the paths written before lead to it |
| CoordinatorEffects.KnownCardGetsSeed | src/artifacts/coordinator.ts:75-150 | a later call sends a running artifact one patch with exactly what the seed says and the record does not know, and an ended one nothing |
| CoordinatorEffects.WrittenPathLeads | src/artifacts/coordinator.ts:222-234 | a written path leads to the card of its tool call, or waits for it among the others |
| CoordinatorEffects.RevivedArtifactRuns | src/artifacts/coordinator.ts:261-291 | a write to a published path makes its artifact run again under the new tool call, keeps the rest of the record and sends nothing |
| CoordinatorEffects.PublishedFileLeads | src/artifacts/coordinator.ts:385-412 | a file of an earlier turn is registered as its published card, completed unless the seed says otherwise, and nothing is sent |
| CoordinatorEffects.OpenedFileLeads | src/artifacts/coordinator.ts:414-433 | an opened file goes to the card its path leads to, and else gets a card of its own to which the path then leads |
| CoordinatorEffects.PagePathIff | src/artifacts/coordinator.ts:235-246 | a path is that of an interactive page iff it leads to a page or a live work |
| CoordinatorProofs.SeedIsAbsorbed | src/artifacts/coordinator.ts:75-110 | opening a live artifact again brings its record to what the seed says |
| CoordinatorProofs.OpeningTwiceIsSilentIff | src/artifacts/coordinator.ts:75-150 | repeating the call emits nothing iff the artifact ended or the seed says nothing new |
| CoordinatorProofs.ContradictingSeedFlips | src/artifacts/coordinator.ts:83-88 | a seed with two content types flips the record between them |
| CoordinatorProofs.EarlyWriteIsClaimed | src/artifacts/coordinator.ts:222-234 | a path written before its tool call has a card belongs to the card once it opens |
| Coordinator.ArtifactCoordinator.OpenOrGetArtifact | src/artifacts/coordinator.ts:144-204 | opens or refreshes the record of a tool call on shared mutable records |
| Coordinator.ArtifactCoordinator.EmitPatchTo | src/artifacts/coordinator.ts:466-497 | updates one shared record, its event and its path entries, and no other record |
| Coordinator.ArtifactCoordinator.AdoptToolCall | src/artifacts/coordinator.ts:261-291 | revives or registers an artifact under a tool call |
| Coordinator.ArtifactCoordinator.OpenFile | src/artifacts/coordinator.ts:414-433 | refreshes the card a path resolves to, else opens one and binds the path |
| Coordinator.ArtifactCoordinator.TerminateEverything | src/artifacts/coordinator.ts:441-457 | ends every live record in insertion order |
| Coordinator.ArtifactCoordinator.FindPrimaryDocument | src/artifacts/coordinator.ts:330-339 | finds a completed document, in foreground turns only |
| Coordinator.ArtifactCoordinator.FindCompletedPage | src/artifacts/coordinator.ts:360-366 | finds a completed page, in any turn |
| FileTrackerAwaits.EmittedPathsKeepTheirCard | src/artifacts/file-artifacts.ts:791-985 | with passes cut at their awaits, and whatever passes, latches, sweeps and coordinator calls come in between, an emitted path keeps resolving, no pass reaches the last branch, and no step of a pass over the path opens a card |
| FileTrackerAwaits.LatePathKeepsCardIff | src/artifacts/file-artifacts.ts:933-966 | a path that gets a card while a pass waits to add its file keeps it iff the content of the file has no other card |
| FileTrackerAwaits.UnchangedStaysSilent | src/artifacts/file-artifacts.ts:793-985 | whatever comes before a pass over an unchanged file and between its steps, the pass changes nothing from its begin to its end, unless the path became a page still to be published |
| FileTrackerAwaits.UninterruptedPass | src/artifacts/file-artifacts.ts:791-985 | the pieces of a pass, run without anything in between, do what one step of the emit loop does |
| FileTrackerProofs.PassRemembersFingerprint | src/artifacts/file-artifacts.ts:791-985 | whatever a pass does not skip it remembers under the fingerprint it saw |
| FileTrackerProofs.ChangedFileIsRepublished | src/artifacts/file-artifacts.ts:915-931 | a changed file sends one patch with its new data on its own card |
| FileTrackerProofs.SweepTellsTheTruth | src/artifacts/file-artifacts.ts:703-725 | after a sweep each emitted file is marked missing iff it is not there, nothing else of it changed, and a second sweep does nothing |
| FileTrackerLatches.SweepSends | src/artifacts/file-artifacts.ts:703-725 | a sweep sends each card one patch for every file it misreports, with the flag put right, and nothing else |
| FileTrackerLatches.RolesOfBatch | src/artifacts/file-artifacts.ts:627-645 | where something leads, each file of a batch that may lead does and every other supports it; nothing else of a file changes |
| FileTrackerLatches.PageDemotes | src/artifacts/file-artifacts.ts:735-762 | the first page found demotes the files that may not lead beside it, once for each card and with one patch each; later ones change nothing |
| FileTrackerLatches.DocumentDemotes | src/artifacts/file-artifacts.ts:785-790 | the first document found, in a scan or with the coordinator, does the same |
| FileTrackerOrder.ArrangedStably | src/artifacts/file-artifacts.ts:597-650 | a curated batch holds the same files, decks before documents, sheets, archives, images, code and the rest, by path within a kind, and files equal in both keep their order |
| FileTrackerOrder.ScanOpensInOrder | src/artifacts/file-artifacts.ts:749-966 | a scan of new files opens exactly one card for each that may be carded, in display order, showing its data and role |
| FileTrackerEffects.LeftAloneIff | src/artifacts/file-artifacts.ts:798-799 | a pass leaves a file alone iff it cannot be served, is as it was when the turn began, or is older than the turn and neither declared nor on a card |
| FileTrackerEffects.PagePublishes | src/artifacts/file-artifacts.ts:838-902 | a changed page sends one patch on its card, completed iff nothing blocks it and running with a live preview otherwise |
| FileTrackerEffects.CardIsRefreshed | src/artifacts/file-artifacts.ts:915-931 | a path with a card sends its new data there exactly when the file changed |
| FileTrackerEffects.PublishedCardIsTaken | src/artifacts/file-artifacts.ts:817-834 | a file that an earlier turn published takes over its card instead of opening one |
| FileTrackerEffects.EqualFileJoins | src/artifacts/file-artifacts.ts:933-951 | a file of equal content joins the card there is, and shows on it iff it is preferred |
| FileTrackerEffects.PreferredFileIsShown | src/artifacts/file-artifacts.ts:345-350 | of any number of files of equal content the one card shows the one changed last, and of those the one named best |
| FileTrackerTurns.VanishedFilesAreShown | src/artifacts/file-artifacts.ts:693-725 | after a turn and a sweep the client shows of every card whether its file is there |
| FileTrackerCalls.CallAside | src/artifacts/coordinator.ts:144-457 | a coordinator call that names none of the files does the same with and without their cards, and leaves the cards alone |
| FileTrackerTurns.ScansLeaveTheRest | src/artifacts/file-artifacts.ts:679-985 | with the cards of the files taken out, the coordinator is after any turn what its calls alone would have made of it |
| FileTrackerTurns.FinalRoles | src/artifacts/file-artifacts.ts:591-651 | after any interleaving of scans, sweeps and calls the client shows the role that the files scanned and the signals found determine |
| FileTrackerTurns.RolesIgnoreBatching | src/artifacts/file-artifacts.ts:735-791 | two turns over the same files that find the same signals show the same roles, however scans are batched and wherever calls fall |
| FileTrackerTurns.EndDecidesIff | src/artifacts/file-artifacts.ts:749-790 | a turn with no call after its last scan shows the roles that one scan of everything at the end would give, iff no page or document seen by a scan was lost again in a way that matters |
| FileTrackerTurns.EndDecides | src/artifacts/file-artifacts.ts:759-790 | without direct patches and revivals by path nothing is lost, and the end alone decides |
| FileTrackerTurns.ReopenedPageExample | src/artifacts/file-artifacts.ts:759-762 | the turn in which a reopened page still demotes a sheet |
| FileTrackerTurns.NewFileIsCardedIff | src/artifacts/file-artifacts.ts:763-784 | the scan that finds a new file gives it a card iff it is in the delivery directory or may lead given the pages finished so far |
| FileTrackerTurns.ScratchSheetDependsOnTiming | src/artifacts/file-artifacts.ts:780-784 | outside the delivery directory a sheet scanned before a page is finished gets a card, after it none |
| FileTracker.TurnFileTracker.EmitCandidate | src/artifacts/file-artifacts.ts:791-985 | the body of the emit loop; its last branch is left out because it is dead |
| FileTracker.TurnFileTracker.DemoteEmittedToSupporting | src/artifacts/file-artifacts.ts:735-747 | patches every emitted file that may not lead, each card once |
| FileTracker.TurnFileTracker.SweepMissingEmitted | src/artifacts/file-artifacts.ts:703-725 | patches exactly the emitted files whose flag is wrong |
| FileTracker.TurnFileTracker.EmitBatch | src/artifacts/file-artifacts.ts:749-791 | latches from the coordinator, demotions, minting, curation into display order and emission of one scan |
| Csv.ParseDelimitedRows | src/artifacts/file-preview.ts:184-233 | the character loop computes the rows and the truncation flag |
| CsvTexts.EveryTextIsParsed | src/artifacts/file-preview.ts:184-233 | every text there is reads as rows of fields quoted in part, in whole or not at all, ended by any mix of breaks, and is parsed to just these rows, cut to the limit with an exact flag |
| CsvTexts.AnyStyleRoundTrip | src/artifacts/file-preview.ts:184-233 | a table printed with quotes or without, cell by cell, and with any mix of breaks is parsed back iff its last row leaves a trace |
| CsvTexts.PrintQuotesEverything | src/api/application-routes.ts:3271-3273 | the export is the style that quotes every cell and ends its rows with line feeds |
| Csv.RoundTrip | src/api/application-routes.ts:3271-3273 | parsing the printed table gives it back cut to the limit, iff the text does not end in a row of one empty cell; the flag is exact |
| Csv.EmptyCellIsLost | src/artifacts/file-preview.ts:184-233 | the smallest table that is lost: one row of one empty cell |
| Csv.PrintIsInjective | src/api/application-routes.ts:3271-3273 | different tables print different text |
| Csv.ExportUsage | src/api/application-routes.ts:3265-3273 | the paging loop exports exactly the first rows of the store |
| Csv.PreviewShowsTheStore | src/api/application-routes.ts:3257-3273 | the preview of an export shows the header and the first rows text for text, and says when it was cut |
| StableJson.PrintInjective | src/agents/registry.ts:219-229 | the texts of two values cannot be confused before a delimiter, and are equal only for values equal up to key order |
| StableJson.Canonical | src/agents/registry.ts:219-229 | under a total key order equal text means equal up to key order, both ways |
| StableJson.CanonicalIffNoTies | src/agents/registry.ts:223-227 | the text is canonical iff the key comparison never ties |
| StableJsonTexts.PrintIsJson | src/agents/registry.ts:219-229 | the text is a JSON text of the value by the grammar of RFC 8259, with the members of its objects in key order |
| StableJsonTexts.EscapeIsShortest | src/agents/registry.ts:219-229 | each character is spelled in the shortest way section 7 of RFC 8259 has for it |
| Presets.ComparisonDecides | src/agents/registry.ts:231-243 | the comparison is false iff the stored agent shows what the file says |
| Presets.UnchangedIsSound | src/agents/registry.ts:231-243 | an unchanged verdict is right whatever the key order does |
| Presets.OneFileDoes | src/agents/registry.ts:246-297 | a file without id or name does nothing, an unknown agent is stored as the file says or the loading fails on a refused file or a null field, and a known one is written iff it was bootstrapped as a preset and does not show the file |
| Presets.LoadingTwice | src/agents/registry.ts:246-297 | a second load changes no agent and rewrites exactly the presets whose file dropped a field |
| Presets.SecondLoadIsSilentIff | src/agents/registry.ts:246-297 | the second load writes nothing iff no file dropped its prompt or config |
| Presets.DroppedPromptNeverSettles | src/agents/registry.ts:246-297 | the smallest store in which a preset is written at every start |
| Presets.DuplicateIdsNeverSettle | src/agents/registry.ts:253-296 | two files of one id overwrite each other at every start |
| Presets.Registry.LoadPresets | src/agents/registry.ts:246-297 | the loop registers, skips or updates each preset file |
| SubagentRpcProofs.ChunksDoNotMatter | src/agents/process-manager.ts:200-214 | however the output is cut, the process ends in the same state |
| SubagentRpcProofs.OutputIsFramed | src/agents/process-manager.ts:200-214 | the lines handled are the finished lines of the whole output, trimmed and non-blank |
| SubagentRpcProofs.BufferIsTheTail | src/agents/process-manager.ts:200-214 | after any events the buffer is the one end of the output that is free of line feeds and reaches back to a line feed or the beginning |
| SubagentRpcProofs.SettledOnce | src/agents/process-manager.ts:251-274 | a request is pending iff its timer is live, is settled once besides a write error, and the table lists the unsettled requests iff no pending one failed to be written |
| SubagentRpcProofs.EmptyAfterExit | src/agents/process-manager.ts:220-231 | after the exit the table stays empty and nothing is settled again |
| SubagentRpcProofs.SettlementsHaveCauses | src/agents/process-manager.ts:426-447 | a promise resolves only on a heard answer without an error, and so on for every outcome |
| SubagentRpcAnswers.AnswerSettles | src/agents/process-manager.ts:426-447 | in every run a pending request is settled by the first line heard that answers it, rejected iff that line carries an error, and goes on waiting as long as no line does and neither timer nor exit comes |
| SubagentRpcAnswers.TimerAndExitSettle | src/agents/process-manager.ts:220-269 | the timer of a pending request rejects it and takes it off the table, and the exit does so with all of them |
| SubagentRpcAnswers.SendIsTakenIff | src/agents/process-manager.ts:251-274 | a request is taken iff the process is alive, under the next number, listed last and timed |
| SubagentRpcAnswers.NumbersAreShared | src/agents/process-manager.ts:262-263 | the processes draw their request numbers from one count |
| SubagentRpcAnswers.PendingInOrder | src/agents/process-manager.ts:271-273 | in every run the table lists the pending requests in the order they were sent |
| SubagentRpcProofs.PartsAreTheLines | src/agents/process-manager.ts:202-203 | splitting loses no line feed and leaves none inside a line |
| JsText.TrimCutsBlanks | src/agents/process-manager.ts:205-207 | trimming cuts blanks at both ends and nothing else, and something is left iff not all is blank |
| SubagentRpcProofs.UnwritableStaysPending | src/agents/process-manager.ts:265-273 | the case that parts the table from the promises |
| SubagentRpc.ManagedProcess.OnData | src/agents/process-manager.ts:200-214 | buffers, splits, trims and handles |
| SubagentRpc.ManagedProcess.OnExit | src/agents/process-manager.ts:220-231 | rejects every pending request in the order of the table |
| SubagentRpc.ManagedProcess.SendRequest | src/agents/process-manager.ts:251-274 | files a request with a timer before writing it |
| StreamSegmentsProofs.EveryTraceIsWellFormed | src/index.ts:743-868 | a frame is a start frame iff it is the first of its segment, segments never decrease and are left only after an end, live reasoning belongs to a started segment and its clock never restarts |
| StreamSegmentsProofs.EverySegmentIsOpenedOnce | src/index.ts:752-757 | each segment before the current one has exactly one start frame |
| StreamSegmentsProofs.ClientShowsLastText | src/index.ts:780-852 | the text of the last frame is the last text of the segment |
| StreamSegmentsProofs.PrefaceIsKept | src/index.ts:833-862 | an end without text closes the segment with the text shown, a reset with none |
| StreamSegmentsProofs.StreamedMeansShown | src/index.ts:850-956 | the handler keeps silent only after a visible end frame |
| StreamSegmentsProofs.VisibleEndClosesIff | src/index.ts:823-852 | a visible end leaves the client with the end frame of its text iff not all of these hold: an answer was ended before, the text repeats that of the segment, and the last frame sent is a chunk |
| StreamSegmentsProofs.SegmentIsEndedIff | src/index.ts:823-852 | by the callbacks alone: the current segment has an end frame iff some visible end since it began is the first of the turn or differs from the text before it |
| StreamSegmentsProofs.RepeatedEndIsIdle | src/index.ts:826-832 | an end repeated at once changes nothing in any turn, whatever comes before and after |
| StreamSegmentsProofs.SecondAnswerStaysOpen | src/index.ts:826-832 | the case in which the end of a second answer is lost |
| StreamSegmentsFrames.EveryStreamIsTold | src/index.ts:743-868 | in every turn the shared variables are what the callbacks since the last closing one say |
| StreamSegmentsFrames.EveryCallSends | src/index.ts:743-868 | in every turn each callback sends exactly the frames its history calls for, with the text and the thought of the segment, whether the thought goes on, since when and how long it took |
| StreamSegments.WebStream.EndStream | src/index.ts:823-852 | the end callback on the shared variables |
| JobRunnerProofs.BoundsOfEveryRun | src/background-executor/runner.ts:213-356 | at most three running entries, both handler maps agree, and calls are covered by retries and recoveries |
| JobRunnerProofs.CallsAreBounded | src/background-executor/runner.ts:264-356 | while the runner is not restarted a handler is called at most one time more than its retries, whatever deliveries do |
| JobRunnerEffects.AddedTaskWaits | src/core/background-tasks.ts:152-197 | a task is added once, pending, with nothing counted and nothing to deliver |
| JobRunnerEffects.CallEnds | src/background-executor/runner.ts:297-355 | a call not cancelled completes its task iff it returned, queues it again iff it threw an ordinary error with retries left, and fails it otherwise, with the result due and the entries cleared |
| JobRunnerEffects.CancelledCallEnds | src/background-executor/runner.ts:304-320 | the end of a call the user cancelled writes nothing to the row |
| JobRunnerEffects.TimerAborts | src/background-executor/runner.ts:275-290 | the timer of a call tells it to end while it is at work, unless it was told before |
| JobRunnerEffects.PermanentEndIsFinal | src/background-executor/runner.ts:326-355 | a task whose only unsettled call ends with a permanent error stays failed and is never called again, in every continuation |
| JobRunnerEffects.TickFailsStale | src/background-executor/runner.ts:361-383 | a tick first fails exactly the running rows that are stale and tells their calls, unless the runner is stopped or in a tick |
| JobRunnerEffects.TickStarts | src/background-executor/runner.ts:230-241 | it then starts what is claimable among the first it picked, as many as slots are free, each with one new call |
| JobRunnerEffects.NextTickBegins | src/background-executor/runner.ts:213-246 | a tick that ends or is abandoned lets the next one begin, and abandoning it changes nothing else |
| JobRunnerEffects.CascadeCancels | src/background-executor/runner.ts:63-133 | a cascade cancels exactly the live rows given and tells the calls registered for them |
| JobRunnerEffects.StopAborts | src/background-executor/runner.ts:172-190 | a stop tells every registered call and forgets all entries, and leaves the rows alone |
| JobRunnerEffects.StartRequeues | src/background-executor/runner.ts:150-171 | a start queues again exactly the rows marked running, and nothing when the runner polls already |
| JobRunnerEffects.DeliveryEnds | src/core/background-tasks.ts:423-442 | a delivery ends delivered iff sent, due again iff not and attempts are left, and given up otherwise |
| JobRunnerEffects.DeliveryIsClaimed | src/core/background-tasks.ts:413-421 | a delivery is claimed iff its result is due, and counts as an attempt |
| JobRunnerTheorems.OneCallAtATime | src/background-executor/runner.ts:150-246 | if restarts wait for aborted handlers, a task never has two unsettled calls |
| JobRunnerTheorems.HastyRestartOverlaps | src/background-executor/runner.ts:150-187 | a restart that does not wait runs a task twice at a time |
| JobRunnerTheorems.TerminalIsFinalIff | src/background-executor/runner.ts:304-355 | a terminal status is final iff every unsettled call was cancelled by the user |
| JobRunnerTheorems.SilencedTerminalIsFinal | src/background-executor/runner.ts:388-413 | such a task is never run again, failing deliveries and restarts included |
| JobRunnerTheorems.CancellationIsFinalIff | src/background-executor/runner.ts:63-133 | a cancellation is final iff it reaches every unsettled call |
| JobRunnerTheorems.CancelledTaskComesBack | src/background-executor/runner.ts:114-119 | the case in which a cancelled task is queued again |
| JobRunnerTheorems.FailedTaskComesBack | src/background-executor/runner.ts:312-383 | the case in which a task failed as stale is queued again |
| JobRunnerTheorems.StoppedIsQuiet | src/background-executor/runner.ts:172-214 | a stopped runner with no tick under way calls no handler until it is started again |
| JobRunnerTheorems.StoppedTickCallsIff | src/background-executor/runner.ts:227-240 | a tick under way at the stop still calls a handler iff a task it had picked can be started |
| JobRunnerTheorems.StoppedRunnerCalls | src/background-executor/runner.ts:172-240 | the shortest run in which a stopped runner calls a handler |
| JobRunnerWork.WorkOfEveryRun | src/background-executor/runner.ts:172-383 | in every run the handlers at work are those counted as running and those whose entry a stop, a forced failure or the end of another call of the task dropped |
| JobRunnerWork.StepStrays | src/background-executor/runner.ts:172-383 | a handler leaves the count unsettled exactly by one of these three, and stays out until it settles |
| JobRunnerWork.WorkIsBounded | src/background-executor/runner.ts:213-246 | at most three handlers are at work, and one more for each entry dropped |
| JobRunnerWork.ForcedFailuresPileUp | src/background-executor/runner.ts:361-383 | for every number there is a run of a runner never stopped with so many handlers at work and none counted |
| JobRunnerTheorems.CompletedOnlyByReturn | src/background-executor/runner.ts:297-311 | only the return of a call that was not cancelled completes a task |
| JobRunnerDelivery.DeliveriesOfEveryRun | src/core/background-tasks.ts:355-442 | in every run a result is handed to its channel at most five times for the first outcome and once more for each further one, of which a queueing, retry or recovery brings two at most |
| JobRunnerDelivery.GivenUpUntilOutcome | src/core/background-tasks.ts:402-442 | a task whose attempts are used up is not claimed for delivery again unless another outcome is written |
| JobRunnerDelivery.GivingUpIsFinalIff | src/background-executor/runner.ts:388-413 | for an ended task giving up is final iff every unsettled call was cancelled by the user |
| JobRunnerDelivery.BothOutcomesAreDelivered | src/background-executor/runner.ts:297-383 | the shortest run in which a task is handed over as failed and then as completed |
| JobRunner.BackgroundJobRunner.EndTick | src/background-executor/runner.ts:230-241 | starts claimable tasks up to the free slots |
| JobRunner.BackgroundJobRunner.ClaimTaskForRun | src/core/background-tasks.ts:247-260 | claims a pending task or a retry that is due, at most once |
| JobRunner.BackgroundJobRunner.FinishCall | src/background-executor/runner.ts:296-355 | clears the entries and completes, requeues or fails the task |
| JobRunner.BackgroundJobRunner.CheckTimeouts | src/background-executor/runner.ts:361-383 | force-fails stale rows and aborts their calls |
| JobRunner.BackgroundJobRunner.CascadeCancel | src/background-executor/runner.ts:63-133 | cancels live rows, then aborts the calls registered for them |
| JobRunner.BackgroundJobRunner.StopRunner | src/background-executor/runner.ts:172-190 | aborts every running call and empties the map |
| JobRunner.BackgroundJobRunner.ClaimTaskDelivery | src/core/background-tasks.ts:413-421 | claims a result that is due and counts the attempt |
| JobRunner.BackgroundJobRunner.FinishDelivery | src/core/background-tasks.ts:423-442 | marks the result delivered, due again, or given up |
| MigrationProofs.TargetIsNeverPartial | desktop/src/migration.ts:242-348 | however a call goes, the target is installed as a whole iff every effect took place, cleared away iff only the install is missing, and as it was otherwise; the source is unchanged but for the checkpoint; an installed target has an exact backup |
| MigrationProofs.EveryCallAnswers | desktop/src/migration.ts:255-348 | what every call answers: not needed, an occupied target and a runtime that is up stop it with the disk as it was, and else it ends migrated iff it runs through under an id of its own |
| MigrationProofs.MovedHomeIs | desktop/src/migration.ts:283-326 | entry by entry what a finished migration installs: the database after its checkpoint, the configs as their rewriting left them, the rest as it was, and the manifest |
| MigrationProofs.CrashInBackup | desktop/src/migration.ts:283-289 | a crash while the backup is made leaves the entries before whole and at most the one at hand torn |
| MigrationProofs.CrashInStaging | desktop/src/migration.ts:291-292 | a crash while the staging copy is made finds the backup whole |
| MigrationProofs.MigratedIsCompleteIff | desktop/src/migration.ts:123-171 | the installed target is the complete rewritten copy with its manifest iff every config that had to be rewritten was |
| MigrationProofs.SwallowedWriteExample | desktop/src/migration.ts:123-141 | the smallest migration that reports success and installs a torn file |
| MigrationProofs.RerunFinishes | desktop/src/migration.ts:255-348 | after any crash or failure a rerun under a new time stamp ends migrated or finds the target in place |
| MigrationProofs.OccupiedTargetIsKept | desktop/src/migration.ts:263-273 | over any number of launches an occupied target, and everything else on the disk, stays as it is |
| MigrationProofs.TargetOverLaunches | desktop/src/migration.ts:242-348 | over any launches with crashes and failures anywhere, a free target is still free, or one launch installed it as a whole and none after it changed a thing |
| MigrationProofs.LastLaunchFinishes | desktop/src/migration.ts:255-348 | after any launches one more that runs through ends migrated, or finds the target installed |
| MigrationProofs.LeftoversAreAbandoned | desktop/src/migration.ts:339-347 | a staging copy found after any launches was there before, or belongs to a launch that crashed or could not remove it |
| Migration.Migrator.Migrate | desktop/src/migration.ts:283-326 | the effects of an undisturbed migration are the plan, in its order |
| DefinitionCache.CachedAnswersAreFresh | src/agents/definition-loader.ts:234-365 | in every interleaving a cached answer comes from a scan begun after the last invalidation and stored within the time to live, and so does a remembered probe |
| DefinitionCache.StoredIffUndisturbed | src/agents/definition-loader.ts:309-365 | a scan is stored iff no invalidation fell between its begin and its end |
| DefinitionCache.StoredAnswersAgain | src/agents/definition-loader.ts:309-365 | a stored answer is given again until it is invalidated or too old, unless a later scan replaces it, and after an invalidation there is none |
| DefinitionCache.ScanBeginsIff | src/agents/definition-loader.ts:309-314 | a cached answer saves the scan, and without one a scan begins |
| DefinitionCache.ProbeIsRemembered | src/agents/definition-loader.ts:253-306 | a probe is remembered exactly until the next invalidation or the end of its time |
| DefinitionCache.ProbeReads | src/agents/definition-loader.ts:253-306 | a probe reads the files iff no earlier one is remembered |
| DefinitionCache.DefinitionStore.StoreResult | src/agents/definition-loader.ts:361-364 | stores a finished scan unless the generation moved on |
| DefinitionLoader.ProbeAgrees | src/agents/definition-loader.ts:253-365 | the probe is true iff discovery yields a ready agent |
| DefinitionLoader.DefinitionTellsWhy | src/agents/definition-loader.ts:319-327 | an agent is disabled exactly by its marker, needs setup exactly when enabled with a skill missing or a model unknown, and names these |
| DefinitionLoader.WorkspaceOverridesBundled | src/agents/definition-loader.ts:308-360 | a workspace definition overrides every bundled one of its name, and in a directory the last one counts |
| DefinitionLoader.HasReadyAgentDefinitionSync | src/agents/definition-loader.ts:253-306 | the loops of the probe decide what discovery would show |
| AgentScoring.CalculateScore | src/agents/agent-scoring.ts:169-230 | grouping and accumulating compute the score of the task sets and the total cost |
| AgentScoring.ScoreIgnoresOrder | src/agents/agent-scoring.ts:184-223 | the score does not depend on the order of the attempts |
| AgentScoring.ScoreIsBounded | src/agents/agent-scoring.ts:199-226 | with non-negative costs and a budget that can carry them the score lies between zero and the sum of the weights, and is full iff every task was completed at the first attempt for free; it is not a number iff nothing was spent on a budget of zero |
| AgentScoring.PartsInUnit | src/agents/agent-scoring.ts:195-223 | each part lies between zero and one, the efficiency iff the budget is positive, or zero with something spent, or negative with nothing spent; each is full iff nothing was lost |
| AgentScoring.SharesOfTasks | src/agents/agent-scoring.ts:191-222 | success rate, average cost and retries are the shares of tasks and attempts |
| AgentScoring.RetriesAndCostsTell | src/agents/agent-scoring.ts:211-223 | the reliability is used up after three retries a task, and the efficiency is what the average attempt leaves of the budget |
| AgentScoring.ZeroBudgetScores | src/agents/agent-scoring.ts:217-226 | on a budget of zero spending uses it up, nothing spent is not a number, and refunds lift the score without bound |
| AgentScoring.NegativeBudgetOverpays | src/agents/agent-scoring.ts:211-226 | on a negative budget a perfect agent that spends anything scores above the sum of the weights |
| AgentScoring.CompletionPaysTheFirstWeight | src/agents/agent-scoring.ts:195-226 | for the same work the score differs by the first weight times the difference in completed tasks |
| AgentLifecycle.AtMostThreeIff | src/agents/agent-scoring.ts:268-509 | one result causes at most three transitions iff it does not both demote and promote the agent |
| AgentLifecycle.WhereItSettles | src/agents/agent-scoring.ts:268-509 | the kind and status in which one result leaves an agent it does not move for ever, and whether a promotion request is pending |
| AgentLifecycle.ProposedOnce | src/agents/agent-scoring.ts:415-470 | a gated promotion is proposed at most once, and not while a request is pending |
| AgentLifecycle.MovesAreStamped | src/agents/agent-scoring.ts:310-500 | the record carries the time of the last evaluation that moved it |
| AgentLifecycle.ArchivedIffIdle | src/agents/agent-scoring.ts:310-334 | an inactive agent is archived iff some evaluation finds it idle for long enough |
| AgentLifecycle.OrderedThresholdsSettle | src/agents/agent-scoring.ts:375-500 | a demotion threshold at most the promotion threshold excludes cycles |
| AgentLifecycle.CyclesForever | src/agents/agent-scoring.ts:375-500 | otherwise every evaluation moves the agent |
| AgentLifecycle.CrossedThresholdsCycle | src/agents/agent-scoring.ts:375-500 | an agent and thresholds for which this happens |
| AgentLifecycle.ArchivedIsAbsorbing | src/agents/agent-scoring.ts:310-334 | an archived agent stays as it is |
| AgentLifecycle.ThreeTransitions | src/agents/agent-scoring.ts:310-410 | three transitions are reached: demoted, blacklisted, archived |
| AgentLifecycle.ArchivedIffGap | src/agents/agent-scoring.ts:521-530 | an inactive agent that is refreshed is archived iff two writes lie far enough apart |
| AgentLifecycle.DailyRefreshKeepsInactive | src/agents/agent-scoring.ts:521-530 | refreshed daily it is not archived after two days, refreshed once it is |
| AgentLifecycle.AgentRow.EvaluateEvolutionLifecycle | src/agents/agent-scoring.ts:268-509 | the branches of the evaluation, writing as they go |

## Left out

- HTTP routes, channels, the database, YAML and TOML parsing, hashing, previews and Electron windows: only their results enter, as parameters.
- Real time and random ids: a clock value, a time stamp or a drawn id is an input; drawn ids are assumed new and given artifact ids non-empty.
- Turn keys: how a message is mapped to its session and user key; the slot maximum is one number of at least one for a run, as the configuration reader guarantees for each message.
- File tracker: paths are canonical keys already, and the registry and version snapshots of earlier turns are inputs of a candidate. Its class keeps the coordinator as the value that `Coordinator.dfy` proves its own class against, not as a second object.
- FileTrackerAwaits.EmittedPathsKeepTheirCard: says that the path resolves, not to which card; see LatePathKeepsCardIff. Each pass is cut at its awaits, also at those that the code skips when no tenant is set or a hash is known.
- FileTrackerTurns.ScansLeaveTheRest: a scan is one step here, as if nothing came between its files and inside their passes; FileTrackerAwaits cuts the passes.
- Coordinator: time stamps, the client's own defaults and the titles listed for a summary.
- FileTrackerTurns.FinalRoles: covers files of the delivery directory with distinct contents that do not change during the turn, that no earlier turn published and that the coordinator does not know when the turn begins; the calls of the turn name none of their paths, cards and tools, and a scan is one step. A file written through a tool call that has a card of its own belongs to that card, see Coordinator; elsewhere batching does matter, see NewFileIsCardedIff.
- FileTrackerTurns.RolesIgnoreBatching: the same files and calls.
- FileTrackerTurns.EndDecidesIff: the same files and calls.
- FileTrackerTurns.VanishedFilesAreShown: the same files and calls; two paths of equal content share one card, and then one flag.
- FileTrackerEffects.PagePublishes: whether a page is blocked is an input; the list of its blockers and its wording are left out.
- Csv.PreviewShowsTheStore: the rows of the store are one snapshot; rows that arrive while the export pages are not modelled.
- StableJson: values are JSON values; dates, undefined and numbers that are not finite are outside it, and so are strings with lone surrogates. Values are printed before their entries are sorted by key, which gives the same list because the comparison looks at keys only.
- Presets: the second half of the loader, which reads manifest directories and only registers what is missing; the store is that of the default tenant.
- Subagent processes: decoding of bytes cut inside a character, the heartbeat timer, capability and peer messages, which do not touch the table.
- Job runner: the cron run records and plan tasks that follow a task's status; whether a retry is due and which rows are stale are inputs; the table is that of one tenant with one runner.
- Home migration: other processes writing to the source or target meanwhile, also after the emptiness check; the integrity check and the hash comparison, which can only stop the call; which config values count as defaults. Source, target, staging and backup are disjoint directories.
- Agent definitions: the cache of skills, which the agent cache does not follow; both loaders see the same skill names.
- AgentScoring.CalculateScore: reals instead of floating point, with infinities and not-a-number only where a division by zero makes them; the sign of a zero budget and overflow are not modelled.
- AgentScoring.ScoreIgnoresOrder: exact reals; in floating point the sum of the costs can depend on the order in its last digits.
- AgentScoring.ScoreIsBounded: exact reals, so rounding at the bounds is not covered.
- AgentScoring.PartsInUnit: exact reals; in floating point a part can be full through rounding.
- AgentScoring.SharesOfTasks: exact reals.
- AgentScoring.RetriesAndCostsTell: exact reals.
- AgentScoring.NegativeBudgetOverpays: exact reals; in floating point a tiny excess can be rounded away.
- AgentScoring.CompletionPaysTheFirstWeight: exact reals.
- Agent lifecycle: the scores it evaluates are real numbers; a score that is not a number compares false with every threshold and moves no agent.
- AgentLifecycle.ProposedOnce: a request stays pending here; when it has been answered the agent can be proposed again.
