# A verified model of the workspace client, its pricing and its data repairs

Six parts of the repository, each with the form its source has. Code that changes state is a class or a
method with loops, proved equal to a function on values; the theorems are about those functions, and so
about every run of the methods. Code that only computes is functions and lemmas.

**The chat store** (`frontend/stores/chat-store.ts`). Sends, recoveries of a running answer and history
loads interleave at every `await`. `ChatStore.dfy` is the store as an object: one method for each stretch
of code between two awaits, over the state record, the four module-level maps and the operations in
flight. `ChatProtocol.dfy` gives the same steps on values, and runs (`Play`) that take such steps in any
order, resets included. `ChatInvariants.dfy` proves what every step keeps, `ChatEffects.dfy` and
`ChatChannels.dfy` what a step can change, `ChatFrames.dfy` that it touches no other operation, `ChatTurns.dfy`
what the request ids, epochs and locks achieve over whole runs, `ChatQuiet.dfy` what a load does when it is
answered, `ChatRefresh.dfy` that refreshes share a load, `ChatStreaming.dfy` what blocks leave in a message,
`ChatAnswers.dfy` what a live send's answer is over whole runs, `ChatEndings.dfy` how turns end and workspaces
are switched, `ChatConversation.dfy` a whole send and `ChatRecovery.dfy` a whole recovery over any interleaving,
`ChatActions.dfy` what single actions do to what is shown, and `ChatRejoin.dfy` what happens when a run is
joined twice. Resets clear the
four maps under operations that are still pending, so what rests on the epochs, the lock or the shared
refreshes is stated for stretches of a run between resets; everything else holds across resets.
`ResetKeepsLockIffIdle` says when the lock survives.

Two findings. The ids of a recovery are derived from its run and not fresh, so once a run is rejoined, a
callback of an earlier recovery of it that has *returned* acts again, blocks go to the run's first answer,
and a failure to join takes earlier answers of the run out of the list (`RecoveryCallbackActsExactlyOnItsRun`,
`ReturnedRecoveryWritesAgain`, `FailedJoinDropsTheRun`); while a recovery is pending and has lost the store,
none of its callbacks acts (`SupersededRecoveryIsInert`). And a dotenv key that a file assigns on two lines is
updated on its first line but read from its last (`ReadAfterWrite`, `UpdateIsSeenIff`,
`RepeatedKeyKeepsItsLastValue`).

**Credit pricing** (`backend/src/billing/policies.py`), over exact reals: proportional slicing, charges,
the ceiling over four scenarios, free tokens and the authorization of a chat turn. The main result,
`AuthorizationCoversSettlement`, composes all of them: what a turn can be charged is at most what was quoted.
`ChargeIsTheLeastCover` and `QuoteIsTheDearestTurn` say what charges and quotes are in the numbers of the policy.

**The PNG normaliser** (`backend/src/academic_visual_runtime/image_provider.py`): a scanning loop and a
printing loop over bytes. Normalising undoes encoding, accepts exactly the encodings of acceptable chunk
lists and leaves its own output alone; `PngFiles.dfy` says what becomes of files given byte by byte, damaged ones
included. Checksum and decompression are arbitrary functions. The layout is
that of sections 3.1 and 3.2 of RFC 2083.

**The bounded event list** (`frontend/lib/workspace-event-ordering.ts`): a truncated list fed by
out-of-order, repeated events is always the top of the full map that keeps the greatest item of each id.

**Data repair in SQL** (migrations 075, 100 and 006). Tables are values in a field, statements are methods,
a transaction is a list of statements with its deferred checks at the end. For the owner invariant the
checks on the touched rows decide the global invariant, both ways. The output-key cutover and the version
renumbering are proved to reach the state their constraints and indexes need.

**Scripts** (`scripts/setup_wizard.py`, `scripts/run_pressure.py`): the dotenv reader and the in-place
rewriter agree, the event-stream loop agrees with the list of events that was sent, and percentiles are
monotone, bounded and independent of the order of the samples.

Reading order: `Wrappers.dfy`, `Numbers.dfy` and `Text.dfy`, then any part on its own. Small results
that say one function in plain terms, such as `MarginalPrices`, `UsageIsNormalized`, `ResetStartsAfresh`,
`HomelessBlockIsDropped`, `FailsIffTheKeyIsTaken` and `KeysFitTheColumn`, stay in their files without a row below. `dafny verify dfyconfig.toml` checks
everything.

## Model

| member | source | states |
|---|---|---|
| ChatStore.ChatStore.FindAssistantMessageIndex | frontend/stores/chat-store.ts:115-127 | the backwards loop finds the last assistant message, or the first message of the current id, or -1 |
| ChatStore.ChatStore.ShowMessages | frontend/stores/chat-store.ts:208-220 | a new visible list is also stored under the key of the active workspace |
| ChatStore.ChatStore.SetActiveWorkspace | frontend/stores/chat-store.ts:237-286 | switching aborts the old transports, drops an empty placeholder, stores the old list, shows the new one and gives up the turn, as the step on values |
| ChatStore.ChatStore.HandleEvent | frontend/stores/chat-store.ts:296-430 | an event for a workspace first shows it and is then reduced into the record |
| ChatStore.ChatStore.Dispatch | frontend/stores/chat-store.ts:300-429 | the five kinds of event change the record as `Reduce` does: texts merge, the first final block replaces, later ones are appended |
| ChatStore.ChatStore.Reset | frontend/stores/chat-store.ts:432-452 | the record and the four maps are emptied while pending operations stay pending |
| ChatStore.ChatStore.LoadHistory | frontend/stores/chat-store.ts:458-466 | an uncached or forced load takes the next request epoch and remembers the activity epoch and whether to hydrate |
| ChatStore.ChatStore.HistoryReplied | frontend/stores/chat-store.ts:473-515 | the response writes only under its own epoch, and hydrates only an undisturbed workspace |
| ChatStore.ChatStore.RefreshHistory | frontend/stores/chat-store.ts:518-531 | refreshes of one workspace share one pending load |
| ChatStore.ChatStore.RefreshSettled | frontend/stores/chat-store.ts:524-529 | a settled refresh is forgotten unless another one has taken its place |
| ChatStore.ChatStore.StopSending | frontend/stores/chat-store.ts:679-687 | only a request still without a stream is aborted |
| ChatStore.ChatStore.SendMessage | frontend/stores/chat-store.ts:695-732 | an accepted send shows its workspace, bumps its activity, takes the store and lists the question; otherwise nothing changes |
| ChatStore.ChatStore.ThreadReplied | frontend/stores/chat-store.ts:745-760 | a superseded send is cancelled, an error response is read on, a rejection is caught |
| ChatStore.ChatStore.ThreadBodyRead | frontend/stores/chat-store.ts:761-840 | the thread is recorded, its messages are merged in if the list was empty or end the send if they cannot be read, the answer starts and its stream takes over from the abort controller |
| ChatStore.ChatStore.StreamEnded | frontend/stores/chat-store.ts:841-858 | a cancelled stream takes its answer away, a failed one is reported, a completed one returns what was launched |
| ChatStore.ChatStore.SendFailed | frontend/stores/chat-store.ts:859-883 | a failure of the current send is shown as a status line; a superseded or aborted one is silent |
| ChatStore.ChatStore.ReturnFromSend | frontend/stores/chat-store.ts:884-894 | the turn is given up only if the request id is still the send's own |
| ChatStore.ChatStore.OnItem | frontend/stores/chat-store.ts:603-629 | a callback acts exactly while its own test of currency holds, and notes a launched mission |
| ChatStore.ChatStore.RecoverActiveRun | frontend/stores/chat-store.ts:533-560 | a recovery takes a free lock and goes on only for the shown, idle workspace with a thread |
| ChatStore.ChatStore.RunsReplied | frontend/stores/chat-store.ts:560-564 | the reply to the run query: go on, give up, or catch |
| ChatStore.ChatStore.RunsRead | frontend/stores/chat-store.ts:564-635 | the latest active run takes the store under its derived id and its stream is joined; a failure to join is caught in the same segment |
| ChatStore.ChatStore.RecoveredStreamEnded | frontend/stores/chat-store.ts:635-652 | the end of the joined stream gives up the turn and refreshes the history, if still current |
| ChatStore.ChatStore.RecoveryFailed | frontend/stores/chat-store.ts:653-673 | the catch block removes the placeholder and the turn only if the request id is still its own, then refreshes |
| ChatStore.ChatStore.ReturnFromRecovery | frontend/stores/chat-store.ts:674-676 | the lock is released on every way out |
| ChatStore.ChatStore.PerformAll | frontend/stores/chat-store.ts:224-896 | any interleaving of the methods follows the run on values and keeps the invariant |
| ChatInvariants.StepKeepsInv | frontend/stores/chat-store.ts:237-895 | each of the 21 kinds of segment keeps the invariant: consistent record, owned request id, listed messages of a live turn, aborted losers |
| ChatTurns.EveryReachableStateIsConsistent | frontend/stores/chat-store.ts:208-285 | in every reachable state the visible list is the stored one, the request fields coincide, a live request's workspace is shown, and a stream or controller implies sending |
| ChatTurns.NothingIsSentWithoutATurn | frontend/stores/chat-store.ts:884-894 | once no send or recovery is pending, nothing is being sent |
| ChatTurns.CurrentTestsAgree | frontend/stores/chat-store.ts:711-718 | for a pending send the three-way test agrees with the id-only test of its `finally` |
| ChatTurns.LiveTurnIsListed | frontend/stores/chat-store.ts:720-786 | while a send is current its question and its started answer are in the list of its workspace |
| ChatTurns.LiveRecoveryIsListed | frontend/stores/chat-store.ts:582-594 | while a recovery of a run is current, a recovery in flight follows the run, its workspace is shown and the answer with the run's id is in its list |
| ChatTurns.SupersededSendWasAborted | frontend/stores/chat-store.ts:239-245 | a pending send that lost the store has had its transport aborted |
| ChatTurns.SupersededSendIsInert | frontend/stores/chat-store.ts:754-894 | after a send lost the store, no later segment or callback of it changes the record, over any further run, and it returns "cancelled" |
| ChatTurns.GoneSegmentIsInert | frontend/stores/chat-store.ts:754-862 | without the store a segment of a send can only end it as cancelled or wait on |
| ChatTurns.OneRecoveryPerWorkspace | frontend/stores/chat-store.ts:537-539 | without resets no two recoveries of one workspace are ever pending together |
| ChatTurns.ResetKeepsLockIffIdle | frontend/stores/chat-store.ts:435-438 | a reset keeps the lock meaningful exactly when no recovery is pending |
| ChatTurns.SupersededRecoveryIsInert | frontend/stores/chat-store.ts:596-645 | between resets a recovery that lost the store writes nothing while it is pending, by callback, end or return |
| ChatTurns.HistoryNeverOverwritesALaterTurn | frontend/stores/chat-store.ts:464-511 | between resets a history response never replaces a list in which a turn began after the request, even if it arrives after that turn |
| ChatTurns.OnlyTheLatestLoadHydrates | frontend/stores/chat-store.ts:465-479 | between resets a load changes nothing once a later load of its workspace was requested |
| ChatQuiet.LoadHydratesIffQuiet | frontend/stores/chat-store.ts:454-511 | over any reset-free run between the request and the answer of a load: nothing changes if it failed or another load of the workspace was requested; otherwise its messages are shown if and only if the load is forced or the workspace had nothing to show, no turn began there since and none runs there; else only the thread is recorded |
| ChatQuiet.UnforcedLoadKeepsEveryList | frontend/stores/chat-store.ts:462-491 | an unforced load of a workspace that has something to show changes no list, whatever runs in between, resets included, and whatever is answered |
| ChatQuiet.KnownThreadIsNotLoaded | frontend/stores/chat-store.ts:460-461 | a load does nothing if and only if it is not forced and the thread is known |
| ChatQuiet.ReadingIsShowing | frontend/stores/chat-store.ts:197-206 | in a consistent state the messages read of a workspace are those that switching to it would show |
| ChatQuiet.HydratedListIsShown | frontend/stores/chat-store.ts:493-510 | a hydrated list is stored, shown if its workspace is the active one or none is, and no other list changes |
| ChatTurns.LateHistoryKeepsTheQuestion | frontend/stores/chat-store.ts:464-511 | a concrete run: a history requested before a send and answered after it records the thread and leaves the question in the list |
| ChatFrames.OthersLeaveItAlone | frontend/stores/chat-store.ts:237-895 | an operation in flight, its stream and its result are changed only by its own segments and callbacks |
| ChatEffects.StepMoves | frontend/stores/chat-store.ts:237-895 | what any segment but a reset can change: operations keep their kind, epochs grow, locks pass only with their recoveries, request ids move only to new turns |
| ChatChannels.PlayKeepsChannels | frontend/stores/chat-store.ts:603-634 | in every reachable state a pending recovery that follows a run has the callback of exactly that run, and a send that of a send |
| ChatRefresh.PlayKeepsRefresh | frontend/stores/chat-store.ts:518-531 | until it is forgotten or everything is reset, no interleaving replaces a pending refresh |
| ChatRefresh.RefreshesShareOneLoad | frontend/stores/chat-store.ts:518-531 | whatever happens while a refresh is pending, another one joins its load and starts nothing |
| ChatActions.RefreshLastsUntilItSettles | frontend/stores/chat-store.ts:518-531 | over whole runs: a refresh is joined until it settles, and the next one then starts a forced load of its own |
| ChatConversation.SendAsksIffItCan | frontend/stores/chat-store.ts:689-732 | a send is accepted exactly when nothing is sent and there is a character that is not blank or an attachment; its question then follows what its workspace shows |
| ChatConversation.AnswerFollowsTheHistory | frontend/stores/chat-store.ts:764-786 | when the answer starts the list is the messages of the thread that are not shown, each once and in order, if nothing was shown before the question; then all that was shown; then the empty answer |
| ChatConversation.CompletedSendLeavesQuestionAndAnswer | frontend/stores/chat-store.ts:689-894 | a send that keeps the store to its end, whatever runs in between, leaves history, question and exactly what its own stream delivered, frees the store, and returns the last mission its stream announced or that it completed |
| ChatRecovery.RecoveryStartsIffItCan | frontend/stores/chat-store.ts:533-560 | a recovery goes on exactly if none is under way in its workspace, which is shown and idle, and there is a thread: the given one, even if blank, else the known one |
| ChatRecovery.RecoveryJoinsTheLatestRun | frontend/stores/chat-store.ts:564-634 | the active run that changed last, the first of several, is joined with an empty answer of its id, if the workspace is still shown and idle; otherwise nothing is returned and the record stays |
| ChatRecovery.EndedStreamRefreshes | frontend/stores/chat-store.ts:635-652 | the end of a followed stream gives up the turn, leaves every list, and waits for the pending refresh or a forced load of its own |
| ChatRecovery.RejectedStreamDropsTheRun | frontend/stores/chat-store.ts:653-673 | a rejected stream takes exactly the answers of its run out of the list and waits for a refresh |
| ChatRecovery.RecoveryReturnsWhatItsStreamSaid | frontend/stores/chat-store.ts:533-677 | from its start over any reset-free run to the end of its stream and any run after that, a recovery returns the last mission its own stream announced, completion, failure or cancellation, once its refresh was answered |
| ChatActions.StopAbortsOnlyBeforeTheStream | frontend/stores/chat-store.ts:679-687 | in every reachable state stopping aborts the send that owns the store if its stream is not open yet, and changes nothing else |
| ChatActions.FirstWorkspaceTakesOver | frontend/stores/chat-store.ts:258-268 | the first workspace that is shown takes over what was written before, unless it has a list of its own |
| ChatActions.SwitchingAbortsTheTurn | frontend/stores/chat-store.ts:237-286 | only a real switch aborts transports, exactly those of the record; showing the shown workspace changes no list |
| ChatActions.MessageLandsInItsWorkspace | frontend/stores/chat-store.ts:296-326 | an event for a workspace shows it, and its message ends the list of that workspace and no other |
| ChatActions.LooseBlockGoesToTheLastAnswer | frontend/stores/chat-store.ts:115-127 | a block that belongs to no answer goes to the last assistant message, and no other message changes |
| ChatActions.CaptionIsTheTrimmedMessage | frontend/stores/chat-store.ts:868-872 | an error is shown by its trimmed message if that has a visible character, and by a fixed sentence otherwise |
| ChatActions.AbortIsSilent | frontend/stores/chat-store.ts:859-894 | an aborted send changes no list, returns "cancelled" and frees the store, wherever it was waiting |
| ChatActions.UnopenedAnswerHoldsTheError | frontend/stores/chat-store.ts:781-883 | an answer whose stream cannot be opened holds just the error, after all that was shown |
| ChatEndings.EndingSendFreesTheStore | frontend/stores/chat-store.ts:734-894 | however the send that holds the store returns, it gives back the request fields, the stream and the controller |
| ChatEndings.FailureFollowsTheAnswer | frontend/stores/chat-store.ts:854-883 | a failed stream leaves its answer followed by the error line, changes no other message, and returns the caption |
| ChatEndings.EarlyFailureIsAppended | frontend/stores/chat-store.ts:745-786 | however a send fails before its answer started (request, error text, body, thread id, message list), one new answer holding just the error line is appended |
| ChatEndings.CancelledStreamLeavesNoAnswer | frontend/stores/chat-store.ts:842-853 | a cancelled stream takes exactly its answer out of the list |
| ChatEndings.CancelledAnswerLeavesAGap | frontend/stores/chat-store.ts:842-853 | what was before that answer and what came after it stay in their order |
| ChatEndings.FailedJoinDropsTheRun | frontend/stores/chat-store.ts:582-673 | a run whose stream cannot be joined loses every answer of its id and leaves the store free; the list is as it was if and only if it held none |
| ChatEndings.SwitchingBackShowsTheList | frontend/stores/chat-store.ts:237-286 | switching away and back shows the same list without an empty answer, touches no other list and gives up the turn |
| ChatEndings.PlaceholderIsTheOnlyLoss | frontend/stores/chat-store.ts:250-256 | the only message a switch can drop is the current answer without blocks |
| ChatStreaming.StreamingFolds | frontend/stores/chat-store.ts:339-375 | streamed blocks fold into the answer only: no other message changes |
| ChatStreaming.DeltasLeaveOneText | frontend/stores/chat-store.ts:352-365 | text deltas into a fresh answer leave one text block, their concatenation |
| ChatStreaming.FinalBlocksReplaceTheStream | frontend/stores/chat-store.ts:378-416 | final blocks replace whatever was streamed if none had reached the id before, and are appended to it otherwise; they go to the first message of the id |
| ChatAnswers.LiveAnswerIsWhatWasDelivered | frontend/stores/chat-store.ts:764-834 | in every run, the answer of a send that still owns the store is the fold of exactly the items its own stream delivered, after the list it was added to, whatever loads, sends, recoveries and foreign callbacks came in between |
| ChatAnswers.TextThenBlocks | frontend/stores/chat-store.ts:339-419 | that fold, for text followed by final blocks, is the blocks, or the whole text if there are none |
| ChatRejoin.RecoveryCallbackActsExactlyOnItsRun | frontend/stores/chat-store.ts:596-610 | a recovery's callback acts if and only if some recovery of its run owns the store |
| ChatRejoin.LateCallbacksAct | frontend/stores/chat-store.ts:582-602 | in any world, joining a run again lets the callbacks of a returned recovery of it write |
| ChatRejoin.ReturnedRecoveryWritesAgain | frontend/stores/chat-store.ts:582-629 | a run from the start, for every run, thread and pair of blocks: after a broken recovery and a second one, a late callback of the first acts like one of the second, and its block is appended to the run's first answer |
| Pricing.FloorShareIsQuotient | backend/src/billing/policies.py:415-442 | the floored proportional share is the integer quotient |
| PricingTheorems.SliceIsExact | backend/src/billing/policies.py:415-442 | for well-formed usage without overhead a slice of up to all tokens has exactly the billable ones, every part is its floored share, no part grows, and at most one token is redistributed, to the output |
| PricingTheorems.OverheadGoesToTheOutput | backend/src/billing/policies.py:424-441 | with overhead, input, cached and reasoning tokens are their floored shares, and the output gets all the rest |
| PricingTheorems.FullBillIsUnsliced | backend/src/billing/policies.py:420-423 | billing at least all tokens is charged as billing without a slice, in every field |
| PricingTheorems.SliceAllotsEverything | backend/src/billing/policies.py:415-442 | whatever overhead the total has, a slice of well-formed usage gives exactly the billable tokens to input and output and stays well-formed |
| PricingTheorems.RawCostIsWeighted | backend/src/billing/policies.py:452-470 | the raw cost weighs the same four parts, by the million |
| PricingTheorems.ChargeIsTheLeastCover | backend/src/billing/policies.py:202-226 | in the numbers of the policy and its defaults, the credits charged are the least number covering the surface minimum, the price of the weighted tokens and the guarded cost; nothing billable and a disabled policy cost nothing |
| PricingTheorems.ChargeShowsItsBounds | backend/src/billing/policies.py:186-226 | the other fields of a charge, from the same numbers: what was billed, and the three bounds, each the least credits above its cost |
| PricingTheorems.ChargeAtMostWorst | backend/src/billing/policies.py:174-227 | any usage is charged at most the closed form for as many tokens at the dearest rates |
| PricingTheorems.CeilingIsWorst | backend/src/billing/policies.py:284-325 | the maximum over the four scenarios equals that closed form |
| PricingTheorems.CeilingCoversEveryUsage | backend/src/billing/policies.py:275-325 | no usage spending at most the limit is charged more than the ceiling, whatever its cached and reasoning counts |
| PricingTheorems.CeilingIsAttained | backend/src/billing/policies.py:275-325 | some well-formed usage of exactly the limit is charged the ceiling |
| PricingTheorems.CeilingIsMonotone | backend/src/billing/policies.py:284-325 | the ceiling never falls as the limit grows, and is never negative |
| PricingTheorems.HoldNeverFalls | backend/src/billing/policies.py:245-272 | with more history or reserved free tokens the credit hold never falls and the free hold never rises |
| PricingTheorems.QuoteIsTheDearestTurn | backend/src/billing/policies.py:230-272 | free and billable tokens make up the envelope, the free ones being what is left of the allowance; the ceiling is what some usage of just the billable ones costs, zero if there are none; the hold is capped at the limit |
| PricingTheorems.AuthorizationCoversSettlement | backend/src/billing/policies.py:118-272 | slicing off the free tokens and charging the rest never exceeds the quoted ceiling, under the stated conditions |
| PricingTheorems.HeldSettlementIsCovered | backend/src/dataservice/domains/thread_turn_billing/service.py:255-259 | billing what the turn's own free hold leaves also stays under the ceiling, and under the credit hold if the limit does not cap it |
| PricingTheorems.FreeTokensAreConserved | backend/src/billing/policies.py:118-150 | over any run of events the free tokens granted are the smaller of the tokens used and what was left of the allowance |
| PricingTheorems.SplittingChangesNothing | backend/src/billing/policies.py:118-150 | however the same tokens are split into events, the same number is free |
| PricingTheorems.QuotesNeverOverpromise | backend/src/billing/policies.py:239-253 | successive quotes that add up their holds promise one envelope each until the remaining allowance is spent, never more |
| Png.NormalizePng | backend/src/academic_visual_runtime/image_provider.py:155-208 | the whole method, with every error it raises, is the function the theorems are about |
| Png.ReadCritical | backend/src/academic_visual_runtime/image_provider.py:159-190 | the scanning loop collects the critical chunks, the image data and the last header of exactly the scanned chunk list, or fails as the scan does |
| Png.ReadChunkAt | backend/src/academic_visual_runtime/image_provider.py:166-174 | one chunk is read with its length bound and checksum checked |
| Png.EncodeChunks | backend/src/academic_visual_runtime/image_provider.py:202-207 | the printing loop prints the encoding of the kept chunks |
| PngRoundTrip.NormalizeUndoesEncoding | backend/src/academic_visual_runtime/image_provider.py:155-208 | normalising the encoding of an acceptable chunk list gives the encoding of just its critical chunks, in order, with its dimensions |
| PngRoundTrip.AcceptsExactlyEncodings | backend/src/academic_visual_runtime/image_provider.py:155-201 | a file is accepted if and only if it is the encoding of an acceptable chunk list |
| PngRoundTrip.EncodingIsInjective | backend/src/academic_visual_runtime/image_provider.py:202-207 | only one chunk list encodes to a given acceptable file |
| PngRoundTrip.OutputIsAFixedPoint | backend/src/academic_visual_runtime/image_provider.py:155-208 | every output is accepted unchanged, with the header and the image data of the input; every chunk moved the scan on by at least 12 bytes |
| PngRoundTrip.ScanIsEncoded | backend/src/academic_visual_runtime/image_provider.py:165-190 | the bytes that were scanned are exactly the encoding of the chunks found |
| PngFiles.PictureIsDecided | backend/src/academic_visual_runtime/image_provider.py:155-208 | a file of a header, data chunks and an end, byte by byte: accepted unchanged with the width and height its header spells out, most significant byte first, if and only if the format is supported and the data inflates to one filter byte and the samples of each row; otherwise which error is reported |
| PngFiles.OtherChunksAreDropped | backend/src/academic_visual_runtime/image_provider.py:176-190 | a chunk of any other kind put anywhere into an accepted file changes nothing about the outcome |
| PngFiles.DamageIsReported | backend/src/academic_visual_runtime/image_provider.py:165-192 | after chunks that may start a file, the first truncated, oversized or corrupted chunk, misplaced header or trailing byte is what is reported |
| PngFiles.NotPngIsTheSignature | backend/src/academic_visual_runtime/image_provider.py:155-158 | only a file that is too short or starts with other bytes is reported as no PNG |
| EventOrdering.ReplacesByKey | frontend/lib/workspace-event-ordering.ts:53-76 | an item replaces another exactly when it is not behind it in time, then status rank, then progress (for threads, time then message count) |
| EventOrdering.SortDesc | frontend/lib/workspace-event-ordering.ts:78-88 | sorting loses and invents nothing |
| EventOrdering.SortedNewestFirst | frontend/lib/workspace-event-ordering.ts:78-88 | sorting puts the newest first, whatever ties there are |
| EventListTheorems.UpsertKeepsNewest | frontend/lib/workspace-event-ordering.ts:90-103 | one event keeps a truncated list the top of the full map |
| EventListTheorems.TruncatedListIsTopOfMap | frontend/lib/workspace-event-ordering.ts:90-103 | folding any stream through the list with a fixed limit gives the newest entries of the map keeping each id's greatest item: unique ids, newest first, nothing newer left out |
| EventListTheorems.LatestIsOneOfEach | frontend/lib/workspace-event-ordering.ts:53-76 | that map has every id, at an item no other item of the id is ahead of |
| EventListTheorems.NewestIsUnique | frontend/lib/workspace-event-ordering.ts:78-103 | only one list has those properties |
| EventListTheorems.DeliveryDoesNotMatter | frontend/lib/workspace-event-ordering.ts:90-103 | the same events in any order and number give the same list |
| EventListTheorems.ThreadListIsWholeMap | frontend/lib/workspace-event-ordering.ts:105-151 | the untruncated thread list holds every thread once, at its greatest summary, newest first |
| EventListTheorems.StagesOnlyAdvance | frontend/lib/workspace-event-ordering.ts:11-76 | at equal times an activity is replaced exactly by a later status (pending, under way, finished) or, at the same stage, by progress that is not behind; a finished one never goes back; at different times the later one wins, and undated ones lose |
| EventListTheorems.FinishedStays | frontend/lib/workspace-event-ordering.ts:90-103 | an unfinished event of the same time leaves a list that has the activity as finished exactly as it is, even one beyond the limit |
| EventListTheorems.ThreadsOnlyGrow | frontend/lib/workspace-event-ordering.ts:105-129 | at equal times a thread summary is replaced exactly by one with at least as many messages, none counting as zero |
| EventListTheorems.ArrivalGoesBeforeItsEquals | frontend/lib/workspace-event-ordering.ts:90-103 | an arrival is placed before everything not newer than it, what was there under its id is gone, and everything else keeps its order, whatever ties there are |
| OwnerInvariant.Database.Upgrade | backend/alembic/versions/075_enforce_workspace_owner_membership.py:27-46 | the precheck goes on if and only if every workspace has an active owner |
| OwnerInvariant.Database.ExecuteOne | backend/alembic/versions/075_enforce_workspace_owner_membership.py:94-135 | a statement changes its row and queues the checks of the row trigger: of the old and the new workspace for a membership |
| OwnerInvariant.Database.RunChecks | backend/alembic/versions/075_enforce_workspace_owner_membership.py:59-87 | the deferred checks pass if and only if each queued workspace is absent or owned |
| OwnerInvariant.Database.Transaction | backend/alembic/versions/075_enforce_workspace_owner_membership.py:116-135 | all statements and their checks, or the tables exactly as they were; from an owned state it commits exactly if it leaves every workspace owned |
| OwnerInvariant.CommitsIffTouchedAreOwned | backend/alembic/versions/075_enforce_workspace_owner_membership.py:59-135 | from any tables, a transaction commits exactly when every workspace that one of its statements touches is gone in the end or has a member that is owner and active; otherwise nothing changes |
| OwnerInvariant.OnlyNamedRowsChange | backend/alembic/versions/075_enforce_workspace_owner_membership.py:94-113 | a statement leaves every row but the one it names and the one it makes of it |
| OwnerInvariant.OneFailureFailsAll | backend/alembic/versions/075_enforce_workspace_owner_membership.py:94-135 | statements run in order, and one that fails fails all of them |
| OwnerInvariant.StatementsQueueOrphans | backend/alembic/versions/075_enforce_workspace_owner_membership.py:94-113 | whatever the statements, every workspace they leave without an owner is among those to be checked |
| OwnerInvariant.ChecksDecideTheInvariant | backend/alembic/versions/075_enforce_workspace_owner_membership.py:59-135 | the checks on touched rows pass if and only if the global invariant holds at commit |
| OwnerInvariant.EveryRunKeepsOwners | backend/alembic/versions/075_enforce_workspace_owner_membership.py:27-137 | after any run of transactions every existing workspace has an active owner |
| ReviewCutover.Migration.BackfillKeys | backend/alembic/versions/100_review_output_key_cutover.py:21-30 | going through the rows gives each its first non-empty key; a key that does not fit undoes the statement |
| ReviewCutover.Migration.RankFromNewest | backend/alembic/versions/100_review_output_key_cutover.py:45-48 | counting over the table gives one more than the number of newer open rows of the output |
| ReviewCutover.Migration.FindOldest | backend/alembic/versions/100_review_output_key_cutover.py:41-44 | the scan finds the row whose title `first_value` picks |
| ReviewCutover.Migration.SetCanonicalTitles | backend/alembic/versions/100_review_output_key_cutover.py:37-59 | the row-by-row update, over windows of the rows as they were, retitles exactly the newest open row of each output |
| ReviewCutover.Migration.SupersedeOlder | backend/alembic/versions/100_review_output_key_cutover.py:60-84 | the row-by-row update supersedes exactly the open rows that are not the newest of their output |
| ReviewCutover.Migration.Recount | backend/alembic/versions/100_review_output_key_cutover.py:85-99 | going through the missions gives each the count of its pending rows and adds or drops none |
| ReviewCutover.Migration.Upgrade | backend/alembic/versions/100_review_output_key_cutover.py:19-99 | the four statements in order, or nothing at all when a key does not fit |
| ReviewCutover.OldestRow | backend/alembic/versions/100_review_output_key_cutover.py:41-44 | `first_value` picks an open row of the same output that none of the others is older than |
| ReviewCutoverTheorems.CutoverKeepsRows | backend/alembic/versions/100_review_output_key_cutover.py:21-84 | no row is lost or changes identity, and committed rows only gain their key |
| ReviewCutoverTheorems.RowsFollowTheirColumns | backend/alembic/versions/100_review_output_key_cutover.py:21-84 | what becomes of every row, told from the columns it started with: its key is the first non-empty of preview key, preview kind and target; a later uncommitted row for the same output supersedes it; otherwise it stays under the title of its oldest rival |
| ReviewCutoverTheorems.DifferentKeysBothStay | backend/alembic/versions/100_review_output_key_cutover.py:24-28 | a row whose preview key no other open row of its mission has only gains that key |
| ReviewCutoverTheorems.OneTitlePerOutput | backend/alembic/versions/100_review_output_key_cutover.py:41-44 | all open rows of one output have the same canonical title |
| ReviewCutoverTheorems.LiveRowIsNewest | backend/alembic/versions/100_review_output_key_cutover.py:37-84 | the newest open row of an output stays open under the oldest open title; every other open row is superseded |
| ReviewCutoverTheorems.OneLiveRowPerOutput | backend/alembic/versions/100_review_output_key_cutover.py:60-84 | each output of a mission has at most one row that is neither committed nor superseded |
| ReviewCutoverTheorems.CountsArePendingRows | backend/alembic/versions/100_review_output_key_cutover.py:85-99 | each mission's count is the number of its pending rows |
| ReviewCutoverTheorems.RerunChangesNothing | backend/alembic/versions/100_review_output_key_cutover.py:37-99 | running the title, supersede and recount statements again changes no status, title or count |
| ArtifactVersions.Artifacts.Upgrade | backend/alembic/versions/006_add_artifact_version_unique_constraint.py:23-65 | the update renumbers the rows so that the constraint can be added |
| ArtifactVersions.RenumberingRemovesClashes | backend/alembic/versions/006_add_artifact_version_unique_constraint.py:23-64 | afterwards titled artifacts are unique on workspace, type, title and version |
| ArtifactVersions.EveryVersionKeepsOne | backend/alembic/versions/006_add_artifact_version_unique_constraint.py:34-37 | of each old version the earliest artifact keeps its number |
| ArtifactVersions.RenumberingChangesLittle | backend/alembic/versions/006_add_artifact_version_unique_constraint.py:38-56 | only versions change, they never decrease, changed ones exceed the old maximum, untitled rows are untouched |
| ArtifactVersions.RenumberingKeepsOrder | backend/alembic/versions/006_add_artifact_version_unique_constraint.py:47-50 | of the rows of a title that get a new number, a later one gets a higher one |
| ArtifactVersions.OnlyDuplicatesMove | backend/alembic/versions/006_add_artifact_version_unique_constraint.py:23-56 | only rows with an older row of the same workspace, type, title and version change, and only in their version |
| ArtifactVersions.NewNumbersAreConsecutive | backend/alembic/versions/006_add_artifact_version_unique_constraint.py:38-56 | the n duplicates of a title get the n numbers after its highest version, one each, ordered by version, creation and id |
| Dotenv.EnvFile.ParseDotenv | scripts/setup_wizard.py:73-90 | the reading loop builds the map in which the last assignment of a key counts |
| Dotenv.EnvFile.WriteDotenvUpdates | scripts/setup_wizard.py:93-120 | the rewriting loop replaces the first line of each updated key, keeps every other line, and appends what found no line |
| Dotenv.AppendUnplaced | scripts/setup_wizard.py:112-118 | leftover updates follow a separating blank line, if one is needed, and a comment, in the order of their keys |
| Dotenv.Sorted | scripts/setup_wizard.py:117 | the keys of a map, each once, in strictly increasing order |
| DotenvLines.KeyReadsBackIffWritable | scripts/setup_wizard.py:78-90 | exactly which keys a written line gives back to the reader |
| DotenvLines.PlainValuesMeanThemselves | scripts/setup_wizard.py:86-88 | a value reads back as it was written if and only if it is trimmed and not wrapped in matching quotes |
| DotenvLines.IdentifiersAreWritable | scripts/setup_wizard.py:84-85 | identifier keys are among the keys that read back |
| DotenvLines.SplittingLosesOnlyBoundaries | scripts/setup_wizard.py:77-94 | a text is its lines with a line end after each, at most the last one excepted |
| DotenvLines.SplitJoined | scripts/setup_wizard.py:94 | writing lines and splitting the text gives the lines back |
| DotenvLines.TrimmingJoins | scripts/setup_wizard.py:120 | stripping the end of the text drops blank lines at the end and blanks after the last one, nothing else |
| DotenvRoundTrip.SameKey | scripts/setup_wizard.py:80-106 | reader and writer see the same key on a line unless the key looks like a comment |
| DotenvRoundTrip.RewritingReads | scripts/setup_wizard.py:98-110 | the rewritten lines read as before, overridden by the updates of keys that stood on one line |
| DotenvRoundTrip.ReadAfterWrite | scripts/setup_wizard.py:73-120 | reading a rewritten file gives the old map overridden by every update whose key was assigned on at most one line |
| DotenvRoundTrip.PlainUpdatesReadBack | scripts/setup_wizard.py:73-120 | with plain values and no repeated keys, reading gives the old map overridden by the updates |
| DotenvRoundTrip.UpdateIsSeenIff | scripts/setup_wizard.py:73-120 | an update is what the next read finds if and only if its key stood on at most one line or already read as that value |
| DotenvRoundTrip.RepeatedKeyKeepsItsLastValue | scripts/setup_wizard.py:98-108 | on the file with two given lines for a key the reader goes on finding the second line's value |
| DotenvRoundTrip.UpdateOfARepeatedKeyIsLost | scripts/setup_wizard.py:98-108 | the concrete file: setting A to 3 in A=1, A=2 leaves it reading 2 |
| DotenvFiles.QuotesAreTakenOff | scripts/setup_wizard.py:86-88 | a value between two single or two double quotes reads as exactly what is between them |
| DotenvFiles.OtherValuesAreTrimmed | scripts/setup_wizard.py:86-88 | any other value reads without the blanks around it, unmatched quotes included |
| DotenvFiles.ExportIsIgnored | scripts/setup_wizard.py:82-83 | a line that starts with "export" assigns what it assigns without that word |
| DotenvFiles.LineEndsAreBlank | scripts/setup_wizard.py:77-88 | the ten characters that end a line are among the 29 that stripping removes |
| DotenvFiles.NewKeyFollowsAComment | scripts/setup_wizard.py:112-120 | the text of a file after a new key was written: what was there, a blank line unless there is one, the comment, and the key |
| DotenvRoundTrip.WritingAgainChangesNothing | scripts/setup_wizard.py:93-120 | writing the same updates a second time leaves the file as it is, repeated keys or not |
| SseLoop.PostStream | scripts/run_pressure.py:159-223 | the line loop reports what listening to the text says |
| SseLoop.FirstLine | scripts/run_pressure.py:170-172 | a line is what is left up to and including its first newline, or all of it, and is empty only at the end |
| SseTheorems.LoopAgreesWithEvents | scripts/run_pressure.py:159-223 | for named events written as frames with comments and blank lines between them, and cut off anywhere after the last, the loop counts the events through the first "end" and the errors among them, has ended iff there is an "end", and reports the first event that is no heartbeat and the outcome the last event that says anything says: an error, the end, else its status, else its type |
| SseTheorems.FrameSteps | scripts/run_pressure.py:175-216 | the lines of one frame, with either line ending, tell exactly its event |
| SseTheorems.UnfinishedSteps | scripts/run_pressure.py:211-216 | lines of an event that breaks off before its blank line change nothing that is reported |
| Percentile.InputOrderDoesNotMatter | scripts/run_pressure.py:377-391 | a percentile depends only on which samples there are, not on their order |
| Percentile.PercentileIsMonotone | scripts/run_pressure.py:384-391 | a higher percentile is never a lower value, within and across segments |
| Percentile.InterpolatesLinearly | scripts/run_pressure.py:384-391 | of n samples the fraction k / (n - 1) gives the k-th in order, and between two such fractions the percentile is the straight line from one sample to the next |
| Percentile.EndsAreMinimumAndMaximum | scripts/run_pressure.py:377-391 | the percentile 0 is the minimum of the samples and the percentile 1 their maximum |
| Percentile.PercentileStaysInRange | scripts/run_pressure.py:377-391 | every percentile lies between minimum and maximum |

## Left out

Chat store:

- Requests, streams and authentication are arbitrary replies: each await may resolve with any value, in any order, or never. Callbacks of a stream come after the segment that opened it.
- The checks right after a stream was opened (lines 630-633 and 835-838) cannot fail, because nothing is awaited before them; they have no branch in the model.
- Workspace ids are trimmed, non-empty and different from the reserved key; message ids are non-empty; request ids of sends are fresh; every run belongs to one workspace. Recovery message ids may repeat, so no uniqueness of message ids is claimed.
- Normalising blocks, timestamps, metadata, attachments and model options of a message; the order of runs is by an integer stamp instead of a string.
- `stopSending` on a running stream asks the server to stop and changes nothing here.
- The values returned by `loadHistory` and `refreshHistory` to their callers; what sends and recoveries return is modelled.

Pricing:

- Floating point: weights, costs and ratios are exact reals, and the rounding of reported amounts is not modelled.
- Aliases of policy keys and coercion of strings to numbers; a policy is its looked-up values, each present or missing.
- `calculate_mission_estimate`, and billing outside the one settlement expression that is cited.

PNG:

- CRC-32 and inflate are arbitrary functions, so nothing is claimed about pixels, colour or transparency.

Event list:

- Timestamps are parsable: the comparator for mixed or unparsable ones compares strings and orders nothing reliably. The limit is a natural number.
- The sort is a stable insertion, which is what the language prescribes of the result.

SQL:

- Transactions are serial. TRUNCATE, savepoints, `SET CONSTRAINTS`, disabled triggers, indexes, and the downgrades are not part of the model.
- A statement of several rows is a list of statements of one row each.
- Ids are compared by code point.

Scripts:

- Encodings and the translation of line endings by the file system: a file is its decoded text.
- The dotenv theorems take keys that read back (which includes all identifiers) and values on one line; a value with a line boundary becomes several lines.
- JSON parsing is an arbitrary function to the two fields the loop looks at. The clock reading at the first event is the number of that event. Events have a name; a data line's blanks at its ends are stripped, as the loop does.
- Percentiles are exact reals, for fractions between 0 and 1; the percentile of nothing is `None`.
- The round-robin distribution of runs over workers in `main`: it would only add an easy member.
