# Sealwire client protocols: a model and its proofs

Sealwire's browser surfaces talk to a relay whose answers come late, twice, out of order or
not at all. This project models the client code that keeps its state right anyway, and proves
that it does, or says exactly when it does not. Asynchronous functions are cut at their awaits:
what a call keeps across an await is a value in the state, and every theorem about a run
quantifies over all orders of events.

`dafny verify dfyconfig.toml` checks the whole project.

## How it is built

Each protocol has a state and a step function (the specification), lemmas about its steps and
runs, and a class whose methods change fields in place as the source does and are proved equal
to the steps.

- Transcript pins. `TranscriptRows` is the numbered window and its in-place merges, `PinMerge`
  the two merges of a page into a pin, `PinSlices` and `PinHoles` what they do to slices of one
  transcript. `ViewOnlyOps` is the pin's whole life: loads, the bounded bridge, older pages,
  deltas, notices, navigation, the cache, the thread the live session hands over. `ViewOnlyNoHole`, `ViewOnlyRuns`, `ViewOnlyCursors`,
  `ViewOnlyLoads` and `ViewOnlyGaps` are its theorems and `ViewOnlyRefresh` its object.
  `OrchestratorLoad` is the Orchestrator pane's own begin and finally around the same merges, and
  `OrchestratorRows` what they do to its rows.
- Relay channel. `ReplayWindow` holds the nonce parser and the 512-wide window, `RelayChannel`
  hello, proof and content, `Backoff` the reconnect delays over the reals.
- Remote actions. `RemoteActions`, `RemoteActionRuns`, `ChunkReassembly`, `RemoteActionsClient`.
- Stores. `WorkspaceDiff`, `WorkspaceDiffRuns`, `WorkspaceDiffStore`; `ComposerWorkspaces` and
  `Composer`.
- Smaller protocols. `EventStream` and `EventStreamSplits`; `WatchedThreads`, with the relay's side
  of a declaration; `Pairing`.

A relay transcript is one sequence of rows, each named once; `order_seq` is on every row,
increasing, or on none, and so is `entry_seq`. The relay only appends, so every page it serves is
a slice of that sequence, with the cursor of its own start. `NoHole` assumes just that, plus
non-empty pages, tails that end after the pin's first row, older pages that end at the cursor
they were asked for, new-row deltas that bring the next row, and sessions that show a stretch of
their active thread.

## What the proofs found

- A numbered older page does not carry a tombstone across, though the comment at
  view-only-thread.js:384-385 says it rides (`OlderMergesAgreeOnRows`, `TombstoneDroppedByNumber`).
- An empty tail page wipes paged-in history, though mergeRefreshedViewOnlyPage keeps the pin for
  empty pages (`EmptyTailKeepsRowsExactlyWhen`): the caller has already dropped those rows.
- A bridge answer that lands while the thread is active, off screen, or there is no session,
  leaves the pin loading with no load behind it (`OwnershipLostExactlyWhen`,
  `StrandedPinHealsExactlyWhen`). It cannot happen while every snapshot is rendered as it is
  written (`ViewedLoadIsOutstanding`); it can when a session fetch fails while a bridge page is
  out, which sets the session to null (frontend/local/session/lifecycle.js:216).
- Three events leave a pin with rows past the transcript's start and no cursor: its cursor is
  rejected; a live row reaches it before any page; its thread stops being the active one while the
  session shows only the end of it. If the load then fails the pin claims to have no older history
  (`CursorsJoinExactlyWhen`, `RejectedCursorThenFailure`, `ColdRowThenFailure`,
  `HandoverThenFailure`).
- The Orchestrator pane merges a page into the rows it held when the load began, so rows the
  stream brought meanwhile are lost unless the page has them, and no gap is noted
  (`StreamedRowSurvivesExactlyWhen`, `LandingForgetsDeltasDuringTheFetch`).
- A pin takes no turn among resolves and measurements, so its answer can replace a newer root list
  (`RootListGoesBackExactlyWhen`, `OlderPinReplacesNewerList`).
- A watch-set post answered after the page reconnected is remembered though the relay has dropped
  or refused it, and is not declared again (`IdleIsWrongExactlyAcrossReconnects`,
  `StoredThenDropped`, `RefusedAsStale`).
- A carriage return and its line feed cut apart become two line endings
  (`ReadsSeeTheText`, `SplitReturnSplitsTheEvent`, `SplitsAreHarmlessExactlyWhen`).
- An answer that is the JSON null leaves its caller waiting (`AnswerSettlesExactlyWhen`).
- A resend after its action settled mints a new operation (`LateResendMintsAnotherOperation`).
- A watch set reverted while another post is out waits for a further call (`NewestWinsOnOneStream`).
- A failed read takes a refused mutation's message off the panel (`RefusalRetiredExactlyWhen`).

## Model

| member | source | states |
|---|---|---|
| TranscriptRows.PinRowsAreKeyedInOrder | frontend/local/view-only-thread.js:60-72 | the loop answers true exactly for rows that all have a key and a number, in number order |
| TranscriptRows.WindowDraft.constructor | frontend/local/view-only-thread.js:38-50 | the draft holds the first copy of each key, in order, and drops keyless rows |
| TranscriptRows.WindowDraft.UpsertRow | frontend/shared/transcript-window-reducer.js:96-132 | a held key updates in place, keeping its tombstone and number; a new row goes to its numbered slot |
| TranscriptRows.WindowDraft.WindowInsertionIndex | frontend/shared/transcript-window-reducer.js:313-338 | the walk from the tail stops where the specification places the row |
| TranscriptRows.WindowDraft.MergeKeyedRowsLinearly | frontend/shared/transcript-window-reducer.js:197-248 | the one-pass merge of a sorted page leaves the window that inserting its rows one by one would leave |
| TranscriptRows.WindowDraft.MergeWindowRows | frontend/shared/transcript-window-reducer.js:134-167 | the page is merged row by row, sorted first when it is not already |
| TranscriptRows.MergeRowsKeepsWindow | frontend/shared/transcript-window-reducer.js:134-246 | a merge into a keyed, distinct, ascending window leaves one, holding exactly the keys of both |
| TranscriptRows.SortRowsSorts | frontend/shared/transcript-window-reducer.js:184-212 | sorting a page by number puts it in ascending order |
| TranscriptRows.SortRowsKeepsRows | frontend/shared/transcript-window-reducer.js:184-212 | sorting a page keeps its rows as a multiset |
| PinMerge.AbsorbWithdrawn | frontend/shared/withdrawn-transcript.js:47-67 | absorbing tombstones changes only the withdrawn flag, and sets it exactly for keys some dropped row reports withdrawn |
| PinMerge.MergeOlderPage | frontend/local/view-only-thread.js:378-414 | both older-page algorithms, chosen by the same test, compute what the specification says |
| PinMerge.MergeRefreshedPage | frontend/local/view-only-thread.js:424-529 | the numbered refresh and its guards compute what the specification says |
| PinMerge.RefreshOverlapping | frontend/local/view-only-thread.js:473-529 | the refresh by shared ids, then by entry_seq, then by giving up, computes what the specification says |
| PinMerge.FindOverlap | frontend/local/view-only-thread.js:476-487 | the loop finds the first and the last pin row the page also names |
| PinSlices.MergeRowsIsOverlay | frontend/shared/transcript-window-reducer.js:134-248 | merging a slice of a numbered transcript into another that it touches lays the page over the pin at its place |
| PinSlices.RefreshByNumberIs | frontend/local/view-only-thread.js:456-471 | on slices of one numbered transcript the numbered refresh is the page, blended, between what the pin holds before and after it |
| PinSlices.RefreshByOverlapIs | frontend/local/view-only-thread.js:473-528 | with a shared row or entry_seq, the overlap refresh is that same window |
| PinSlices.RefreshByOverlapGivesUp | frontend/local/view-only-thread.js:494-510 | with neither, the overlap refresh keeps the page alone |
| PinSlices.RefreshMergesAgree | frontend/local/view-only-thread.js:456-528 | the two refresh algorithms give the same rows, cursor and flag exactly when the page shares a row with the pin, or entry_seq orders them, or the pin precedes the page and holds no history open |
| PinSlices.OlderMergesAgree | frontend/local/view-only-thread.js:386-412 | the two older-page algorithms give the same keys exactly when the page ends no later than the pin |
| PinSlices.OlderMergesAgreeOnRows | frontend/local/view-only-thread.js:384-412 | for such pages they give the same rows exactly when the page brings no tombstone the pin lacks |
| PinSlices.TombstoneDroppedByNumber | frontend/local/view-only-thread.js:384-412 | the numbered branch drops a tombstone that its comment says rides across |
| PinHoles.RefreshKeepsSlice | frontend/local/view-only-thread.js:424-529 | a refresh that touches the pin leaves a contiguous slice whose cursor lies inside it |
| PinHoles.OlderKeepsSlice | frontend/local/view-only-thread.js:378-414 | an older page ending at the cursor leaves a longer contiguous slice with the page's cursor |
| ViewOnlyNoHole.BeginLoadKeepsInv | frontend/local/view-only-refresh-ops.js:57-134 | starting a load, from the pin on screen, a remembered one or nothing, keeps every held window a slice |
| ViewOnlyNoHole.FinishKeepsInv | frontend/local/view-only-refresh-ops.js:189-257 | a landed page leaves the pin a settled slice |
| ViewOnlyRuns.TailKeepsInv | frontend/local/view-only-refresh-ops.js:136-165 | every tail answer, superseded, foreign, connected, bridging or dropped, keeps the invariant |
| ViewOnlyRuns.BridgeKeepsInv | frontend/local/view-only-refresh-ops.js:166-188 | every turn of the bridge loop keeps the pin and the bridge contiguous |
| ViewOnlyRuns.OlderKeepsInv | frontend/local/view-only-refresh-ops.js:361-408 | an older page joins the rows it was asked for, or changes nothing |
| ViewOnlyRuns.DeltaKeepsInv | frontend/local/view-only-thread.js:128-191 | the transcript's next row goes last; other deltas touch rows in place |
| ViewOnlyRuns.NoHole | frontend/local/view-only-refresh-ops.js:70-430 | over every run of honest answers in any order, threads handed over by the live session included, the pin is a contiguous, duplicate-free stretch of its transcript, and a settled pin's cursor joins on; where no event makes a pin forget its cursor, so does that of every pin with rows, loading and failed ones too |
| ViewOnlyCursors.CursorsJoinExactlyWhen | frontend/local/view-only-refresh-ops.js:57-430 | over every honest run the pin on screen, every remembered pin and every pin a load started from keep a cursor that joins on exactly when no event makes one forget: a rejected cursor; a live row that is not the transcript's first, brought to a pin without rows; a thread on screen that stops being the active one while its session shows rows past the first |
| ViewOnlyCursors.StepForgetsExactlyWhen | frontend/local/view-only-refresh-ops.js:258-430 | where all windows join on, the next event ends that exactly when it is one of those three |
| ViewOnlyCursors.RejectedCursorThenFailure | frontend/local/view-only-refresh-ops.js:409-420 | the run: a page that starts past the transcript's beginning, its cursor rejected, the reload failed; the pin keeps the rows and says there is no older history |
| ViewOnlyCursors.ColdRowThenFailure | frontend/local/view-only-thread.js:128-191 | the run: a live row past the beginning before the first page, which fails; the same |
| ViewOnlyCursors.HandoverThenFailure | frontend/app.js:1486-1536 | the run: another device moves the active thread away from the one on screen, whose session shows rows past the beginning; the load that follows fails; the same, and the rows are remembered as a settled pin without a cursor |
| ViewOnlyRuns.PaintKeepsInv | frontend/app.js:1457-1537 | a render that pins a thread handed over, and loads it, keeps every held window a slice |
| ViewOnlyLoads.RunAligns | frontend/local/view-only-refresh-ops.js:70-304 | in every run the pin, the current load and an older page out stand to each other as the code assumes |
| ViewOnlyLoads.SupersededLoadIsSilent | frontend/local/view-only-refresh-ops.js:138-138 | the answer to a superseded load changes nothing but its own bookkeeping |
| ViewOnlyLoads.LoadOutcome | frontend/local/view-only-refresh-ops.js:136-302 | the answer to the current load does nothing, settles it, asks for one more bridge page, or strands it |
| ViewOnlyLoads.FailSettles | frontend/local/view-only-refresh-ops.js:258-301 | a failed current load leaves the rows, cursor and revision, and a pin that is not loading |
| ViewOnlyLoads.OwnershipLostExactlyWhen | frontend/local/view-only-refresh-ops.js:157-180 | a loading pin loses its load exactly when a bridge answer lands while the thread is off screen, is the active one, or there is no session |
| ViewOnlyLoads.StrandedPinHealsExactlyWhen | frontend/local/view-only-refresh-ops.js:306-359 | a loading pin whose load is gone gets another exactly at a navigation, or at a render that finds its run changed, its thread active, its review over or another thread in view |
| ViewOnlyLoads.StrandedPinNeverHeals | frontend/local/view-only-thread.js:332-361 | over every run without such an event it stays loading, with no load |
| ViewOnlyLoads.RenderingAsBackgroundDoesNotRescue | frontend/local/view-only-thread.js:332-361 | rendering it as the background thread in view is no such event |
| ViewOnlyLoads.ViewedLoadIsOutstanding | frontend/local/view-only-refresh-ops.js:306-359 | when every snapshot is rendered as it is written, a viewed loading pin always has its load outstanding |
| ViewOnlyGaps.RefusedDeltaIsRemembered | frontend/local/view-only-thread.js:156-179 | a refused delta raises a gap that no load already out can clear, however it ends |
| ViewOnlyGaps.ResyncIsNotLost | frontend/local/view-only-thread.js:199-220 | after a load that succeeds the gap is up exactly when one was noticed during it or a notice received during it wants a newer revision |
| ViewOnlyGaps.NoticesAccumulate | frontend/local/view-only-thread.js:204-206 | notices received during a load accumulate to their maximum |
| ViewOnlyGaps.EmptyTailKeepsRowsExactlyWhen | frontend/local/view-only-thread.js:441-449 | after every honest run an empty tail keeps the conversation exactly when no history was paged in |
| ViewOnlyRefresh.ViewOnlyRefreshOps.RememberPin | frontend/local/view-only-refresh-ops.js:57-68 | a good pin of the live run is cached under its thread |
| ViewOnlyRefresh.ViewOnlyRefreshOps.LoadViewOnlyTranscript | frontend/local/view-only-refresh-ops.js:70-134 | up to its await the load is the step BeginLoad |
| ViewOnlyRefresh.ViewOnlyRefreshOps.TailArrives | frontend/local/view-only-refresh-ops.js:136-165 | the tail's answer is the step TailAnswered |
| ViewOnlyRefresh.ViewOnlyRefreshOps.BridgeArrives | frontend/local/view-only-refresh-ops.js:163-187 | one turn of the bridge loop is the step BridgeAnswered |
| ViewOnlyRefresh.ViewOnlyRefreshOps.Finish | frontend/local/view-only-refresh-ops.js:188-257 | merging and building the pin is the step FinishLoad |
| ViewOnlyRefresh.ViewOnlyRefreshOps.Fail | frontend/local/view-only-refresh-ops.js:258-301 | the catch block is the step FailLoad |
| ViewOnlyRefresh.ViewOnlyRefreshOps.MaybeRefreshViewOnly | frontend/local/view-only-refresh-ops.js:306-359 | a render reconciles and self-heals as specified |
| ViewOnlyRefresh.ViewOnlyRefreshOps.LoadOlderViewOnlyTranscript | frontend/local/view-only-refresh-ops.js:361-373 | an older page is asked for only by a settled, viewed pin with a cursor and none out |
| ViewOnlyRefresh.ViewOnlyRefreshOps.OlderArrives | frontend/local/view-only-refresh-ops.js:383-407 | the older page's answer is the step OlderAnswered |
| ViewOnlyRefresh.ViewOnlyRefreshOps.OlderFails | frontend/local/view-only-refresh-ops.js:408-429 | its failure, with a rejected cursor restarting the pin, is the step OlderFailed |
| ContentNonce.AcceptsExactlyCanonicalDecimals | frontend/remote/broker-client.js:898-907 | a nonce is accepted exactly when it is the canonical decimal of 1 to 2^53 - 1 |
| ContentNonce.SequenceInvertsDigits | frontend/remote/broker-client.js:898-907 | reading inverts printing on that range |
| ReplayWindow.WindowRefinesHistory | frontend/remote/broker-client.js:909-934 | for every frame sequence the pruned map answers as an unbounded history: accept when above the highest less 512 and new, or known by this same signature |
| ReplayWindow.HistoryIsWhatWasAccepted | frontend/remote/broker-client.js:909-934 | that history is the frames accepted: a number and signature are in it exactly when some accepted frame carried both |
| ReplayWindow.OneSignaturePerSequence | frontend/remote/broker-client.js:909-934 | no sequence number is accepted under two signatures |
| ReplayWindow.WindowStaysSmall | frontend/remote/broker-client.js:893-934 | the map never holds more than 512 numbers |
| RelayChannel.Connection.RememberContentNonce | frontend/remote/broker-client.js:909-934 | the method, with its pruning loop, is the window step |
| RelayChannel.Connection.HandleSocketMessage | frontend/remote/broker-client.js:764-863 | a frame changes the connection as the step says and delivers its payload exactly when its content is accepted |
| RelayChannel.Connection.AcceptRelayHelloProof | frontend/remote/broker-client.js:936-966 | a proof opens the session exactly when it echoes the nonce and device, verifies and is no conflicting replay |
| RelayChannel.DeliveryIsInsideAnEpoch | frontend/remote/broker-client.js:791-986 | every payload handed on is from the pinned peer, to this socket, signed, and in the session of the latest accepted proof, which echoed the latest hello |
| RelayChannel.SilentUntilProved | frontend/remote/broker-client.js:791-881 | between a hello or the relay leaving and the next accepted proof nothing is handed on |
| RelayChannel.OneSignaturePerEpoch | frontend/remote/broker-client.js:866-934 | between two hellos no number is accepted under two signatures, proofs and content together |
| RelayChannel.ExactReplayIsDeliveredAgain | frontend/remote/broker-client.js:919-922 | an exact replay inside the window is delivered again: the window is not a deduplicator |
| Backoff.DelayBounds | frontend/remote/broker-client.js:115-125 | every delay lies between half its cap and the cap, and caps do not decrease |
| Backoff.ConsecutiveFailuresWait | frontend/remote/broker-client.js:97-125 | k consecutive failures wait at least 47250 + 30000 (k - 6) ms for k of 6 or more, wherever the count stood |
| Backoff.ReconnectsAreBounded | frontend/remote/broker-client.js:91-125 | over every run of failures and sessions the number of reconnects is bounded by the time taken |
| Backoff.SocketReconnect.NextSocketReconnectDelayMs | frontend/remote/broker-client.js:115-125 | the method counts the failure, syncs the selection and draws the specified delay |
| RemoteActions.MissingIsUnreachable | frontend/remote/actions.js:551-597 | with the count kept exactly, a counted-complete transfer has no missing chunk |
| RemoteActionRuns.BookkeepingHolds | frontend/remote/actions.js:515-618 | in every run chunks belong to pending actions, receivedCount is the number of filled slots, and no promise settles twice or is pending after it settled |
| RemoteActionRuns.AtMostTwoReauthFrames | frontend/remote/actions.js:879-912 | no action is sent three re-authorization frames |
| RemoteActionRuns.OperationKeepsItsIdentity | frontend/remote/actions.js:808-831 | once fixed, an operation does not change while its action is pending, and every frame whose signing begins afterwards carries it |
| RemoteActionRuns.SettledResendIsSentAnew | frontend/remote/actions.js:857-877 | a resend whose turn comes after its action settled is sent under a new operation, exactly when its listed record has not expired |
| RemoteActionRuns.LateResendMintsAnotherOperation | frontend/remote/actions.js:857-877 | the run: two actions sent, one answered while the other is resent; then it is sent again itself, under an operation of its own |
| RemoteActionRuns.RejectingAllLeavesNothing | frontend/remote/actions.js:300-311 | rejecting every pending action leaves no chunks |
| ChunkReassembly.ReassemblyIsExact | frontend/remote/actions.js:515-597 | for every split, order, repetition and interleaving with other actions the answer is handled exactly once, whole, when the last missing piece arrives, extending the deadline once per distinct piece |
| ChunkReassembly.OtherEventsStayAway | frontend/remote/actions.js:515-618 | events of other actions leave this one as it was |
| ChunkReassembly.AnswerSettlesExactlyWhen | frontend/remote/actions.js:515-597 | once every piece is in, in any order and among any other events, the promise has settled exactly when the text is not the JSON null |
| RemoteActionsClient.PendingActions.HandleRemoteActionResultChunk | frontend/remote/actions.js:515-577 | the handler is the step HandleChunk |
| RemoteActionsClient.PendingActions.ReassembleRemoteActionResultChunks | frontend/remote/actions.js:587-597 | the loop concatenates, or reports the first missing chunk |
| RemoteActionsClient.PendingActions.SettlePendingAction | frontend/remote/actions.js:954-973 | settling forgets the action and its chunks and decides its promise |
| RemoteActionsClient.PendingActions.RejectPendingAction | frontend/remote/actions.js:606-618 | rejecting forgets the action and its chunks, once |
| RemoteActionsClient.PendingActions.FrameSigned | frontend/remote/actions.js:818-831 | the frame carries the operation read at its start, and the pending action learns its first |
| RemoteActionsClient.PendingActions.ReauthorizePendingAction | frontend/remote/actions.js:879-895 | re-authorization is counted, and refused after two |
| RemoteActionsClient.PendingActions.SuspendPendingActionDeadlines | frontend/remote/actions.js:841-846 | suspending disarms every deadline and fails nothing |
| RequestSequence.NumbersAreConsecutive | frontend/remote/actions.js:739-745 | where no replaced session returns, each session's calls are numbered 1, 2, 3 |
| RequestSequence.PairsDistinctExactlyWhen | frontend/remote/actions.js:737-745 | no session and number repeats exactly when no replaced session is used again |
| RequestSequence.RequestCounter.NextRequestSeq | frontend/remote/actions.js:739-745 | the method gives the number the call history determines |
| WorkspaceDiffRuns.ShownDiffIsTheLatestView | frontend/local/workspace-diff.js:285-322 | over every interleaving the diff on screen is of the latest refresh's view, and is called loaded only when it answers that refresh |
| WorkspaceDiffRuns.RootListGoesBackExactlyWhen | frontend/local/workspace-diff.js:213-386 | short of a clear for another thread, an event shows an older call's list exactly when it is a pin landing whose call was issued before the call that brought the list shown last |
| WorkspaceDiffRuns.OlderPinReplacesNewerList | frontend/local/workspace-diff.js:367-386 | the run: a pin, then a measurement that answers first; the pin's older answer replaces the newer list |
| WorkspaceDiffRuns.RootListNeverGoesBack | frontend/local/workspace-diff.js:213-283 | until the panel is cleared for another thread or such a pin lands the root list never returns to an older call's answer |
| WorkspaceDiffRuns.CountsNeverCrossAClear | frontend/local/workspace-diff.js:68-128 | after clearRootCounts every remembered or shown count, but for a pin's raw answer, is of a request issued since |
| WorkspaceDiffRuns.ClearBlanksTheScreen | frontend/local/workspace-diff.js:441-450 | the clear leaves no count remembered or shown |
| WorkspaceDiffRuns.ReadFailureNeverCaptionsANewerAnswer | frontend/local/workspace-diff.js:197-283 | a read failure is never shown beside the answer of a newer request |
| WorkspaceDiffRuns.RefusalRetiredExactlyWhen | frontend/local/workspace-diff.js:204-210 | a refused mutation leaves the screen exactly by a retry, a thread change, a pin that succeeds or a read that fails; a successful read never removes it |
| WorkspaceDiffRuns.StepKeepsInv | frontend/local/workspace-diff.js:184-450 | every event keeps the store's invariant |
| WorkspaceDiffStore.Store.RefreshDiff | frontend/local/workspace-diff.js:285-304 | up to its await the refresh is the step BeginRefresh |
| WorkspaceDiffStore.Store.RefreshWorkspace | frontend/local/workspace-diff.js:213-242 | up to its await the resolve clears, claims its turns and waits |
| WorkspaceDiffStore.Store.MeasureRootsFor | frontend/local/workspace-diff.js:395-406 | a measurement claims its turns when issued |
| WorkspaceDiffStore.Store.ResolveAnswered | frontend/local/workspace-diff.js:243-272 | the resolve's answer is shown, fills a blank, or is dropped |
| WorkspaceDiffStore.Store.MeasureAnswered | frontend/local/workspace-diff.js:407-430 | a measurement that was overtaken changes nothing |
| WorkspaceDiffStore.Store.RememberRootCounts | frontend/local/workspace-diff.js:72-90 | counts are remembered only from the newest request |
| WorkspaceDiffStore.Store.ForgetRootsMissingFrom | frontend/local/workspace-diff.js:94-104 | counts of vanished roots are forgotten |
| WorkspaceDiffStore.Store.PinAnswered | frontend/local/workspace-diff.js:368-386 | the pin's answer and the refresh after it are one step |
| WorkspaceDiffStore.Store.ForgetRootCounts | frontend/local/workspace-diff.js:441-450 | the clear empties the cache, outdates what is in flight and repaints |
| Composer.SyncKeepsEveryDraft | frontend/local/composer-workspace-binding.js:53-70 | moving the box between threads changes no thread's draft |
| Composer.FirstBindAdoptsOnlyIntoAnEmptyDraft | frontend/local/composer-workspace-binding.js:61-67 | the first bind files what the box holds exactly when the thread had no draft |
| Composer.SubmitConsumesOnlyItsOwnDraft | frontend/local/composer-workspace-binding.js:80-108 | a success takes exactly what it sent from its own thread's draft, the same on screen and off, and touches no other |
| Composer.DiscardStays | frontend/local/composer-workspace-binding.js:110-118 | discarding empties one draft, the next move does not bring it back, and its operations resolve to nothing |
| Composer.DraftsDoNotWander | frontend/local/composer-workspace-binding.js:24-118 | over any stretch of a run that does not concern a thread its draft stays as it was |
| Composer.FrozenMeansAnswerable | frontend/shared/composer-workspace.js:163-192 | a frozen composer names a live operation of its own, which unfreezes it when it ends |
| Composer.FinishTouchesOnlyItsThread | frontend/remote/composer-send.js:21-36 | a remote send's completion takes exactly what was sent from the thread its token names, if that still exists, and releases only its own freeze |
| Composer.ComposerBinding.SyncTo | frontend/local/composer-workspace-binding.js:53-70 | the method captures, moves and adopts or restores as specified |
| Composer.ComposerBinding.ClearSent | frontend/local/composer-workspace-binding.js:80-108 | the method is the step ClearSubmitted |
| Composer.ComposerBinding.DiscardDraft | frontend/local/composer-workspace-binding.js:110-118 | the method is the step Discard |
| Composer.BeginRemoteSend | frontend/remote/composer-send.js:13-19 | a send begins only when none is out for the thread, and remembers what it sends |
| Composer.FinishRemoteSend | frontend/remote/composer-send.js:20-36 | the completion is the step FinishSend |
| ComposerWorkspaces.ReadAfterWrite | frontend/shared/composer-workspace.js:124-141 | a slot reads back what was written, stored or not, and no other changes |
| ComposerWorkspaces.WorkspaceStore.DropTokensFor | frontend/shared/composer-workspace.js:194-199 | the loop drops exactly the tokens of the forgotten key |
| OrchestratorLoad.FlagsImplyALoad | frontend/local/orchestrator-transcript-refresh.js:117-151 | in every run a loading or repairing pane has its current load outstanding, and an older page still current meets the pane's cursor |
| OrchestratorLoad.GapOutlivesEarlierLoads | frontend/local/orchestrator-transcript-refresh.js:130-151 | a noticed gap is dropped only by a load begun afterwards |
| OrchestratorLoad.GapIsRepairedOnRender | frontend/local/orchestrator-transcript-refresh.js:25-71 | a noticed gap starts one repair at the next render, or waits for the older page that is out |
| OrchestratorRows.LandingKeepsExactly | frontend/local/render-session.js:2376-2390 | a transcript row is in the pane after a page lands exactly when the page has it or the merge keeps it of what was held when the load began |
| OrchestratorRows.StreamedRowSurvivesExactlyWhen | frontend/local/render-session.js:2376-2390 | a row streamed in while the page was out survives exactly when the page has it: for a page that joins on, when it stands before the page's end |
| OrchestratorRows.LandingForgetsDeltasDuringTheFetch | frontend/local/render-session.js:2351-2413 | the run: a turn seen to end refreshes the pane, a second row streams in while a page read before it is out; the page removes it and no gap is noted |
| OrchestratorRows.LiveTranscriptKeepsTheOldCursor | frontend/local/render-session.js:2248-2257 | the run: a pane with a cursor is given another thread, the active one; it takes the session's rows, keeps the cursor, which does not join on, and asks for older rows with it |
| OrchestratorLoad.BareBumpStrandsTheFlags | frontend/local/render-session.js:2286-2297 | a generation bumped without a begin leaves the flags up over every run until another load begins |
| OrchestratorLoad.OrchestratorPane.BeginOrchestratorLoad | frontend/local/orchestrator-transcript-refresh.js:117-123 | the flags a load owns go up and its generation is the newest |
| OrchestratorLoad.OrchestratorPane.ApplyOrchestratorLoadFinally | frontend/local/orchestrator-transcript-refresh.js:139-151 | only the current load settles the flags, deciding the gap before clearing them |
| OrchestratorLoad.OrchestratorPane.ApplyRefreshedOrchestratorPage | frontend/local/orchestrator-transcript-refresh.js:218-228 | the page is merged into the prior taken at the start |
| OrchestratorLoad.OrchestratorPane.ApplyOlderOrchestratorPage | frontend/local/orchestrator-transcript-refresh.js:230-255 | an older page of this run is prepended; another run's changes nothing |
| EventStream.CutsDoNotMatter | frontend/session-stream.js:71-88 | events do not depend on how the text is cut into reads, as long as no cut splits a line ending |
| EventStream.PlainTextHasNoSplits | frontend/session-stream.js:109-110 | text without carriage returns may be cut anywhere |
| EventStream.ReadsSeeTheText | frontend/session-stream.js:109-110 | reading piecewise sees the normalized text exactly when no cut falls between CR and LF |
| EventStream.StreamIsByLines | frontend/session-stream.js:71-155 | the events are those of reading the text line by line, fields gathered until a blank line, sections 9.2.5 and 9.2.6 of the HTML Living Standard |
| EventStream.CutIsByLines | frontend/session-stream.js:109-155 | cutting at blank lines finds exactly the events a line-by-line reader finds |
| EventStream.SplitReturnSplitsTheEvent | frontend/session-stream.js:110-110 | a cut inside the line ending between two data lines makes two events of one |
| EventStreamSplits.SplitsAreHarmlessExactlyWhen | frontend/session-stream.js:71-155 | however many line endings the cuts split, the events are those of the whole text exactly when in every block of it at most one of the parts the splits make has data and the block keeps its type; never are they fewer |
| EventStream.SessionStream.DispatchBufferedEvents | frontend/session-stream.js:109-123 | the cursor loop dispatches every complete event and returns the rest |
| EventStream.SessionStream.DispatchEvent | frontend/session-stream.js:125-155 | one raw event dispatches what its fields say, or nothing |
| EventStream.SessionStream.End | frontend/session-stream.js:81-86 | at the end everything read has been dispatched as the line reader would |
| WatchedThreads.WatchedThreadsSync.CollectWatchedThreadIds | frontend/local/watched-threads.js:31-46 | the ids are sorted, without repeats, and exactly the threads shown |
| WatchedThreads.KeyIsCanonical | frontend/local/watched-threads.js:43-96 | for ids without spaces two keys are equal exactly when the watch sets are |
| WatchedThreads.SpaceMakesKeysCollide | frontend/local/watched-threads.js:96-96 | an id with a space can be mistaken for two |
| WatchedThreads.IdleIsRightExactlyWhen | frontend/local/watched-threads.js:61-147 | over every run of calls, failures, and streams that open and end in any order, an idle declarer that remembers a key is right about the relay exactly when the post that arrived last was stored, or asked for what was there, and no teardown has dropped the set since |
| WatchedThreads.IdleIsWrongExactlyAcrossReconnects | frontend/local/session/stream.js:180-218 | where each stream is torn down before the next opens, it is right exactly when the page did not reconnect while the post behind its key was out |
| WatchedThreads.StoredThenDropped | frontend/local/watched-threads.js:88-147 | the run: stored, stream ended, next one opened and reset, then answered; the key is remembered, the relay holds nothing, and asking again posts nothing |
| WatchedThreads.RefusedAsStale | crates/relay-server/src/state/app/sessions.rs:1329-1336 | the run: a post of the old stream that arrives after the next one opened is refused and answered like a success; the same |
| WatchedThreads.IdleMeansDeclared | frontend/local/watched-threads.js:61-147 | on one stream, through failures and resets, an idle declarer that remembers a key is right about the relay |
| WatchedThreads.IdleMeansNewestDelivered | frontend/local/watched-threads.js:88-138 | on one stream, with no reset and no failed post, an idle declarer has delivered the newest target that differed when asked for |
| WatchedThreads.NewestWinsExactlyWhen | frontend/local/watched-threads.js:96-108 | over every run, a call and then quiet leaves the relay holding what was asked for exactly when the call is sent on a generation the relay accepts, or the relay comes to hold it anyway; a call for the remembered key rests on what is on its way |
| WatchedThreads.NewestWinsOnOneStream | frontend/local/watched-threads.js:96-108 | on one stream that is always, unless the call reverts to the declared key while another post is out |
| WatchedThreads.OneCallConverges | frontend/local/watched-threads.js:88-138 | from an idle declarer one undisturbed call suffices exactly when the declaration it rests on was kept, or it is sent and accepted, or its set is there |
| WatchedThreads.FailureIsRetried | frontend/local/watched-threads.js:128-137 | after a failed post the next call posts, whatever it asks for |
| WatchedThreads.WatchedThreadsSync.SetWatchedThreadsForGeneration | crates/relay-server/src/state/relay.rs:6493-6581 | the relay refuses a superseded generation, replaces the set otherwise, and answers alike |
| WatchedThreads.WatchedThreadsSync.OpenSurfaceGeneration | crates/relay-server/src/state/relay.rs:6602-6616 | opening a stream never lowers the generation in force |
| WatchedThreads.WatchedThreadsSync.DropWatchedSurfaceGeneration | crates/relay-server/src/state/relay.rs:6623-6630 | a teardown drops the set only if its generation is in force |
| WatchedThreads.WatchedThreadsSync.ConnectSessionStream | frontend/local/session/stream.js:180-190 | connecting takes a new generation from the clock |
| WatchedThreads.WatchedThreadsSync.SyncWatchedThreads | frontend/local/watched-threads.js:88-112 | up to its await the call dedupes, queues or posts |
| Pairing.ShownCodeGrantsTheSelection | frontend/local/settings-devices.js:336-340 | over every interleaving a code on show was minted for exactly the scope the page selects |
| Pairing.ShownCodeWasBrought | frontend/local/settings-controller.js:63-87 | behind a code on show are its own request and answer, with nothing superseding them since |
| Pairing.BroughtCodeIsShown | frontend/local/settings-devices.js:336-340 | a code that was asked for and came is shown exactly when the page selects its scope |
| Pairing.SelfCloseMeansDecided | frontend/local/settings-controller.js:126-137 | the panel closes itself only after the held code's own request was seen pending and is gone |
| Pairing.SameScope | frontend/local/settings-devices.js:676-678 | two scopes are the same exactly when they are equal, element by element |
| Pairing.SettingsPairing.AskForCode | frontend/local/settings-controller.js:63-69 | asking takes the newest number and forgets the old code's scan |
| Pairing.SettingsPairing.TicketArrives | frontend/local/settings-controller.js:70-74 | only the newest request's ticket is taken |
| Pairing.SettingsPairing.PairingProps | frontend/local/settings-controller.js:126-137 | rendering notes a scan and closes when it was decided |
| Backoff.SocketReconnect.NoteClosedSocketDuration | frontend/remote/broker-client.js:106-113 | only a session that lasted a minute resets the backoff |
| Backoff.SocketReconnect.SyncBackoff | frontend/remote/broker-client.js:97-104 | another selection or window starts the count afresh |
| RelayChannel.Connection.SendRelayHello | frontend/remote/broker-client.js:866-881 | a hello starts an epoch: new nonce, no session, empty window |
| RelayChannel.Connection.HandlePayload | frontend/remote/broker-client.js:833-863 | a payload is checked for origin, address, version and key before it may prove or deliver |
| RelayChannel.Connection.AcceptRelayContent | frontend/remote/broker-client.js:968-986 | content is accepted exactly in the open session, verified, and no conflicting replay |
| RelayChannel.Connection.DropUpTo | frontend/remote/broker-client.js:927-932 | the loop deletes exactly the numbers at or below the floor |
| OrchestratorLoad.RefusalIsNoticed | frontend/local/session/stream.js:441-446 | a refused delta, or a notice, leaves a gap noticed by this rule |
| OrchestratorLoad.OrchestratorPane.RestartOrchestratorFromLatestPage | frontend/local/orchestrator-transcript-refresh.js:174-178 | a rejected cursor drops the cursor and the history flag and asks for a repair |
| Pairing.SettingsPairing.Dismiss | frontend/local/settings-controller.js:53-61 | closing outdates every request and forgets the code |
| Pairing.SettingsPairing.OnOpen | frontend/local/settings-controller.js:146-149 | opening asks for a code |
| Pairing.SettingsPairing.TicketFails | frontend/local/settings-controller.js:75-86 | only the newest request's failure drops the code |
| RemoteActionsClient.PendingActions.HandleRemoteActionResult | frontend/remote/actions.js:464-467 | handling clears the chunks and settles |
| RemoteActionsClient.PendingActions.ExtendPendingActionDeadline | frontend/remote/actions.js:915-927 | a deadline restarts only while its action is pending |
| RemoteActionsClient.PendingActions.SendRemoteActionFrame | frontend/remote/actions.js:808-822 | a frame reads its operation when it is begun |
| RemoteActionsClient.PendingActions.RejectPendingActions | frontend/remote/actions.js:300-311 | the loop rejects each listed action once |
| ViewOnlyGaps.LaterLoadClearsTheGap | frontend/local/view-only-refresh-ops.js:254-257 | a load begun with the gap up, that sees no delta and no notice, clears it |
| ViewOnlyGaps.EveryLoadStartsClean | frontend/local/view-only-refresh-ops.js:98-134 | a load starts with no notice and no delta counted against it |
| ViewOnlyRefresh.ViewOnlyRefreshOps.PriorFor | frontend/local/view-only-refresh-ops.js:84-95 | a load starts from the pin of this run on screen, or the cache, never from another run |
| ViewOnlyRefresh.ViewOnlyRefreshOps.CacheFor | frontend/shared/viewed-thread-cache.js:3-12 | the cache belongs to one run of the relay |
| ViewOnlyRefresh.ViewOnlyRefreshOps.Reconcile | frontend/local/view-only-refresh-ops.js:310-338 | a render releases, refreshes, defers or keeps the pin |
| ViewOnlyRefresh.ViewOnlyRefreshOps.SettleOlder | frontend/local/view-only-refresh-ops.js:420-429 | a refresh deferred behind an older page is decided again |
| ViewOnlyRefresh.ViewOnlyRefreshOps.TailFails | frontend/local/view-only-refresh-ops.js:258-262 | a failed fetch settles only the current load |
| ViewOnlyRefresh.ViewOnlyRefreshOps.BridgeFails | frontend/local/view-only-refresh-ops.js:170-176 | a bridge failure stops the loop, gives up or fails the load |
| WorkspaceDiffStore.Store.SettleThread | frontend/local/workspace-diff.js:214-239 | another thread, or none, clears the panel |
| WorkspaceDiffStore.Store.ClaimTurns | frontend/local/workspace-diff.js:240-243 | turns are claimed when the request is issued |
| WorkspaceDiffStore.Store.WithRememberedCounts | frontend/local/workspace-diff.js:117-128 | shown counts come from the cache alone |
| WorkspaceDiffStore.Store.ResolveRefused | frontend/local/workspace-diff.js:273-283 | a failed read is shown only while nothing newer has answered |
| WorkspaceDiffStore.Store.DiffAnswered | frontend/local/workspace-diff.js:308-312 | only the newest refresh's diff is shown |
| WorkspaceDiffStore.Store.ShowPin | frontend/local/workspace-diff.js:373-385 | the pin's answer is shown as it came, under the call it answers, and ends the preview |
| Composer.ComposerBinding.CaptureBox | frontend/local/composer-workspace-binding.js:34-40 | the box is filed under its thread, the rest of the draft kept |
| Composer.ComposerBinding.RestoreBox | frontend/local/composer-workspace-binding.js:42-46 | the thread's draft fills the box |
| ComposerWorkspaces.WorkspaceStore.WriteDraft | frontend/shared/composer-workspace.js:128-141 | an inert draft is never stored |
| ComposerWorkspaces.WorkspaceStore.Begin | frontend/shared/composer-workspace.js:167-172 | an operation freezes its thread under a new token |
| ComposerWorkspaces.WorkspaceStore.End | frontend/shared/composer-workspace.js:176-182 | only the operation that owns the slot releases it |
| ComposerWorkspaces.WorkspaceStore.ForgetDraft | frontend/shared/composer-workspace.js:201-215 | forgetting a key drops its draft and its tokens |
| WatchedThreads.WatchedThreadsSync.PostSucceeds | frontend/local/watched-threads.js:117-126 | an answered target becomes the key, stored or refused, and a waiting one is posted next |
| WatchedThreads.WatchedThreadsSync.PostThrows | frontend/local/watched-threads.js:128-137 | a failed post forgets the key and what waited |
| WatchedThreads.WatchedThreadsSync.ForgetDeclaration | frontend/local/watched-threads.js:136-138 | reset forgets the key alone |
| ViewOnlyRefresh.ViewOnlyRefreshOps.ApplySessionSnapshot | frontend/local/session/lifecycle.js:1125-1139 | a snapshot of another active thread keeps the session it replaces for the next render |
| ViewOnlyRefresh.ViewOnlyRefreshOps.WrappedRenderSession | frontend/app.js:1457-1537 | a render pins the thread on screen when it was the active one until now, reconciles, and then loads it |

## Left out

- Rendering, React components, DOM wiring, labels and i18n.
- Display metadata of a pin (workspace, provider, settings, review lock, timestamps) and the
  review signature: what the review channel says enters as a parameter of a render.
- The synchronous render at the two ends of a load: a render is an event of its own, free to
  happen there and anywhere else.
- The size bound of the viewed-thread cache: any entry may be evicted at any time.
- What reduceTranscriptDeltaEvent decides: its outcome is a parameter, its insertion is not.
- Pages that are not fully numbered meeting the numbered reducer row by row (its hint and slot
  checks), and the reducer's warnings and probe counters: both pin merges call it keyed only.
- NoHole: without the assumption that no event makes a pin forget its cursor it promises the cursor relation only
  for pins that are neither loading nor failed (CursorsJoinExactlyWhen has the exact condition); and
  it is stated for the view-only pin alone: the Orchestrator pane shares its merges, but see
  LandingKeepsExactly and LiveTranscriptKeepsTheOldCursor.
- ViewedLoadIsOutstanding: covers runs in which each snapshot is rendered as it is written and the
  session, once there, is not taken away.
- Signing, verification, encryption and JSON: a predicate and a parsing function, any whatever.
- The pairing socket's gate in front of handleSocketMessage: a dropped frame does not arrive.
- Closing a socket whose broker protocol is not supported: its later frames may still be handled.
- ReconnectsAreBounded: does not count reconnects asked for by anything but a closed socket, because
  those reset the backoff without a session having lasted.
- Action ids repeating: makeActionId is random, and registering an id twice is not modelled.
- A chunk count too large for an array, which throws in the source.
- Claims themselves: reauthorization waits for a claim that may arrive or fail.
- A watch-set post the declarer was told had failed but that the relay stores later, and what the
  relay filters out of a declared set (threads the device may not read, other names of a thread).
- IdleIsWrongExactlyAcrossReconnects: takes a stream's teardown, the next one's opening and the reset
  as one step; IdleIsRightExactlyWhen has them in any order.
- A composer dismissal typed away and back: only capture files it, and views are compared as filed.
- Expanded state, tabs, review panel and transport of the workspace-diff store.
- Text decoding: reads are pieces of decoded text. Closing a stream in the middle of a read.
- Fields of an event stream other than event and data; spaces are trimmed as the code does, which
  is more than the standard's one leading space, and an unfinished last event is dispatched.
- HTTP, WebSocket, storage, timers, device refresh and endpoint fallback.
