# TiyCode agent core: verified models

Dafny models of the state machines and transformations at the centre of the agent core under
`src-tauri/src/core`, and proofs of what they promise. `dafny verify dfyconfig.toml` checks all of it.

| area | files |
|---|---|
| shared | `Prelude`, `Strings`, `TextLaws` |
| the runtime queue mirror and its protocol | `RuntimeQueue`, `QueueSafety`, `QueueProtocol`, `QueueInvariant`, `QueueSteps`, `QueueRefinement`, `QueuePromotion`, `QueueTrim`, `QueueCancels`, `QueueRemoval`, `QueueEvents` |
| rebuilding a transcript from message rows and tool calls | `History`, `HistoryTimeline`, `HistoryConvert`, `HistoryPairing`, `HistoryShape`, `HistoryPlacement` |
| active runs, message rows and the event handler | `RunManager`, `Lifecycle`, `RunOutcomes`, `LifecycleTraps` |
| the translator, its channel and the handler together | `Streaming`, `StreamingReports`, `StreamingSync`, `StreamingPipeline`, `StreamingEnd`, `StreamingReasoning`, `StreamingLimits` |
| rendering for, and normalising from, the summary model | `Summary`, `SummaryRendering`, `SummaryBlock` |
| repeated compression of a conversation | `Compression`, `CompressionRuns`, `CompressionKept` |
| merging provider options | `JsonMerge` |

Where the source updates state in place, a class holds that state and each method is proved equal to a
function of the old state; the properties are then proved of those functions, over all states or over
all runs of a state machine whose steps are the source's lock regions, table writes and callbacks. `QueueRemoval`,
`QueueEvents`, `HistoryPlacement`, `RunOutcomes`, `StreamingReports`, `SummaryRendering` and `CompressionKept` say what those functions
compute without them: on the messages, rows and texts themselves, with the literal values.

## What is taken as given

- The agent's two queues are first-in-first-out. A queue change and its callback are one step. A
  promoted message may land anywhere in the steering queue.
- Each table insert or update is one step; an insert under an id that is already there fails and changes nothing.
- Event handlers run to their end without interleaving with each other. Ids from the id generator are fresh
  and not blank, and a user message is recorded under an id the translator does not hold; time stamps are
  only compared.
- The summary model's answer, token estimates, the skeleton of a heuristic summary, attachments, plan text
  and row metadata are arbitrary inputs.
- Text is counted and searched by character.

## Where the code and its comments part

- A standalone tool call is said to land just before the message at its insert position
  (`agent_session_history.rs:176-179`); its key sorts it after that message. `AdjacentIffUnmixed` says
  exactly when calls and results stay together, `EarlyAndLateCall` gives the family where they do not.
- The last region of a cancel writes its status over any other (`agent_session.rs:86-98`): `FinalUnlessOverwritten`.
- A promotion changes the message's kind where it stands in the list (`agent_session.rs:432-493`), wherever the
  agent puts the entry: `PromotionMirrorsIff` says when the two orders still agree.
- The end of a compact run writes run and thread status without looking at them
  (`agent_run_event_handler.rs:73-94`): `EndedStatusChangesIff`, `ForeignStatusChangesIff`, `CompactSettledTwice`.
- A checkpoint is terminal but settles no row (`agent_run_event_handler.rs:439-444`): `CheckpointSettlesNothing`.
- A reasoning block interrupted by an event of another sender loses everything after it, because the
  completed row keeps its id: `InterruptedReasoningIsLost`.
- A message that streams text and ends empty leaves the handler at its row, and the next message goes on
  there: `InSyncIff`, `NeverPartsIff`, `EmptiedEndMergesMessages`. The transcript says what is shown then, too.
- The full list drops its oldest message even while that is pending (`agent_session.rs:205-214`): `StepCountsIff`.
- Normalising is not idempotent on texts with a stray end tag: `NormalizingIsIdempotentIff`.
- When the summary model fails while the conversation is below the wider window of 32,000 tokens, nothing
  is cut, a heuristic summary is put in front of the conversation, and a summary already there is raw
  history for the next pass: `HeadedIff`.
- Taking the smaller of the two cuts on failure (`agent_session_compression.rs:277-279`) never matters for the
  configured window: `CutPointMonotone`.

## Model

| member | source | states |
|---|---|---|
| `RuntimeQueue.RuntimeQueueState.MarkMessages` | `src-tauri/src/core/agent_session.rs:63-84` | the in-place marking loop is `MarkFirst`: the first `count` pending messages of a kind, in list order, that are not skipped (the removal fallback skips the promoted ids) |
| `RuntimeQueue.RuntimeQueueState.MoveMessages` | `src-tauri/src/core/agent_session.rs:469-482` | the transfer fallback is `MoveFirst`: the first pending messages of the source kind change kind, and nothing else of them |
| `RuntimeQueue.RuntimeQueueState.ResolveRemovedIds` | `src-tauri/src/core/agent_session.rs:324-371` | registered removals are paid newest first, each resolvable id is used up, and an id whose message is neither pending nor cancelled pays nothing |
| `RuntimeQueue.RuntimeQueueState.TouchPromoted` | `src-tauri/src/core/agent_session.rs:372-401` | promoted messages that pay for a removal keep their status |
| `RuntimeQueue.RuntimeQueueState.OnRemovedEvent` | `src-tauri/src/core/agent_session.rs:318-431` | a whole `Removed` event on any state is `Remove`: registered ids, then promoted ids, then the first-in-first-out fallback |
| `RuntimeQueue.RuntimeQueueState.ResolveTransferredIds` | `src-tauri/src/core/agent_session.rs:441-468` | registered promotions are paid newest first among messages still pending in either kind |
| `RuntimeQueue.RuntimeQueueState.OnTransferredEvent` | `src-tauri/src/core/agent_session.rs:432-493` | a whole `Transferred` event on any state is `Transfer` |
| `RuntimeQueue.RuntimeQueueState.TrimLogs` | `src-tauri/src/core/agent_session.rs:205-214` | both logs lose exactly their oldest entries beyond 80 |
| `RuntimeQueue.RuntimeQueueState.UpdateForEvent` | `src-tauri/src/core/agent_session.rs:250-501` | the event handler as a whole, and the consumed messages it reports |
| `RuntimeQueue.RuntimeQueueState.AppendMessage` | `src-tauri/src/core/agent_session.rs:503-523` | a new pending message without a handle at the end, then the trim |
| `RuntimeQueue.RuntimeQueueState.AttachHandle` | `src-tauri/src/core/agent_session.rs:100-108` | only the named message changes, and only its handle |
| `RuntimeQueue.RuntimeQueueState.BeginCancel` | `src-tauri/src/core/agent_session.rs:110-141` | first lock region of a cancel: one of three errors and no change, or the handle and the id registered for removal |
| `RuntimeQueue.RuntimeQueueState.AbandonCancel` | `src-tauri/src/core/agent_session.rs:811-819` | the agent no longer had the message: every registration of the id is dropped |
| `RuntimeQueue.RuntimeQueueState.FinishCancel` | `src-tauri/src/core/agent_session.rs:831-841` | last lock region of a cancel: the named message becomes cancelled whatever its status was |
| `RuntimeQueue.RuntimeQueueState.BeginPromote` | `src-tauri/src/core/agent_session.rs:143-182` | first lock region of a promotion: one of four errors and no change, or the handle and the id registered for promotion |
| `RuntimeQueue.RuntimeQueueState.AbandonPromote` | `src-tauri/src/core/agent_session.rs:184-188` | every registration of the id for promotion is dropped |
| `RuntimeQueue.RuntimeQueueState.FinishPromote` | `src-tauri/src/core/agent_session.rs:190-203` | the registration is dropped, and the message becomes a steering message with the new handle only if it is still pending |
| `QueueSafety.EventIsSafe` | `src-tauri/src/core/agent_session.rs:250-501` | main result, for every state (stale, duplicate or unknown ids included) and every event: the handler keeps ids, contents and order, moves a status only from pending to the event's own final status, changes at most `count` of them, and leaves both logs within 80 if the message log was |
| `QueueSafety.MarkFirstSafe` | `src-tauri/src/core/agent_session.rs:63-84` | marking changes at most `count` messages, only pending ones of the kind |
| `QueueSafety.RemoveSafe` | `src-tauri/src/core/agent_session.rs:318-431` | paying a removal three ways never cancels more than `count` messages in all |
| `QueueSafety.TransferSafe` | `src-tauri/src/core/agent_session.rs:432-493` | a transfer changes the kind of at most `count` messages and the status of none |
| `QueueRemoval.ResolveRemovedIs` | `src-tauri/src/core/agent_session.rs:324-371` | the complete law of the registered removals, for every state: a registration is used up exactly when it names a message of the kind and the newer ones do not pay for everything; it pays when its message is pending or cancelled; exactly the pending messages so named become cancelled |
| `QueueRemoval.RemoveIs` | `src-tauri/src/core/agent_session.rs:318-420` | main result, the complete law of a removal for every state and every message: registrations pay first, newest first; then promoted messages that are still pending pay and stay; what is left is taken from the first pending messages of the kind that are not being promoted; nothing else changes but times |
| `QueueRemoval.PromotedStaysPending` | `src-tauri/src/core/agent_session.rs:372-420` | a pending message that is being promoted, and not being cancelled, keeps its status under every removal |
| `QueueRemoval.FallbackTakes` | `src-tauri/src/core/agent_session.rs:402-420` | the fallback cancels exactly the smaller of what is left to pay and the messages in line |
| `QueueRemoval.MarkFirstAt` | `src-tauri/src/core/agent_session.rs:63-84` | marking changes exactly the first `count` pending messages of the kind that are not skipped, and of them the status and the time |
| `QueueEvents.MarkedByEvent` | `src-tauri/src/core/agent_session.rs:273-317` | a consumption marks the first `count` pending messages of the kind consumed, a clear marks them cleared, and every other message stays as it was |
| `QueueEvents.TransferIs` | `src-tauri/src/core/agent_session.rs:432-493` | the complete law of a transfer for every state and every message: the newest registered promotions that can be carried out are, and only for what is left the first pending messages of the source kind move |
| `QueueEvents.CancelRefusedIff` | `src-tauri/src/core/agent_session.rs:110-141` | the three refusals of a cancel and its success, each as an iff on the first message with the id |
| `QueueEvents.PromoteRefusedIff` | `src-tauri/src/core/agent_session.rs:143-182` | the four refusals of a promotion and its success, each as an iff on the first message with the id |
| `QueueEvents.NamedMessageIs` | `src-tauri/src/core/agent_session.rs:86-108` | the last region of a cancel and the handle of an enqueue change only the first message with the id, and only in that |
| `QueueEvents.PromotedMessageIs` | `src-tauri/src/core/agent_session.rs:190-203` | the last region of a promotion turns the first pending message with the id, if there is one, into a steering message under the new handle |
| `QueueEvents.DropIs` | `src-tauri/src/core/agent_session.rs:184-188` | a registration is dropped wherever it stands, and no other is |
| `QueueProtocol.MarkFirstTakes` | `src-tauri/src/core/agent_session.rs:63-84` | consuming `n` takes the first `n` pending messages of the kind out of the pending list and reports exactly those, in order; the other kind is untouched |
| `QueueProtocol.AppendKeepsPending` | `src-tauri/src/core/agent_session.rs:205-214` | the exact condition: an append loses no pending message if and only if the list is not full or its oldest message is no longer pending |
| `QueueSteps.StepKeeps` | `src-tauri/src/core/agent_session.rs:744-921` | every step of the protocol (each lock region of enqueue, cancel, promote and clear, each agent step with its callback, consumption at any moment) keeps the invariant tying ids, handles, registrations and the mirror to the two real queues |
| `QueueRefinement.CountsAgree` | `src-tauri/src/core/agent_session.rs:190-203` | over every run that drops no pending message, promotions included: as many pending messages of each kind as that queue holds plus the enqueue in flight; follow-ups agree one by one; as many messages recorded as consumed |
| `QueueTrim.StepCountsIff` | `src-tauri/src/core/agent_session.rs:205-214` | the exact condition for every step: the counts, and with them the whole invariant, still hold if and only if the step is no append that drops a pending message from the full list |
| `QueueTrim.CountsThroughoutIff` | `src-tauri/src/core/agent_session.rs:205-214` | over every run: the counts hold before and after every step if and only if no append drops a pending message |
| `QueueTrim.FullListLosesCount` | `src-tauri/src/core/agent_session.rs:503-523` | a run that meets the condition: eighty messages enqueued and none consumed, then one more |
| `QueueRefinement.BegunIff` | `src-tauri/src/core/agent_session.rs:110-182` | a cancel begins exactly for a pending message with a handle, a promotion exactly for such a message that is a follow-up; the id is registered then, and otherwise nothing happens |
| `QueueRefinement.CancelHitsIffQueued` | `src-tauri/src/core/agent_session.rs:795-842` | over every reachable state the agent finds the message of a running cancel exactly when one of the two real queues still holds it |
| `QueueRefinement.CancelHitsIffShownPending` | `src-tauri/src/core/agent_session.rs:795-842` | where mirror and queues agree, that is exactly when the mirror still shows the message pending |
| `QueueRefinement.PromotionRevivesNothing` | `src-tauri/src/core/agent_session.rs:190-203` | a promoted message consumed before the last lock region stays consumed |
| `QueueRefinement.FinalUnlessOverwritten` | `src-tauri/src/core/agent_session.rs:86-98` | the exact condition: a step changes a final status if and only if it is the last region of a cancel whose message was consumed or cleared after the agent had let it go |
| `QueueRefinement.PromotionMirrorsIff` | `src-tauri/src/core/agent_session.rs:844-903` | the exact condition: an accepted promotion keeps the agreement of mirror and steering queue if and only if the agent puts the entry behind as many steering entries as there are pending steering messages before it in the list |
| `QueueRefinement.LastPlaceMirrorsIff` | `src-tauri/src/core/agent_session.rs:844-903` | the same for an agent that puts promoted entries last: if and only if no pending steering message stands behind the promoted one in the list, which a caller can see before the call |
| `QueueRefinement.StepExactIff` | `src-tauri/src/core/agent_session.rs:744-921` | the exact condition for every step of the protocol: it keeps mirror, queues and record in message-by-message agreement if and only if it is no accepted promotion, or one that lands there |
| `QueueRefinement.ExactThroughoutIff` | `src-tauri/src/core/agent_session.rs:744-921` | over every run: the agreement holds before and after every step if and only if every accepted promotion lands |
| `QueueRefinement.NoPromotionsLand` | `src-tauri/src/core/agent_session.rs:744-842` | in particular for every run that promotes nothing |
| `QueueRefinement.MirrorRefinesQueues` | `src-tauri/src/core/agent_session.rs:744-921` | main result, over every run whose accepted promotions land: the pending messages of each kind, in list order, are the real queue followed by the enqueue in flight, and what was recorded is what the agent consumed, in order and once each |
| `QueueRefinement.FinalStaysFinal` | `src-tauri/src/core/agent_session.rs:86-98` | after such a run no step changes a final status |
| `QueuePromotion.PromotionMayMixUpMessages` | `src-tauri/src/core/agent_session.rs:844-903` | a concrete run with one promotion that does not land, after which the record names the wrong message as consumed and a final status is about to be overwritten |
| `QueueCancels.CancelsAreConfluent` | `src-tauri/src/core/agent_session.rs:795-842` | for any set of pending messages of mixed kinds, every interleaving of the regions and callbacks of their cancels ends with exactly those cancelled, everything else unchanged and no id registered |
| `QueueCancels.WaitingCancelSucceeds` | `src-tauri/src/core/agent_session.rs:110-141` | at every point of such an interleaving a cancel that has not begun finds its message pending with its handle, so its first region is not refused |
| `QueueCancels.CancelsNeverFallBack` | `src-tauri/src/core/agent_session.rs:402-420` | at every callback of such an interleaving a registered id of the right kind pays, so the first-in-first-out fallback is never used |
| `HistoryConvert.BuildTimeline` | `src-tauri/src/core/agent_session_history.rs:43-136` | phase 1 holds one entry for each row that leaves a trace, under that row's key |
| `HistoryConvert.IndexRows` | `src-tauri/src/core/agent_session_history.rs:160-169` | the index leads from each row's position to its entry |
| `HistoryConvert.MergeCall` | `src-tauri/src/core/agent_session_history.rs:223-251` | a merged call edits exactly its row's entry and adds one result behind it |
| `HistoryConvert.PlaceStandalone` | `src-tauri/src/core/agent_session_history.rs:255-312` | a standalone call joins the one assistant message at its position or founds it, and adds one result |
| `HistoryConvert.InsertCalls` | `src-tauri/src/core/agent_session_history.rs:138-314` | phase 2 turns the table of rows into the table of rows and calls, for every list of calls |
| `HistoryConvert.FoldThinking` | `src-tauri/src/core/agent_session_history.rs:319-361` | phase 4 is `Fold`: pending thinking goes to the next assistant message and is dropped at any other message |
| `HistoryConvert.ConvertHistoryMessages` | `src-tauri/src/core/agent_session_history.rs:31-362` | main result: the four imperative phases compute the closed form `Reconstruct`, position by position |
| `HistoryTimeline.SortRepresents` | `src-tauri/src/core/agent_session_history.rs:316-317` | sorting by key changes the order and nothing else, and the keys come out strictly increasing |
| `HistoryTimeline.SortedUnique` | `src-tauri/src/core/agent_session_history.rs:383-428` | keys are pairwise distinct, so the sorted timeline is the only sorted one with those entries |
| `HistoryConvert.LayoutRepresents` | `src-tauri/src/core/agent_session_history.rs:364-381` | the closed form lists exactly the entries of the table, in key order, with at most one standalone assistant message at each position |
| `HistoryPairing.CallsConservedAndPaired` | `src-tauri/src/core/agent_session_history.rs:151-317` | main result, for all rows and calls: the ids of calls held, of results given and of completed calls are the same multiset, and each result comes after the message holding its call |
| `HistoryPairing.AdjacentIffUnmixed` | `src-tauri/src/core/agent_session_history.rs:180-313` | the exact condition: only tool results stand between an assistant message and any result of its calls if and only if no standalone insert position is also a merge target |
| `HistoryShape.ToolUseIffCalls` | `src-tauri/src/core/agent_session_history.rs:223-296` | an assistant message stops for tool use if and only if it holds a tool call |
| `HistoryShape.ThinkingAttached` | `src-tauri/src/core/agent_session_history.rs:323-361` | each assistant message is prefixed by exactly the thinking between the previous message of the sorted timeline and it, in order; other messages get none |
| `HistoryShape.ThinkingNotShared` | `src-tauri/src/core/agent_session_history.rs:323-361` | no thinking block is attached twice or across a message |
| `HistoryShape.ProjectionRecoversRows` | `src-tauri/src/core/agent_session_history.rs:57-136` | for every list of calls, removing tool results, calls and thinking gives back the rows' own messages in their order |
| `HistoryShape.EarlyAndLateCall` | `src-tauri/src/core/agent_session_history.rs:176-187` | for every reply and two calls of its run, one started before it was stored and one after, the transcript is: the reply with the late call, the early call's own message, the early result, the late result |
| `HistoryPlacement.PlaceIff` | `src-tauri/src/core/agent_session_history.rs:180-219` | the exact condition on the rows alone: a call joins the row that is a text reply with a text, the last of its run before the first row of the run not older than the call, with no reasoning of the run in between; without one it stands alone at that first row |
| `HistoryPlacement.RowHolds` | `src-tauri/src/core/agent_session_history.rs:223-232` | a reply row's message is its text followed by exactly the completed calls that belong to the row, in the order of the calls table |
| `HistoryPlacement.HeldIffBelongs` | `src-tauri/src/core/agent_session_history.rs:201-232` | of calls with ids of their own, a completed one is held by a reply row's message if and only if it belongs to the row |
| `HistoryPlacement.CallBehindReasoning` | `src-tauri/src/core/agent_session_history.rs:209-219` | the whole transcript of a reply, reasoning and a later call of one run, for all texts: the call goes to the reasoning, not into the reply |
| `HistoryPlacement.CallBehindReply` | `src-tauri/src/core/agent_session_history.rs:223-251` | the whole transcript of a reply and a later call with nothing in between: one message holds both, then the result |
| `HistoryPlacement.CallAlone` | `src-tauri/src/core/agent_session_history.rs:288-312` | the whole transcript of one call: its id, tool and input, and its output, whole up to 20,480 characters, else cut and noted, or `[no output]` |
| `HistoryPlacement.RowAloneIs` | `src-tauri/src/core/agent_session_history.rs:57-136` | the whole transcript of one row, for every role, type and text |
| `RunManager.AgentRunManager.EnsureStreamingMessage` | `src-tauri/src/core/agent_run_event_handler.rs:708-754` | an open pointer is reused; otherwise one streaming row appears under the requested id, or the insert fails and nothing changes |
| `RunManager.AgentRunManager.EnsureReasoningMessage` | `src-tauri/src/core/agent_run_event_handler.rs:756-816` | another block's row is completed first; a taken id is an insert error that leaves no pointer |
| `RunManager.AgentRunManager.CompleteActiveReasoning` | `src-tauri/src/core/agent_run_event_handler.rs:818-839` | the pointer is cleared and its row completed |
| `RunManager.AgentRunManager.HandleDelta` | `src-tauri/src/core/agent_run_event_handler.rs:271-276` | the delta is appended to the row the pointer stands at, whatever id the event names |
| `RunManager.AgentRunManager.HandleCompleted` | `src-tauri/src/core/agent_run_event_handler.rs:277-307` | a non-empty final text replaces the content, the row is completed and the pointer moves to the last completed message |
| `RunManager.AgentRunManager.HandleReasoning` | `src-tauri/src/core/agent_run_event_handler.rs:321-351` | the block's row holds the whole text so far; its metadata is replaced as a whole |
| `RunManager.AgentRunManager.Finish` | `src-tauri/src/core/agent_run_event_handler.rs:841-984` | both pointed rows and the run's and thread's status are settled; the run stays in the map |
| `RunManager.AgentRunManager.HandleRuntimeEvent` | `src-tauri/src/core/agent_run_event_handler.rs:234-551` | one event handled to its end or its first error, for active and ended runs alike; `EventRecords` says what is on record then |
| `RunManager.AgentRunManager.RegisterRun` | `src-tauri/src/core/agent_run_manager.rs:217-243` | the guard: an active run of the thread is an error and nothing changes, else the run is registered with nothing pointed at |
| `RunManager.AgentRunManager.RemoveActiveRun` | `src-tauri/src/core/agent_run_manager.rs:944-954` | exactly the run leaves the map |
| `RunManager.AgentRunManager.MarkCancellationRequested` | `src-tauri/src/core/agent_run_manager.rs:82-90` | a run is marked if and only if the thread has one, and it is a run of that thread |
| `RunManager.AgentRunManager.FinalizeRun` | `src-tauri/src/core/agent_run_event_handler.rs:73-94` | the two status rows the end of a compact run writes |
| `Lifecycle.HandleSound` | `src-tauri/src/core/agent_run_event_handler.rs:234-551` | any event of any run, with any ids in it, keeps the state sound and touches no other run |
| `Lifecycle.StepKeeps` | `src-tauri/src/core/agent_run_manager.rs:217-326` | every step of starting, rolling back, handling, cancelling, clearing and compacting keeps the invariant |
| `Lifecycle.EveryReachableStateIsSound` | `src-tauri/src/core/agent_run_compaction.rs:197-222` | main result, over every run of steps with fresh run ids: each thread has at most one active run, its pointers are rows of its own, and no other row of it is streaming |
| `Lifecycle.FinishingSettles` | `src-tauri/src/core/agent_run_event_handler.rs:445-464` | each of the five finishing events succeeds for an active run, takes exactly it out of the map, leaves none of its rows streaming and gives its two rows and its status rows the exact final values |
| `RunOutcomes.EventRecords` | `src-tauri/src/core/agent_run_event_handler.rs:119-136` | for every event of an active run, value by value: the status on record for the run and the status shown for its thread, cancelled and idle for an interruption after a cancel mark, interrupted without one |
| `RunOutcomes.EventEnds` | `src-tauri/src/core/agent_run_event_handler.rs:137-149` | for every event, by name: whether the run is over and whether its reasoning block is; thread and cancel mark stay |
| `RunOutcomes.FailsIff` | `src-tauri/src/core/agent_run_event_handler.rs:271-378` | for an active run an event fails exactly when it needs a row under an id that is taken |
| `RunOutcomes.SecondEndIs` | `src-tauri/src/core/agent_run_event_handler.rs:239-246` | for a run that is over an event that ends runs is no error and changes nothing |
| `RunOutcomes.GuardIs` | `src-tauri/src/core/agent_run_manager.rs:217-243` | the guard of a start, value by value: an active run of the thread is an error and changes nothing; otherwise the run is there, with nothing pointed at and no cancel |
| `RunOutcomes.FinalizeRecords` | `src-tauri/src/core/agent_run_event_handler.rs:73-94` | for each status a compact run can end with: what is on record and what is shown |
| `RunOutcomes.MarkedIff` | `src-tauri/src/core/agent_run_manager.rs:82-90` | over every run of steps: a run still active is marked if and only if it was, or a cancel has marked it since |
| `RunOutcomes.InterruptedIsCancelledIff` | `src-tauri/src/core/agent_run_event_handler.rs:128-132` | over every run of steps: an interrupted run is on record as cancelled, its thread idle, if a cancel has marked it; otherwise both say interrupted |
| `RunOutcomes.CompletedRowIs` | `src-tauri/src/core/agent_run_event_handler.rs:277-299` | the row of a completed message: a non-empty text replaces what was streamed, a turn replaces all metadata |
| `RunOutcomes.ReasoningRowIs` | `src-tauri/src/core/agent_run_event_handler.rs:321-350` | the row of a reasoning update: the text replaces the old one, a signature or a turn replaces all metadata |
| `RunOutcomes.UserRowIs` | `src-tauri/src/core/agent_run_event_handler.rs:351-378` | a user message taken from a queue becomes one completed row of no run, unless its id is taken |
| `Lifecycle.CheckpointSettlesNothing` | `src-tauri/src/core/agent_run_event_handler.rs:439-444` | a checkpoint ends the run but settles no row: nothing is left streaming if and only if neither pointer stood at a streaming row |
| `Lifecycle.FinishedRunsAbsorb` | `src-tauri/src/core/agent_run_event_handler.rs:239-251` | after the finishing event any sequence of later events without the three restarting ones leaves the whole state as it was |
| `Lifecycle.LateEventChangesIff` | `src-tauri/src/core/agent_run_event_handler.rs:259-270` | the exact condition: one late event changes the state if and only if it restarts a status that is not already running |
| `Lifecycle.RowsOfEndedRunsAreFinal` | `src-tauri/src/core/agent_run_event_handler.rs:308-320` | over every later run of steps a row of an ended run changes only by a discard that names it |
| `Lifecycle.EndedStatusChangesIff` | `src-tauri/src/core/agent_run_manager.rs:551-590` | the exact condition: a step changes how an ended run is on record if and only if it is a restart event, a late cancel mark, a plan outcome or the end of a compact run of that very run and writes another status |
| `Lifecycle.EndedStatusIs` | `src-tauri/src/core/agent_run_manager.rs:551-590` | the complete law over every later run of steps: an ended run is on record as the last such step says, or as it ended |
| `Lifecycle.ThreadStatusStep` | `src-tauri/src/core/agent_run_event_handler.rs:259-464` | the complete law of one step: a thread is shown as the events of its active run, the end of a compact run or a direct write say, or as before |
| `Lifecycle.ForeignStatusChangesIff` | `src-tauri/src/core/agent_run_event_handler.rs:73-94` | the exact condition: a step not of the active run of a thread changes what the thread is shown as if and only if it is a direct write or the end of a compact run of the thread, and shows something else |
| `LifecycleTraps.LateCancelMark` | `src-tauri/src/core/agent_run_manager.rs:555-562` | from any sound state, by steps the system can take: a cancel whose mark lands before and whose status write lands after the finishing event leaves the ended run on record as cancelling |
| `LifecycleTraps.CompactSettledTwice` | `src-tauri/src/core/agent_run_compaction.rs:334-481` | from any sound state, by steps the system can take: a cancelled compact run is settled again when its task ends, and the thread is shown as ended although another run is active on it |
| `LifecycleTraps.CheckpointedReplyStreamsOn` | `src-tauri/src/core/agent_run_event_handler.rs:439-444` | a reply streaming at a checkpoint is still streaming after every later run of steps unless a discard names it |
| `Streaming.StreamTranslator.EnsureMessageId` | `src-tauri/src/core/agent_session_events.rs:328-336` | the open id, or a fresh one that becomes it |
| `Streaming.StreamTranslator.TakeOrCreateMessageId` | `src-tauri/src/core/agent_session_events.rs:338-344` | the open id, or a fresh one; none is open afterwards |
| `Streaming.StreamTranslator.EmitUsageIfChanged` | `src-tauri/src/core/agent_session_events.rs:255-300` | usage is reported if and only if it differs from the last report and is not all zero |
| `Streaming.StreamTranslator.ApplyUpdate` | `src-tauri/src/core/agent_session_events.rs:50-170` | each message update, and whether it returned before the usage report |
| `Streaming.StreamTranslator.HandleAgentEvent` | `src-tauri/src/core/agent_session_events.rs:10-253` | one agent event: the new cells and the events sent, in order |
| `StreamingReports.SentIs` | `src-tauri/src/core/agent_session_events.rs:10-253` | the events of each agent event, value by value and in the order they leave: a usage report comes last behind an update and first at an end |
| `StreamingReports.UsageReportedIff` | `src-tauri/src/core/agent_session_events.rs:255-300` | usage is reported, once, exactly when the event carries one that is not all zero and not the one reported last |
| `StreamingReports.CompletedUnderLastTurn` | `src-tauri/src/core/agent_session_events.rs:203-241` | over every run a completed message is sent under the turn of the last update before its end |
| `StreamingSync.DeltaEffect` | `src-tauri/src/core/agent_run_event_handler.rs:271-276` | a delta changes the row the pointer stands at, or opens the row it names, and no other but the reasoning row it completes |
| `StreamingSync.CompletedEffect` | `src-tauri/src/core/agent_run_event_handler.rs:277-307` | the same for a completed message |
| `StreamingSync.LastCompletedIsFindable` | `src-tauri/src/core/agent_run_event_handler.rs:300-307` | tools running after a completed message find it as the last completed one |
| `StreamingSync.OpenedReplyForgets` | `src-tauri/src/core/agent_run_event_handler.rs:749-753` | opening another reply, and nothing less, clears the last completed one |
| `StreamingSync.ForeignEffect` | `src-tauri/src/core/agent_run_event_handler.rs:259-443` | events of other senders leave every reply row and the streaming pointer alone |
| `StreamingSync.AgentStepKeeps` | `src-tauri/src/core/agent_session_events.rs:51-241` | one agent event, whichever it is, translated and drained, keeps translator, handler and transcript in step |
| `StreamingPipeline.DrainedRowsAreTheTranscript` | `src-tauri/src/core/agent_run_event_handler.rs:708-754` | main result, over every interleaving of agent events, other senders and deliveries: once the channel is drained the run's reply rows are entry by entry the transcript of the agent events, there are no others, and the handler points at the open reply, under the translator's current id if and only if that reply is the message's own |
| `StreamingPipeline.CompletedRowShowsFinalText` | `src-tauri/src/core/agent_session_events.rs:184-241` | after every non-empty end of every run the last reply row shows exactly the final text; the translator takes that row for the completed one if and only if the open reply was the message's own |
| `StreamingPipeline.ClosedRepliesAreFinal` | `src-tauri/src/core/agent_session_events.rs:242-250` | a reply once closed keeps its text for good, and only a discard changes its status |
| `StreamingPipeline.RetriedTextIsDiscarded` | `src-tauri/src/core/agent_session_events.rs:77-112` | text streamed before a request retry lies, for good, in a discarded reply nothing is added to; a reply that the message only goes on in stays open and as it was |
| `StreamingPipeline.StreamedTextIsTheDeltas` | `src-tauri/src/core/agent_session_events.rs:51-76` | the text of a message is its deltas in order without consecutive repeats, the first never dropped, in a reply of its own or behind the text of one left open |
| `StreamingEnd.EndedRunShowsTheTranscript` | `src-tauri/src/core/agent_run_event_handler.rs:439-464` | main result, for every run of the pipeline up to a run-ending event sent behind anything still undelivered, and every sequence of moves after it: the drained rows are the transcript with its open reply completed, or failed when the run failed, or left streaming by a checkpoint; no later event from any sender adds or changes a row |
| `StreamingReasoning.ThinkingAccumulates` | `src-tauri/src/core/agent_session_events.rs:116-130` | for every run of the pipeline, whatever else is sent or delivered in between: one row shows the deltas of a block in order up to the first event that completes reasoning, and is completed by it; without one it shows all of them and is still streaming |
| `StreamingReasoning.ThinkingEnds` | `src-tauri/src/core/agent_session_events.rs:131-168` | after the end the row shows exactly the final thinking and its signature, unless the end is blank or the block was cut off before, when the row stays as it was; the translator is at no block |
| `StreamingSync.AgreesIff` | `src-tauri/src/core/agent_session_events.rs:328-344` | the exact condition, at every point of every run: the handler's pointer is the translator's current id if and only if the open reply, when there is one, is that of the message the translator is at |
| `StreamingLimits.InSyncIff` | `src-tauri/src/core/agent_session_events.rs:203-217` | the exact condition for every agent event: handler and translator at the same reply stay so if and only if it does not end a streamed message with empty text; parted, they meet again if and only if it ends a message with text |
| `StreamingLimits.AgreesThroughoutIff` | `src-tauri/src/core/agent_session_events.rs:203-217` | over every run from a point where they agree: they agree after every move if and only if no message streams text and ends empty |
| `StreamingLimits.NeverPartsIff` | `src-tauri/src/core/agent_session_events.rs:203-217` | the same from the start of a run, as a condition on the agent events alone |
| `StreamingLimits.EmptiedEndMergesMessages` | `src-tauri/src/core/agent_session_events.rs:203-217` | after such an end the next message is written into the old row and a retry of it discards nothing |
| `StreamingLimits.ReasoningStoredIff` | `src-tauri/src/core/agent_run_event_handler.rs:756-816` | the exact condition: a reasoning update is stored if and only if the pointer stands at its row or no row has its id |
| `StreamingLimits.InterruptedReasoningIsLost` | `src-tauri/src/core/agent_run_event_handler.rs:1051-1068` | any event of another sender that completes reasoning, between two updates of one block, completes the row and loses the second update |
| `Summary.GapKeepsHeadAndTail` | `src-tauri/src/core/agent_run_summary.rs:669-686` | with a gap, a prefix and a disjoint suffix survive around a marker giving exactly the number of characters between them |
| `Summary.HeadTailLength` | `src-tauri/src/core/agent_run_summary.rs:655-687` | the exact length of a truncated tool result in each of its branches |
| `Summary.HeadTailFitsIff` | `src-tauri/src/core/agent_run_summary.rs:655-687` | the exact condition: it exceeds the limit if and only if at least 100,000,000 characters are left out |
| `Summary.KeepTailIsTail` | `src-tauri/src/core/agent_run_summary.rs:691-709` | the budget is used exactly and what is kept is the end of the text |
| `Summary.RenderCompactSummaryHistory` | `src-tauri/src/core/agent_run_summary.rs:572-645` | the packing loop computes `Packed` |
| `Summary.ChunkAtBudget` | `src-tauri/src/core/agent_run_summary.rs:611-614` | cutting a tool result to the room left never makes a message fit that does not fit at the full cap |
| `Summary.LongestFitIs` | `src-tauri/src/core/agent_run_summary.rs:577-641` | the messages rendered in full start at the earliest point from which the full rendering fits |
| `Summary.PackedIsLongestSuffix` | `src-tauri/src/core/agent_run_summary.rs:572-645` | main result: the rendering is the longest newest suffix that fits, in full, behind the tail of the one message before it, and nothing older |
| `Summary.PackedLength` | `src-tauri/src/core/agent_run_summary.rs:572-645` | the rendering is exactly as long as the full one or the budget, and is the full one when that fits |
| `SummaryRendering.UserRendered` | `src-tauri/src/core/agent_run_summary.rs:583-589` | letter by letter: a user message that fits is `[user]`, its trimmed text or the lines of its blocks, and a blank line; nothing without a text |
| `SummaryRendering.AssistantRendered` | `src-tauri/src/core/agent_run_summary.rs:590-596` | the same for an assistant message |
| `SummaryRendering.ResultRendered` | `src-tauri/src/core/agent_run_summary.rs:597-617` | the same for a tool result with its tool; up to 6,000 characters are given whole |
| `SummaryRendering.CustomRendered` | `src-tauri/src/core/agent_run_summary.rs:618-625` | the same for custom data, with its whitespace collapsed |
| `SummaryRendering.AssistantLine` | `src-tauri/src/core/agent_run_summary.rs:739-765` | what each kind of block contributes: its trimmed text, `[thinking]`, `[tool_call]` with name and input, `[image]`, or nothing |
| `SummaryRendering.UserLine` | `src-tauri/src/core/agent_run_summary.rs:711-732` | the same for the blocks of a user message |
| `SummaryRendering.ResultLine` | `src-tauri/src/core/agent_run_summary.rs:768-782` | the same for the blocks of a tool result |
| `SummaryRendering.AssistantPartsConcat` | `src-tauri/src/core/agent_run_summary.rs:739-765` | the lines of a message are those of its blocks, in their order |
| `SummaryRendering.LinesJoined` | `src-tauri/src/core/agent_run_summary.rs:765` | the lines are joined in order by single line breaks |
| `SummaryRendering.RenderedOneByOne` | `src-tauri/src/core/agent_run_summary.rs:577-645` | of a history that fits, what is rendered is what is rendered of each message alone, in order |
| `SummaryRendering.MiddleCut` | `src-tauri/src/core/agent_run_summary.rs:655-687` | letter by letter, how a long tool result loses its middle in each of the four cases |
| `SummaryRendering.TailKept` | `src-tauri/src/core/agent_run_summary.rs:691-709` | letter by letter, how a message that no longer fits keeps its tail |
| `SummaryBlock.NormalizedIsDetected` | `src-tauri/src/core/agent_run_summary.rs:477-508` | every normalised summary, with or without instructions, is recognised as a prior summary, whole |
| `SummaryBlock.DetectedIff` | `src-tauri/src/core/agent_run_summary.rs:477-508` | the exact condition, letter by letter: a prior summary is detected exactly when the text of a first message from the user begins, behind whitespace, with the start tag and holds the end tag; it is the whole text and covers one message |
| `SummaryBlock.NormalizedIs` | `src-tauri/src/core/agent_run_summary.rs:784-850` | letter by letter: the text from the first start tag to the first end tag behind it; else what follows a start tag, or precedes an end tag, or all of it, between tags of its own |
| `SummaryBlock.InstructedIs` | `src-tauri/src/core/agent_run_summary.rs:784-870` | a blank answer is no summary; instructions follow in tags of their own, blank ones do not |
| `SummaryBlock.ExtractedIsBlock` | `src-tauri/src/core/agent_run_summary.rs:802-816` | what is extracted opens with the start tag and holds the end tag only at its end |
| `SummaryBlock.ExtractedBlockIsFixed` | `src-tauri/src/core/agent_run_summary.rs:784-816` | the block extracted from a normalised summary is a fixed point of normalising |
| `SummaryBlock.InstructionsFollowTheBlock` | `src-tauri/src/core/agent_run_summary.rs:855-870` | instructions are appended whole behind the summary and never change the block extracted later |
| `SummaryBlock.NormalizingIsIdempotentIff` | `src-tauri/src/core/agent_run_summary.rs:784-870` | the exact condition: normalising again with the same instructions changes nothing if and only if the text has no stray end tag (no complete block, an end tag, and only whitespace where the body is looked for) |
| `SummaryBlock.StrayEndExample` | `src-tauri/src/core/agent_run_summary.rs:843-850` | `</context_summary> foo` is such a text |
| `Compression.FindCutPoint` | `src-tauri/src/core/context_compression.rs:329-368` | both loops compute `CutPoint` |
| `Compression.CutPointKeepsExchanges` | `src-tauri/src/core/context_compression.rs:323-368` | something is always kept; a cut keeps the tokens asked for, and the kept part begins neither with a tool result nor with an assistant message that holds a tool call and is followed by a tool result; every later place that keeps enough begins with one of the two |
| `Compression.CutPointMonotone` | `src-tauri/src/core/agent_session_compression.rs:272-279` | keeping more tokens never cuts later, so taking the smaller cut on failure is redundant for keep sizes up to 32,000 |
| `Compression.TruncationRepeats` | `src-tauri/src/core/context_compression.rs:608-647` | every tool result with a text over the limit is cut again by the next pass over it: the same characters stay, and the size it reports is then that of the cut text |
| `Compression.TruncationSettlesIff` | `src-tauri/src/core/context_compression.rs:608-647` | the exact condition, for every message: a second cut changes nothing if and only if the texts over the limit are together as long as what the first cut makes of them |
| `CompressionKept.SummaryPathIs` | `src-tauri/src/core/agent_session_compression.rs:222-281` | for every pass that asks the model: behind the new head each kept message is as it was, except that of a tool result every text over 3,200 characters is cut there and noted; without a usable answer the cut is where 32,000 tokens are kept, if that is earlier, behind a skeleton |
| `CompressionKept.TruncationPathIs` | `src-tauri/src/core/context_compression.rs:407-456` | for every other pass: untouched within the budget; where nothing is cut, or fewer than four messages would be left, the first two thirds of the messages are held to 800 characters and the rest untouched; else cut behind a skeleton |
| `CompressionKept.SummaryIs` | `src-tauri/src/core/agent_session_compression.rs:89-166` | which text stands at the head: the prior summary itself when there is nothing to add, else the normalised answer; a pass succeeds exactly when there is one of the two |
| `Compression.CompressedAgent.Fallback` | `src-tauri/src/core/context_compression.rs:407-456` | the three branches of the truncation path |
| `Compression.CompressedAgent.RunAutoCompression` | `src-tauri/src/core/agent_session_compression.rs:31-356` | a pass replaces the conversation as `AutoCompress` says and records the summary now at the head with its source |
| `CompressionRuns.SuccessfulPassPartitions` | `src-tauri/src/core/agent_session_compression.rs:89-166` | prior summary, raw history given to the model and kept messages are exactly the input, in order, for each of the three ways a pass succeeds |
| `CompressionRuns.FailedPassKeepsMore` | `src-tauri/src/core/agent_session_compression.rs:254-281` | a failed pass keeps at least what a successful one would have, at the cut of the wider window |
| `CompressionRuns.EveryMessageIsAccountedFor` | `src-tauri/src/core/agent_session_compression.rs:222-243` | over every run of appends and passes, successful or not: each message was cut away by exactly one pass or is still there, in order |
| `CompressionRuns.SummarisedAtMostOnce` | `src-tauri/src/core/agent_session_compression.rs:122-166` | over every run no message is raw history of two passes whose summaries are used |
| `CompressionRuns.HeadedIff` | `src-tauri/src/core/agent_session_compression.rs:272-281` | the exact condition, in terms of the conversation and the model's answer: a step leaves the only summary at the head if and only if it is not a pass that has more than that summary to cut, gets no usable answer, and whose wider window covers everything |
| `CompressionRuns.SummariesAreNotSummarised` | `src-tauri/src/core/agent_session_compression.rs:122-127` | over every run without such a pass no summary is ever raw history again |
| `CompressionRuns.BuriedSummaryIsSummarisedAgain` | `src-tauri/src/core/agent_session_compression.rs:272-281` | after such a pass the next one that cuts behind the head gives the old summary to the model as raw history |
| `TextLaws.TrimIs` | `src-tauri/src/core/agent_run_summary.rs:711-732` | trimming takes whitespace off both ends, all of it and nothing else |
| `TextLaws.CollapsedIs` | `src-tauri/src/core/agent_run_title.rs:412-414` | collapsing whitespace leaves the words in order, with one space between two |
| `TextLaws.DecimalIs` | `src-tauri/src/core/agent_run_summary.rs:685` | a count in a note is written with its digits and no leading zero |
| `JsonMerge.Cell.MergeJsonValue` | `src-tauri/src/core/agent_session.rs:1581-1596` | the in-place merge computes `Merge` |
| `JsonMerge.MergeFields` | `src-tauri/src/core/agent_run_manager.rs:985-1000` | the loop over the patch's keys, in whatever order they come |
| `JsonMerge.MergeAt` | `src-tauri/src/core/agent_session.rs:1581-1596` | the complete law: what the merge shows at every path, in terms of what base and patch show there |
| `JsonMerge.PatchLeavesAppear` | `src-tauri/src/core/agent_session.rs:1592-1594` | every value of the patch that is no object appears at its path; `null` overwrites and never deletes |
| `JsonMerge.UntouchedPathsAreKept` | `src-tauri/src/core/agent_session.rs:1583-1591` | what the patch neither reaches nor overwrites is kept |
| `JsonMerge.MergeIsIdempotent` | `src-tauri/src/core/agent_session.rs:1581-1596` | merging the same patch again changes nothing |
| `JsonMerge.AssociativeIff` | `src-tauri/src/core/agent_session.rs:1581-1596` | the exact condition: the two orders of merging three documents agree if and only if nowhere a non-object lies between two objects of which the first holds a field the last does not |

## Left out

- QueueRefinement.MirrorRefinesQueues: stated for client calls that do not overlap and with no pending message trimmed, because then even the counts fail (`CountsThroughoutIff`); for runs with a promotion that does not land `CountsAgree` holds instead, because the stronger claim is then false (`ExactThroughoutIff`).
- QueueCancels.CancelsAreConfluent: overlapping client calls other than cancels are not modelled.
- Compression.FindCutPoint: token sums are unbounded, so overflow of the 32-bit accumulator is not modelled.
- HistoryConvert.ConvertHistoryMessages: the standard library's stable sort is an insertion sort here; keys are distinct, so the result is the same.
- The content shown for a consumed queue message may come from its metadata; the recorded text here is the message's own.
- Queue snapshots, the remaining fields of queue events, and usage columns of runs: projections of modelled state.
- Parsing of row metadata, attachments, media types and plan text into the blocks a row stands for.
- `trim_history_to_current_context` and the resolution of boundary ids: they depend on queries that are not part of this model.
- A panic while replacing the agent's messages after a pass, and persisting markers when the session is gone.
- The character budget offered to the summary model, prompts, timeouts, abort racing and the calls themselves.
- Goals, task boards, helper convergence, titles, the sleep flag, plan messages (only the run status a plan's outcome writes is a step here) and app-wide notifications.
- SQL, the channel's implementation, model selection, sub-agents, tools, Git, terminals, settings and the user interface.
