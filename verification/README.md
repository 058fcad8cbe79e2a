# The HR funnel, proved

A Dafny model of the parts of the service where a wrong step reaches a candidate: the LangGraph
funnel and its runs of turns, the campaign sequence, the outbound send queue, the inbound queue with
its restarts, the quiet window before a turn, the scheduling of reply groups, the dialogue parser and
the merging of knowledge cards. Verify everything with `dafny verify dfyconfig.toml`.

Code that changes state step by step is modelled as classes and loops; each method is proved equal to
a function of the old state, and the promises are then proved about those functions, over every run.

| files | part of the service |
|---|---|
| `FunnelPolicy`, `FunnelGraph`, `FunnelRuns`, `FunnelVoicePacks` | stage table, the two loops over completed stages, controller, executor, persisting and superseding, voice packs |
| `FunnelFacts` | where every turn ends and what it sends, read off the profile's fields and the turn's input |
| `ReplyGroup`, `ReplyParts` | actions of one reply: numbering, group size, delays, packs, what follows |
| `CampaignSequence`, `CampaignService` | the six ways a campaign run moves, as functions and as a class |
| `CampaignJobs`, `CampaignSafety`, `CampaignProgress` | what every campaign run keeps, and how it gets on |
| `OutboundQueue`, `OutboundRuns`, `OutboundWorker` | one send job, runs of claims and attempts, and the worker over its rows |
| `OutboundAttempts`, `OutboundPacing`, `OutboundBackoff`, `OutboundLeases` | what every run of the outbound queue keeps |
| `OutboundOutcomes` | what becomes of a job, and when it is tried |
| `InboundQueue`, `InboundWorker`, `InboundOutcomes` | one claimed batch, restarts inside it, counters, and what each event comes to |
| `TurnBuffer` | quiet window, releases, deferrals |
| `Dialogues`, `DialogueParts` | speaker runs, splitting |
| `DialoguePasses`, `DialogueParser`, `DialogueReading` | the parser as two passes and as it runs, and what it makes of each line |
| `KnowledgeRank` | merging and reranking |

## What the model takes as given

- The analyzer's result, the reply and all texts of a turn are arbitrary inputs. A reply message is a
  text, a voice pack or anything else, because its type field is a plain string
  (app/services/funnel_graph/reply.py:48-56). Question wordings are a function from stages to texts.
- A LangGraph thread with a checkpointer supplies on its next run the channels that the initial state
  does not name: `current_state` and `handoff_required`. `load_state` prefers `current_state` to the
  stage read from the runtime row. The checkpointer is a parameter; it is on by default.
- Random ids for Telegram differ between jobs; the receiver drops an id it has seen; a call without an
  error reached it. One handler at a time works on a job, its writes are kept, and a claim is atomic.
- In the outbound and quiet-window runs the clock does not go backwards. Times are whole seconds.
- Positions of a campaign's steps are distinct (migrations/versions/0009_campaigns_sequences_outbound_jobs.py:67).
  app/services/lead_intake.py:92-102 starts only new runs; the campaign results say what other starts do.
- In the outbound runs nobody but the worker writes an account's timing; app/services/account_sync.py:91-95, which
  clears an expired flood_wait_until, is outside the model.
- Inbound messages of one dialog have ids and (sent_at, created_at) pairs of their own; sent_at is never missing, as the
  column demands (app/models/message.py:20, migrations/versions/0001_create_base_tables.py:105).

## What the proofs found

- **A superseded run is not forgotten** when the checkpointer is on: the thread keeps the stage and the
  handoff flag of the discarded result, so the next turn starts from a stage nobody was told about, and a
  voice pack can be lost for good. docs/langgraph_funnel_foundation.md:9 calls the runtime row the source
  of truth; the code prefers the thread. `SupersededIsForgottenIff` says for which inputs nothing is
  remembered, `PacksExactIff` when no pack is lost; `SupersededTurnLosesPack` is a run that loses the first pack.
- **The next question can be missing**: if the reply mentions it only in a message that is not a text,
  the controller does not add it. `NextQuestionAsked` gives the exact condition, `ShadowedQuestionIsLost`
  an input.
- **A reply can carry a voice pack itself**, so a pack can be sent without being recorded:
  `ReplyCanSendPack`. `EachPackSentOnceIff` says exactly when every pack is still sent exactly once.
- **Starting a campaign run a second time can skip a reply that is still awaited**:
  `SecondStartSkipsTheReply`. `ReplyFirstIff` says, over whole runs, exactly which starts do. After a
  start under way a reply can take the run back over a message that has its job: `TakenBackOverAMessage`. Jobs reach up
  to the furthest position in every run, and up to the current one exactly as `JobsUpToCurrentIff` says.
- **Typing recorded late shortens the quiet window**: the stored time is the one the event carries, and
  the later `prepare_inbound_turn` overwrites the end of the window. `TypingWindowKeptIff` says when the
  window counted from the recording is kept.
- **A dead-lettered job can be counted as a retry**: the flood-wait handler adds to the retry counter also when
  no attempt is left. `DeadLettersCountedIff` says exactly when dead_letter counts all such rows.
- **The controller's second transition check never fires**: the target is turned down only from a
  terminal stage or an action stage, and no turn starts in an action stage (`TurnedDownExactly`).

## Model

| member | source | states |
|---|---|---|
| FunnelPolicy.NextClimbs | app/services/funnel_graph/funnel_policy.py:291-331 | from every non-terminal stage whose requirement is met, the next stage lies strictly higher in one fixed order and the table allows the edge; interview_day_check leads to interview_time_check exactly if the day is confirmed, otherwise to interview_custom_time |
| FunnelPolicy.AdvanceThroughCompletedWaitingStages | app/services/funnel_graph/graph.py:374-386 | the loop with its `seen` guard ends where the guard-free recursion ends, and a waiting stage it ends in is incomplete |
| FunnelPolicy.CanTransitionViaCompletedStages | app/services/funnel_graph/graph.py:389-404 | the loop with its `seen` guard decides exactly the recursive acceptance |
| FunnelPolicy.LoopsAgree | app/services/funnel_graph/graph.py:257-283 | for every profile and completed waiting stage, the target found by advancing is accepted by the other loop |
| FunnelPolicy.AcceptedExactlyByChain | app/services/funnel_graph/graph.py:389-404 | a target is accepted if and only if a chain of allowed edges leads to it on which every hop but the last leaves a completed stage for the one its policy names |
| FunnelPolicy.ReachedIsAbove | app/services/funnel_graph/graph.py:389-404 | acceptance over completed stages never leads down: the target is terminal or strictly higher |
| FunnelGraph.StateController | app/services/funnel_graph/graph.py:236-371 | the controller, branch by branch, computes target, refusal, profile, reply flag, messages and handoff flag as the specification gives them |
| FunnelGraph.ChoiceSteps | app/services/funnel_graph/graph.py:246-272 | choosing one step and then running the advance loop picks the target that the one-pass definition picks |
| FunnelGraph.TurnedDownExactly | app/services/funnel_graph/graph.py:273-283 | the two validity checks together turn a target down exactly when the conversation is closed and would move, or sits in an action stage it cannot leave; the requirement check alone never fires |
| FunnelGraph.ActionExecutor | app/services/funnel_graph/graph.py:436-494 | the executor's list building and in-place patching send exactly the specified messages and leave the specified state |
| FunnelGraph.RunGraph | app/services/funnel_graph/graph.py:64-64 | the controller followed by the executor is one turn of the specification |
| FunnelGraph.CombinedEndsWithQuestion | app/services/funnel_graph/graph.py:595-600 | a text combined with a question begins with the stripped text, closed as a sentence exactly if it was not, and ends with the question after one space; without text it is the question |
| FunnelGraph.NextQuestionAsked | app/services/funnel_graph/graph.py:285-304 | a turn that ends in a different waiting stage with replies on sends that stage's question if and only if the reply does not shadow it; reached directly or through an action stage |
| FunnelGraph.ShadowedQuestionIsLost | app/services/funnel_graph/graph.py:296-304 | a turn that reaches age_check without asking its question |
| FunnelRuns.LangGraphFunnelGateway.DecideForDialogMessage | app/services/funnel_graph/gateway.py:38-80 | a turn moves runtime, thread and outbox by one step; a superseded one changes neither runtime nor outbox |
| FunnelRuns.LangGraphFunnelGateway.RestartForDialog | app/services/funnel_graph/gateway.py:115-164 | a restart is one step from the fresh state, whatever went before |
| FunnelRuns.TurnMoves | app/services/funnel_graph/graph.py:246-283 | a turn starting in a resting stage ends in a resting stage, higher or the same, with the status of that stage; a closed conversation stays where it is |
| FunnelRuns.LeftOnlyWhenComplete | app/services/funnel_graph/graph.py:257-283 | a stage left for anything but a refusal or a requested handoff was complete, and so was every waiting stage passed over |
| FunnelRuns.RunIsSound | app/services/funnel_graph/gateway.py:310-354 | in every run the persisted stage and the thread's stage are resting stages, the persisted status is the one of the stage, and the thread is never behind the runtime |
| FunnelRuns.StageOnlyClimbs | app/services/funnel_graph/graph.py:246-283 | between restarts the stage never moves down, terminal stages are never left, and no turn ends in an action stage |
| FunnelRuns.AtMostElevenChanges | app/services/funnel_graph/funnel_policy.py:51-256 | every run, however long, changes stage at most eleven times |
| FunnelRuns.ElevenChangesHappen | app/services/funnel_graph/graph.py:257-283 | the bound of eleven is reached |
| FunnelRuns.CompletedOnTheWay | app/services/funnel_graph/funnel_policy.py:295-331 | every waiting stage below the stage reached was complete under the profile of the very turn that took the conversation past it (for human_handoff: unless a reply asked for it in a turn that counted on the open conversation) |
| FunnelRuns.HandoffHasATime | app/services/funnel_graph/funnel_policy.py:295-322 | human_handoff that no reply asked for on the open conversation was reached by a turn with an agreed time |
| FunnelRuns.AdultsOnly | app/services/funnel_graph/funnel_policy.py:295-322 | in an open conversation beyond age_check, the turn that passed it had age confirmed and at least 18 |
| FunnelRuns.QuietTurns | app/services/funnel_graph/graph.py:246-283 | a turn leaves stage and handoff flag alone if and only if nothing in its input moves the conversation: no refusal, no handoff and no completed stage in an open one, no new handoff request in a closed one |
| FunnelRuns.SupersededIsForgottenIff | app/services/funnel_graph/gateway.py:69-80 | a superseded turn sends and persists nothing, and the next turn starts as if it had never run if and only if there is no checkpointer or the turn's input was quiet in that sense |
| FunnelFacts.RequirementIsTheTable | app/services/funnel_graph/funnel_policy.py:51-322 | the requirement tested stage by stage is that all required fields of the stage's table entry are given, with an age of at least 18 at age_check and any interview day at interview_day_check |
| FunnelFacts.EdgesFollowTheOrder | app/services/funnel_graph/funnel_policy.py:51-292 | the table's edges are exactly: an action stage to the stage behind it, a final stage to itself, any other to itself, the three endings and the next stage, and from interview_day_check also interview_custom_time |
| FunnelFacts.WhereTurnsEnd | app/services/funnel_graph/graph.py:246-283 | where every turn of an open conversation ends: a refusal, then a handoff decides; otherwise it stays, or goes on over complete stages to the first that is incomplete or has something to send, one place only if something is left unanswered |
| FunnelFacts.DayDecidesTheTime | app/services/funnel_graph/funnel_policy.py:325-331 | in every run a conversation at interview_time_check was taken there by a turn with the interview day confirmed, one at interview_custom_time by a turn with another day and no confirmation |
| FunnelFacts.FactsOnTheWay | app/services/funnel_graph/funnel_policy.py:295-331 | in every open run each waiting stage below the current one had its required fields given in the very turn that passed it |
| FunnelFacts.StatusTells | app/services/funnel_graph/graph.py:537-542 | in every run the persisted status is handoff exactly at human_handoff and closed exactly at lost and do_not_contact |
| FunnelFacts.FactsReplaceWhatWasKnown | app/services/funnel_graph/graph.py:236-246 | field by field, what the analyzer found replaces what was known and what it did not find stays; only the smalltalk stage marks smalltalk as done |
| FunnelFacts.WhatATurnSends | app/services/funnel_graph/graph.py:285-304 | the messages of every turn of an open conversation by where it ends: nothing to who asked not to be contacted, deliveries even with replies off, otherwise the reply with a closing text, the handoff text, the current or the next question where one is missing |
| FunnelFacts.ClosedConversationsStay | app/services/funnel_graph/graph.py:273-304 | a closed conversation stays; a turn that asks for another ending says nothing, any other says what the reply says or repeats the closing text |
| FunnelFacts.ActionStagesAreRun | app/services/funnel_graph/graph.py:436-494 | a conversation kept at an action stage, also the one of the older funnel, runs that action and asks the next question |
| FunnelFacts.RecordsGrow | app/services/funnel_graph/graph.py:445-470 | packs and templates recorded as sent stay recorded in order, and a turn records at most one of each, last |
| FunnelFacts.HandoffIsRemembered | app/services/funnel_graph/graph.py:337-367 | a handoff is required after a turn if and only if it was before, the reply asks for one or the turn ends at human_handoff |
| FunnelFacts.NextTurnStartsFrom | app/services/funnel_graph/gateway.py:301-354 | in every run the next turn starts from all that the last one left, or, if that was superseded, from what was kept before, with stage and handoff flag of the superseded turn only with a checkpointer |
| FunnelFacts.NothingIsKnownAtFirst | app/services/funnel_graph/gateway.py:115-164 | after a restart the conversation is at interest_check with no field given, nothing recorded and no handoff required |
| FunnelVoicePacks.AdvanceStopsAtPacks | app/services/funnel_graph/graph.py:374-386 | the advance loop never jumps over an action stage |
| FunnelVoicePacks.PackDueIsSent | app/services/funnel_graph/graph.py:257-283 | the pack of the action stage a turn runs can be read off its input: which stage it completes, and whether anything is left unanswered |
| FunnelVoicePacks.PacksExactIff | app/services/funnel_graph/gateway.py:69-80 | in every open run `sent_voice_packs` is exactly the packs of the action stages below the current stage if and only if no pack was due at a checkpointed superseded turn |
| FunnelVoicePacks.ControllerAddsNoPack | app/services/funnel_graph/graph.py:285-304 | the packs among the controller's messages are those of the reply, or none when the reply is not passed on |
| FunnelVoicePacks.PacksSent | app/services/funnel_graph/graph.py:445-470 | over every run each pack was sent as often as the replies of kept turns carried it, plus once if it is recorded |
| FunnelVoicePacks.PlainReplies | app/services/funnel_graph/reply.py:48-56 | replies without messages of a pack carry none |
| FunnelVoicePacks.RecordedUnlessLost | app/services/funnel_graph/gateway.py:69-80 | in an open run a pack is recorded if and only if it lies below the current stage and no checkpointed superseded turn lost it |
| FunnelVoicePacks.EachPackSentOnceIff | app/services/funnel_graph/graph.py:445-470 | in every open run a pack was sent exactly once if it lies below the current stage and never otherwise, if and only if the replies carried it as often as it was lost |
| FunnelVoicePacks.EachPackSentOnce | app/services/funnel_graph/graph.py:445-470 | in an open run with no pack lost, each pack below the current stage was sent once and no other pack at all, apart from those replies carried; exactly once when no reply of the run has a message of that pack |
| FunnelVoicePacks.SupersededTurnLosesPack | app/services/funnel_graph/gateway.py:69-80 | one superseded turn on a checkpointed thread puts the conversation behind a pack that was never sent |
| FunnelVoicePacks.ReplyCanSendPack | app/services/funnel_graph/graph.py:285-304 | a reply that carries a pack message sends it at interest_check |
| ReplyGroup.VoicePackActionItems | app/services/funnel_graph/graph.py:698-712 | the items of a pack in order with id, caption and default recording time, one item for an unknown or empty pack |
| ReplyGroup.OutgoingActionCount | app/services/funnel_graph/graph.py:688-695 | the separately computed size is the number of parts the messages break into |
| ReplyGroup.PendingActionsFromOutgoing | app/services/funnel_graph/graph.py:617-685 | the nested loops build exactly the group's sends, then closing and follow-up actions |
| ReplyGroup.NumberedInOrder | app/services/funnel_graph/graph.py:617-685 | the k-th send carries the k-th part, number k and the group size |
| ReplyGroup.DelayIsRecordingBefore | app/services/funnel_graph/graph.py:635-672 | without explicit delays each delay is the sum of the recording times of all voice items before it |
| ReplyGroup.DelaysNeverDecrease | app/services/funnel_graph/graph.py:635-672 | without explicit delays the delays of a group never decrease |
| ReplyGroup.AskedIsQueued | app/services/funnel_graph/graph.py:617-685 | a question asked in the outgoing messages ends up in a queued text |
| ReplyParts.PartsInOrder | app/services/funnel_graph/graph.py:635-672 | messages break into parts one by one, in order |
| ReplyParts.TextBecomesOnePart | app/services/funnel_graph/graph.py:660-672 | a text that is not empty becomes one part with its own delay; a message that is neither text nor pack, or an empty text, becomes none |
| ReplyParts.PackBecomesItsEntries | app/services/funnel_graph/graph.py:698-712 | a voice pack becomes one part for each entry, in order, with 40 seconds for a file without a recording time; an unknown or empty pack becomes one part that names it |
| ReplyParts.OwnDelayIsUsed | app/services/funnel_graph/graph.py:635-672 | a part that says its own delay waits exactly that long |
| ReplyParts.WaitsForTheLastRecording | app/services/funnel_graph/graph.py:635-672 | any other part waits exactly until the last of the recordings before it is over, also with explicit delays among them |
| ReplyParts.WhatFollowsTheParts | app/services/funnel_graph/graph.py:617-685 | sends come first and only with a reply; the lead is closed as lost exactly at lost, handed over exactly with a reply at human_handoff, marked exactly without one at do_not_contact; a follow-up comes last, and nothing is done twice |
| CampaignService.CampaignSequenceService.StartRun | app/services/campaign_sequence.py:37-42 | start equals the specification, also where it raises |
| CampaignService.CampaignSequenceService.ProcessNext | app/services/campaign_sequence.py:95-122 | the loop over the steps ahead with its early returns equals the recursive specification |
| CampaignService.CampaignSequenceService.ScheduleFixed | app/services/campaign_sequence.py:124-182 | scheduling a fixed message, with an existing job or a new one |
| CampaignService.CampaignSequenceService.RunGate | app/services/campaign_sequence.py:184-207 | the interest gate's three ways on |
| CampaignService.CampaignSequenceService.RunBrain | app/services/campaign_sequence.py:209-232 | a brain turn, whatever the brain answers |
| CampaignService.CampaignSequenceService.RunLlm | app/services/campaign_sequence.py:234-276 | an LLM decision, whatever the model answers |
| CampaignService.CampaignSequenceService.HandleInbound | app/services/campaign_sequence.py:44-75 | an inbound message consumes the awaited reply or reopens the latest run |
| CampaignService.CampaignSequenceService.MarkSent | app/services/campaign_sequence.py:77-93 | a sent job turns its active or waiting run into one that awaits the reply exactly if the awaited step waits for one, and changes no other run |
| CampaignService.CampaignSequenceService.ReopenLatest | app/services/campaign_sequence.py:359-380 | which runs an inbound message reopens, and how |
| CampaignService.CampaignSequenceService.RecoverWaiting | app/services/campaign_sequence.py:382-413 | recovery of a waiting run by the state of its job |
| CampaignService.CampaignSequenceService.RecoverLlm | app/services/campaign_sequence.py:415-430 | recovery of an LLM run |
| CampaignSafety.EveryRunKeepsInv | app/services/campaign_sequence.py:37-122 | every run of starts, replies, sends, both recoveries and job changes in any order keeps one invariant over status, position, awaited step, jobs and history, as long as no start is one that skips a reply |
| CampaignSafety.ReplyFirstIff | app/services/campaign_sequence.py:37-122 | over every run, nothing is scheduled or run past a message that waits for a reply before that message was scheduled and its reply consumed, if and only if no start found the run awaiting the reply to a message with a next step that can act |
| CampaignSafety.NothingPassesAnUnansweredMessage | app/services/campaign_sequence.py:44-122 | under that condition, whatever is scheduled or run past such a message comes after its scheduling and the consumed reply, in that order |
| CampaignJobs.FixedMessagesScheduledOnce | app/services/campaign_sequence.py:124-182 | in every run, however it is started, the fixed messages with a job are exactly those up to the furthest position reached, with one job each, and the current position never lies beyond it |
| CampaignJobs.JobsUpToCurrentIff | app/services/campaign_sequence.py:44-122 | in every run the fixed messages with a job are exactly those up to current_step_position if and only if no fixed message lies between the current and the furthest position reached |
| CampaignJobs.TakenBackOverAMessage | app/services/campaign_sequence.py:44-75 | a run of a brain turn, a message and a gate that ends at the brain turn with a job for the message |
| CampaignJobs.FreshRunsAreTidy | app/services/campaign_sequence.py:44-122 | in a run started only while it awaits nothing, what is awaited is the current step, active, LLM and finished runs await nothing, an LLM run stands at a brain or LLM step, and the furthest position is the current one |
| CampaignJobs.WaitingRunHasItsJob | app/services/campaign_sequence.py:382-413 | a waiting run finds its step and a job for it, so recovery changes its status only |
| CampaignJobs.RecoveryAddsNoJob | app/services/campaign_sequence.py:382-413 | in every run, however it is started, recovering a waiting run changes nothing but its status and never takes the missing-job branch |
| CampaignSafety.RecoverWaitingKeeps | app/services/campaign_sequence.py:382-413 | recovering a waiting run keeps the invariant, its jobs and its history |
| CampaignSafety.RecoverLlmKeeps | app/services/campaign_sequence.py:415-430 | recovering an LLM run keeps the invariant and runs the brain or LLM step at the current position again and nothing else |
| CampaignSafety.StartDecides | app/services/campaign_sequence.py:37-42 | from any state with the invariant one event keeps replies first if and only if it is not a start that finds the run awaiting the reply to a message with a next step that can act |
| CampaignSafety.SecondStartSkipsTheReply | app/services/campaign_sequence.py:37-42 | a campaign of two messages whose second message leaves before the first is answered |
| CampaignProgress.SentMessageAwaitsItsReply | app/services/campaign_sequence.py:77-93 | after any run that waits for a message to be sent, sending a job of its step makes the run await the reply if and only if the step waits for one, and the next inbound message is then consumed as that reply |
| CampaignProgress.ReplyMovesTheRunOn | app/services/campaign_sequence.py:44-75 | in every run that awaits a reply, the reply makes it go over the steps behind the message, the gate again and the steps behind it, or a brain turn, and stop as the steps and answers say |
| CampaignProgress.CallStops | app/services/campaign_sequence.py:95-122 | a call goes over messages that wait for nothing and gates that have nothing to say, and stops at the first other step in the status its kind and its answer call for; a call with no such step completes the run |
| CampaignProgress.WhatAStepQueues | app/services/campaign_sequence.py:124-276 | a step adds a job exactly for a message that has none yet, for a gate or brain reply that does not end the run, and for an LLM reply without a handoff |
| CampaignProgress.OverUnlessReopened | app/services/campaign_sequence.py:359-380 | an inbound message reopens a finished or failed run exactly at a brain or LLM step of a lead that may be written to, and has the step answer; any other run that is over stays as it is |
| CampaignProgress.RecoveryFollowsTheJob | app/services/campaign_sequence.py:382-413 | in every run recovery of a waiting run follows the newest job of its step: sent, it awaits the reply; under way, it waits on; ended otherwise, it has failed |
| CampaignProgress.RecoveryWithoutJob | app/services/campaign_sequence.py:382-413 | recovery fails a run whose step is gone and calls a run without a job for its step again from before that step |
| CampaignProgress.RecoveryEndsTheWait | app/services/campaign_sequence.py:415-430 | recovering an LLM run asks again if the dialog is there and never leaves the run where it was |
| OutboundWorker.OutboundQueueWorker.ProcessQueuedBatch | app/services/outbound_queue_worker.py:93-167 | one batch takes the earliest ready jobs and leaves all rows, accounts and the receiver as handling them one after the other does; every taken job ends without a lease; the seven counters add up to the total, and each counts exactly the rows that show it by status, attempt and flood wait |
| OutboundWorker.OutboundQueueWorker.ClaimReadyBatch | app/repositories/outbound_job.py:14-65 | a claim takes at most `limit` ready jobs, none later by (scheduled_at, created_at) than one left out, and leases exactly those |
| OutboundWorker.OutboundQueueWorker.ProcessOne | app/services/outbound_queue_worker.py:108-155 | handling one row changes that row and its account only, through every handler and the finally clause |
| OutboundWorker.OutboundQueueWorker.SendJob | app/services/outbound_queue_worker.py:195-246 | what a send leaves behind when it raises at each point: id kept, receiver reached or not, pacing recorded or not |
| OutboundWorker.OutboundQueueWorker.MarkFloodWait | app/services/outbound_queue_worker.py:414-426 | a flood wait holds the account until it is over; the job is tried again then exactly if it has attempts left, and is dead-lettered otherwise |
| OutboundWorker.OutboundQueueWorker.RescheduleForAccount | app/services/outbound_queue_worker.py:176-185 | rescheduling moves the job to the later of the account's times and never to an earlier schedule |
| OutboundWorker.BatchIsARun | app/services/outbound_queue_worker.py:93-155 | a batch claimed and handled after any run is again a run, so what holds of every run holds after every batch |
| OutboundAttempts.AttemptsBounded | app/services/outbound_queue_worker.py:108-147 | in every run a queued or retried job has attempts left, its count is the number of attempts made, and no job is tried more often than its limit |
| OutboundAttempts.CallsOfOneJobShareTheId | app/services/outbound_queue_worker.py:195-220 | over every run two send calls carry the same random id if and only if they belong to the same job |
| OutboundAttempts.DeliveredAtMostOnce | app/services/outbound_queue_worker.py:195-220 | under any mix of successes, clean failures and failures after delivery the receiver shows each job at most once, and a job marked sent exactly once |
| OutboundPacing.SendsArePaced | app/services/outbound_queue_worker.py:101-126 | over every run no attempt on an account starts within the send interval after a recorded send, nor within a flood wait |
| OutboundPacing.TimingNeverMovesBack | app/services/outbound_queue_worker.py:169-185 | no event moves flood_wait_until or next_available_at back |
| OutboundBackoff.BackoffRange | app/services/outbound_queue_worker.py:473-475 | for every jitter the backoff after attempt n is at least 8 and at most 12 * 2^(n-1) and 1080 seconds |
| OutboundBackoff.BackoffIsBounded | app/services/outbound_queue_worker.py:428-434 | over every run a job tried n times has backed off at most 12 * (2^n - 1) and 1080 * n seconds |
| OutboundBackoff.BackoffIsWaitedFor | app/services/outbound_queue_worker.py:428-434 | over every run no later attempt of a job starts before an earlier backoff of it is over |
| OutboundLeases.UnexpiredLeasesDisjoint | app/repositories/outbound_job.py:14-65 | with any number of workers and any interleaving, at most one claim of a job is unreleased and unexpired, and the job's row names its holder |
| OutboundLeases.TakenOverWhenOver | app/repositories/outbound_job.py:14-65 | in every run a job is claimed again without a release only after the earlier claim has run out |
| OutboundWorker.DeadLettersCountedIff | app/services/outbound_queue_worker.py:121-147 | dead_letter counts all rows left so if and only if none of them ended with a flood wait |
| OutboundWorker.EndsAreCounted | app/services/outbound_queue_worker.py:115-155 | sent, blocked, failed and cancelled are the numbers of rows left so |
| OutboundOutcomes.HandlingEndsIn | app/services/outbound_queue_worker.py:103-155 | the status every handled job ends in, by the first exception on the way, the account's times, the allowlist and whether the attempt was its last; whether an attempt was counted, and that the lease is gone |
| OutboundOutcomes.RetryIsDue | app/services/outbound_queue_worker.py:414-434 | a job to be tried again is due with the later of the account's times, at the end of its flood wait, or after the backoff for its attempts |
| OutboundOutcomes.OverHasNoNext | app/services/outbound_queue_worker.py:436-468 | a job that is over has no next attempt, a sent one keeps the time it had, and only a job put off for its account is scheduled anew |
| OutboundOutcomes.PutOffUntilReady | app/services/outbound_queue_worker.py:169-185 | a job put off for its account is due at the first moment the account is ready |
| OutboundOutcomes.AccountAfter | app/services/outbound_queue_worker.py:195-236 | an account's flood wait moves exactly with a flood error and its next send exactly with an acknowledged send |
| OutboundOutcomes.IdAfter | app/services/outbound_queue_worker.py:195-220 | a job keeps its random id, gets one in the first attempt that comes that far, and the receiver has seen it exactly once a call got through |
| OutboundOutcomes.DeadLetterIsExhausted | app/services/outbound_queue_worker.py:121-147 | in every run a dead-lettered job has been tried exactly as often as its limit allows |
| OutboundOutcomes.TriedAgainWhenOver | app/services/outbound_queue_worker.py:414-434 | after any run an attempt that ends in a flood wait or retryable error leaves the job in retry at the end of that wait if it has attempts left, and dead-lettered otherwise |
| OutboundOutcomes.HandledWhenDue | app/repositories/outbound_job.py:14-65 | in every run a job is handled only at or after its scheduled time, and a retry at or after its next attempt |
| OutboundOutcomes.DueJobsAreClaimed | app/repositories/outbound_job.py:14-65 | a claim that is not full takes exactly the due jobs whose lease has run out, and leases them and no others |
| OutboundOutcomes.EarlierJobsComeFirst | app/repositories/outbound_job.py:14-65 | a due job is never left behind for one scheduled later or, at the same time, created later, and is handled before it |
| OutboundOutcomes.BackoffDoubles | app/services/outbound_queue_worker.py:473-475 | without jitter the backoff is 10 seconds, then double the one before, capped at 900; jitter scales it |
| InboundWorker.InboundQueueWorker.ProcessQueuedBatch | app/services/inbound_queue_worker.py:65-119 | the batch loop over rows that restarts change underneath it equals the sequential specification, and every row it leaves is settled as its handling ended; claimed total is processed + failed + retry + dead_letter + skipped |
| InboundWorker.InboundQueueWorker.ProcessOne | app/services/inbound_queue_worker.py:126-185 | the outcome of an event by branch, and which rows it retires |
| InboundWorker.InboundQueueWorker.RetirePendingInboundEvents | app/services/funnel_graph/gateway.py:212-238 | exactly the other pending events of the dialog are closed and released |
| InboundQueue.SkippedIffRestartedBefore | app/services/inbound_queue_worker.py:65-68 | an event of a batch is passed over if and only if an earlier event of the batch restarted its dialog, whether or not that one was itself passed over |
| InboundQueue.UnvisitedRow | app/services/funnel_graph/gateway.py:212-238 | a row not yet visited, or outside the batch, is untouched or closed by a restart with its attempts as they were |
| InboundQueue.VisitedRow | app/services/inbound_queue_worker.py:65-110 | a visited row keeps what its own handling left, except that one put back for retry is closed by a later restart of its dialog |
| InboundQueue.BatchSettles | app/services/inbound_queue_worker.py:65-110 | every claimed event ends without a lease; a passed-over one is processed with no attempt spent; any other spent exactly one and ends failed exactly if its handling raised, dead_letter exactly if a retryable error met its last attempt, in retry exactly if deferred or retryable with attempts left and not closed by a later restart, and processed otherwise, with the times to match |
| InboundOutcomes.OutcomeOf | app/services/inbound_queue_worker.py:126-185 | what handling comes to, read off the payload and what happens meanwhile: retryable, deferred, raised or done |
| InboundOutcomes.RetiresExactly | app/services/inbound_queue_worker.py:145-158 | an event retires those of its dialog exactly if it is a restart of an existing dialog that gets that far |
| InboundOutcomes.RestartCloses | app/services/funnel_graph/gateway.py:212-238 | a restart closes and releases the other pending events of its dialog without an attempt and changes no other |
| InboundOutcomes.CountedAs | app/services/inbound_queue_worker.py:74-110 | the counter each handled event adds to is the one of how its handling ended |
| InboundQueue.CountersMatchRows | app/services/inbound_queue_worker.py:103-119 | failed and dead_letter count the rows so marked; retry may exceed the rows left in retry, and the rest of them are processed rows |
| InboundQueue.RetryCounterExactIff | app/services/inbound_queue_worker.py:74-90 | the retry counter equals the rows left in retry if and only if no event put back for retry was closed by a later restart of its dialog |
| TurnBuffer.TurnBufferService.PrepareInboundTurn | app/services/brain_v2/turn_buffer.py:31-78 | preparing a turn equals the specification, and past the early returns no reply is left queued |
| TurnBuffer.TurnBufferService.RetryAtForState | app/services/brain_v2/turn_buffer.py:198-210 | the latest of up to three times, if still to come, is the end of the quiet window |
| TurnBuffer.TurnBufferService.RecordTypingActivity | app/services/brain_v2/turn_buffer.py:80-98 | what typing stores, and that it cancels every queued reply |
| TurnBuffer.TurnBufferService.CancelPendingOutbound | app/services/brain_v2/turn_buffer.py:128-150 | queued and retried jobs are cancelled, all others stay |
| TurnBuffer.TurnBufferService.MarkProcessed | app/services/brain_v2/turn_buffer.py:100-106 | once the newest message is marked, every call for the dialog is refused |
| TurnBuffer.WhatPreparingDoes | app/services/brain_v2/turn_buffer.py:31-78 | a call that is not for the newest unprocessed message changes nothing; any other cancels exactly the waiting replies, notes the newest message, and is put off exactly to the end of the window after that message and the last typing |
| TurnBuffer.WhatTypingDoes | app/services/brain_v2/turn_buffer.py:80-98 | typing cancels exactly the waiting replies and, with a lead, stores the time it carries or else the present |
| TurnBuffer.NewestInbound | app/services/brain_v2/turn_buffer.py:31-78 | no inbound message is sent later than the newest, nor created later among those sent with it |
| TurnBuffer.ProcessedIsRefused | app/services/brain_v2/turn_buffer.py:43-61 | while the marked message is the newest every call is refused for good and changes nothing; once a newer one has arrived calls end as if it had never been marked |
| TurnBuffer.NoLeadNoQuietWindow | app/services/brain_v2/turn_buffer.py:31-78 | a dialog without a lead is released at once if the call is for the newest message, and only then |
| TurnBuffer.ReleasedExactlyWhenQuiet | app/services/brain_v2/turn_buffer.py:31-78 | with a lead a call is released if and only if it is for the newest unprocessed message and the window after it and after the stored typing is over |
| TurnBuffer.TypingWindowKeptIff | app/services/brain_v2/turn_buffer.py:80-98 | the window counted from the recording of typing is kept if and only if the stored time or the newest message is not older than the recording |
| TurnBuffer.ReleasesAdvance | app/services/brain_v2/turn_buffer.py:31-106 | over every run released messages strictly advance in time order, none is released twice |
| TurnBuffer.ReleasedOnlyWhenQuiet | app/services/brain_v2/turn_buffer.py:198-210 | over every run a release comes after the window of every message known by then and of the last typing recorded by then |
| TurnBuffer.DeferralsBounded | app/services/brain_v2/turn_buffer.py:61-76 | with turns retried at their time, there are never more deferrals than messages and typing events |
| Dialogues.ComputeSpeakerRuns | scripts/annotate_dialogue_examples.py:1094-1109 | the loop with its open run computes the fold over lines |
| Dialogues.RunsGiveBackLines | scripts/annotate_dialogue_examples.py:1094-1109 | the runs flatten back to the lines, are not empty, and neighbours have different speakers |
| Dialogues.RunsAreUnique | scripts/annotate_dialogue_examples.py:1094-1109 | no other sequence of alternating runs flattens to the same lines |
| DialogueParser.Parser.FlushMessage | scripts/annotate_dialogue_examples.py:297-315 | flushing appends the buffered message, in a dialogue of its own if it opens one, or drops an empty buffer |
| DialogueParser.Parser.FlushDialogue | scripts/annotate_dialogue_examples.py:317-324 | a label line closes the dialogue and names the next |
| DialogueParser.Parser.ParseDialogues | scripts/annotate_dialogue_examples.py:289-357 | the one-pass parser equals finding the messages first and grouping them afterwards, gives what each line says, and cuts dialogues where labels and openers say |
| DialogueReading.ParsingKeepsLines | scripts/annotate_dialogue_examples.py:289-357 | for every export and opener test the dialogues flatten to what the input lines say: every nonblank tail of a role tag and every text line of a paragraph that has a speaker, in input order, attributed to the role tag before it or to the recruiter, joined by line breaks within a paragraph; none is empty and lines are numbered from one |
| DialogueReading.DialoguesBeginAtLabels | scripts/annotate_dialogue_examples.py:297-324 | a message begins a dialogue if and only if it is the first, follows a label line or opens one, and the dialogue is named by that label or its number |
| DialogueParts.SplitDialoguesForLlm | scripts/annotate_dialogue_examples.py:436-457 | the slicing and numbering loops compute the parts, including max_runs of zero or less |
| DialogueParts.PartsOfDialogue | scripts/annotate_dialogue_examples.py:436-457 | the parts of a dialogue concatenate to its runs, run_offset is the size of the earlier parts, all parts but the last have max_runs runs, parts are numbered from one to part_count, and a dialogue is split exactly if it is longer than a positive max_runs; otherwise it keeps its id and carries no number |
| DialogueParts.SplittingKeepsRuns | scripts/annotate_dialogue_examples.py:436-457 | over all dialogues splitting loses and reorders no run |
| KnowledgeRank.MergeAndRerank | app/services/brain_v2/knowledge_cards.py:328-334 | dictionary loop, stable sort and slice, for any top_k |
| KnowledgeRank.MergingKeepsTheBest | app/services/brain_v2/knowledge_cards.py:328-333 | one card for every key, the earliest of those with its maximum score |
| KnowledgeRank.SortingIsStable | app/services/brain_v2/knowledge_cards.py:334-334 | descending rearrangement that keeps the order of equal scores |
| KnowledgeRank.RerankingKeepsTheBest | app/services/brain_v2/knowledge_cards.py:328-334 | distinct keys in descending score, each with its earliest best card, and no card of a key left out scores above one kept |
| KnowledgeRank.HowManyAreKept | app/services/brain_v2/knowledge_cards.py:334-334 | the result has top_k cards, or one for every key if there are fewer; a negative top_k takes that many off the end |
| KnowledgeRank.TiesKeepOrder | app/services/brain_v2/knowledge_cards.py:328-334 | of two cards with one score the one whose key appeared first comes first |

## Left out

- HTTP, Telegram and CRMchat calls, LLM calls, database sessions, audit logs and send logs: only their outcomes are inputs.
- Crashes and rollbacks: claim, send and status share a transaction; runs are crash-free.
- Pacing with several workers on one account: only jobs are locked, so the outbound runs handle one attempt after the other.
- FIFO order per dialog or account: rescheduling moves scheduled_at, so the code does not promise it.
- Interrupt follow-ups and streaks in the funnel's metadata, reply group digests and typing delay ranges: a pending follow-up text is an input of the reply group.
- The legacy stages company_intro, try_interest_check and ready_for_interview are in the table, but runs start at interest_check and never reach them.
- Unicode whitespace: `strip` removes ASCII whitespace only; the parser's line patterns, label normalisation and opener markers are abstracted to line classes, a label with a number, and an arbitrary test.
- The inbound claim query: the outbound claim with created_at as its only key and no scheduled_at; the batch starts from distinct events leased to the worker.
- The inbound backoff value: an arbitrary number of seconds.
- Brain runs marked stale by the turn buffer and the batch of messages a released turn carries.
- `max_attempts` of zero means five and a negative one still allows one attempt, as in the code; OutboundAttempts.AttemptsBounded states both.
- LLM and vector search behind the knowledge cards, embeddings and access rules.
- CampaignJobs.FreshRunsAreTidy: says nothing of runs started under way; JobsUpToCurrentIff and ReplyFirstIff cover those.
- FunnelGraph.StateController: does not carry the interrupt metadata, the previous state and the resume state.
- FunnelGraph.ActionExecutor: does not carry the pending actions, which ReplyGroup builds, and the last bot message.
- ReplyGroup.PendingActionsFromOutgoing: does not carry the pack name as a fallback caption, typing ranges, group ids and idempotency keys.
- CampaignService.CampaignSequenceService.ScheduleFixed: does not carry the scheduled time, the message text and the lead's step state.
- CampaignService.CampaignSequenceService.RunLlm: does not carry the lead and handoff rows the step writes.
- TurnBuffer.TurnBufferService.PrepareInboundTurn: does not carry the message batch and the brain runs marked stale.
- TurnBuffer.TurnBufferService.RecordTypingActivity: does not mark brain runs stale.
- FunnelRuns.LangGraphFunnelGateway.RestartForDialog: does not state the cancelling of outbound jobs; retiring inbound events is InboundWorker's.
- InboundWorker.InboundQueueWorker.ProcessQueuedBatch: starts after the claim, because the claim is the outbound one with a shorter key.
