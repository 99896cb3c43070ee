# The agent's durable task machine

A verified model of the code that decides what a chat turn of the trading agent may do next and what
it keeps between turns: the plan executor and its two-tier log, suspended tasks, the confirmation
protocols, strategy drafts, the bounded memories and the request runtime. Network, database,
language model and tools answer arbitrarily: they are parameters, or values chosen at will.

Each file is one module. Code that updates fields is a class whose methods are proved against
functions on values; what the code promises is proved about those functions, or is the class
invariant, which then holds over every sequence of calls.

| file | module | what it models |
|---|---|---|
| Seqs.dfy, Text.dfy | Seqs, Text | windows, trimming, the list cleaner |
| Records.dfy, Execution.dfy | Records, Execution | records, the execution state, log and notes |
| Freshness.dfy, PlanTrace.dfy, Planner.dfy, PlanSession.dfy | Freshness, PlanTrace, Planner, PlanSessions | the repeat filter, the trace of a session, the transitions, the executor |
| SkillSessions.dfy | SkillSessions | skill sessions, their fields and slots |
| TaskStack.dfy, Suspension.dfy | TaskStacks, Suspensions | the snapshot stack, suspend and restore |
| Confirmation.dfy, TraderCreate.dfy | Confirmations, TraderCreation | one turn of the two multi-turn protocols |
| SkillRuns.dfy | SkillRuns | whole runs of both, with suspending and restoring, and the ledger of offers |
| ActiveSession.dfy | ActiveSessions | starts, stops and deletes on the brain's active session, and the ledger of its questions |
| StrategyDraft.dfy | StrategyDrafts | AI and grid configuration apart |
| ChatHistory.dfy, ChatRuns.dfy | ChatHistories, ChatRuns | the capped conversation, and its maintenance in every interleaving |
| NewsScan.dfy, Scheduler.dfy, StreamText.dfy | NewsScan, Schedules, StreamTexts | the bounded news memory, the ticker, streaming |
| RequestRuntime.dfy | RequestRuntimes | clients and locks under every interleaving, as steps and as objects |

Verify with `dafny verify dfyconfig.toml`.

## Where the code falls short of its promise

Each is proved by a concrete input or an exact condition.

- `Execution.NoteBound`, `Execution.IdempotentIff`, `Execution.FiveNotesSurvive`: the note cap is
  skipped when the overflow has nothing to summarise.
- `SkillSessions.SkillIdempotentIff`, `SkillSessions.YesIsRewritten`: an auto_start text other than
  true or false is rewritten by the second pass, not the first.
- `Freshness.ReusedIdRefetches`, `Freshness.BlankIdsCollide`: blank step ids repeat from batch to
  batch, and a repeated id voids the repeat filter. The separation of repeats is therefore stated for
  sessions whose plans kept their ids distinct and whose batches came with blank or pending statuses,
  for calls with a tool name; a monotone clock is not needed.
- `Confirmations.WideningNeedsNoPrompt`: a reply meaning all widens a single-target confirmation
  without a new prompt. `Confirmations.ExtractedTargetUnprompted`: so does another target extracted
  while the prompt is out, and `TraderCreation.ExtractedDraftUnshown` is the same of a draft.
  `Confirmations.NoNewTargetWhileWaiting`, `Confirmations.StrandedByName`: a target that vanished
  while its prompt was out cannot be replaced by naming another.
- `SkillRuns.OneOfferTwoCalls`, `SkillRuns.Conversation.AnswerTwice`: a suspended confirmation that is
  the only entry is restored without being removed, so one prompt can be carried out again and again
  while its snapshot shows. Dispatches stay within offers plus such copies, and within offers, each
  spent at most once, in every run without one (`SkillRuns.Conversation.DispatchesWithinOffers`).
  `SkillRuns.Conversation.AnswerAfterSocial`: a yes that is also small talk ("ok") suspends the restored
  flow again, and then no yes is taken up while both copies are live.
  `SkillRuns.Conversation.Recover`: recovery from a leaked envelope copies the top snapshot likewise.
- `SkillRuns.Conversation.WorkflowTurn`, `SkillRuns.Conversation.YesInWorkflow`: inside a workflow each
  reply goes to a fresh session, so no yes is ever carried out there; outside one it is, exactly as
  `SkillRuns.Conversation.Answer` says.
- `ActiveSessions.WordedQuestionSuffices`, `ActiveSessions.WhichTraderSuffices`: on the active session
  any question of the model counts as the confirmation once nothing required is missing, and deleting
  a trader requires nothing. `ActiveSessions.Brain.AskUser` has the exact condition.
- `ActiveSessions.OneQuestionTwoExchanges`: a parent that an exchange delete resumes into the borrowed
  slot is lost, and the delete session goes on with its kept name: if the model worded the question,
  the next yes deletes the exchange that goes by that name. `ActiveSessions.Brain.AnswerTwice` has the
  exact condition; `ActiveSessions.Brain.BothWithinOffers` counts such questions.
- `Suspensions.IdentityIff`, `Suspensions.CompletedRunIsLost`: suspending drops workflows and
  executions that are no longer active.
- `ChatRuns.MemoryRun.SaidMeanwhile`, `ChatRuns.MemoryRun.ClearedMeanwhile`,
  `ChatRuns.MemoryRun.RefreshMeanwhile`: maintenance runs beside the turns without a lock, so what is
  said meanwhile is lost, what is cleared comes back, and a summary can be overwritten. Exactly what
  goes missing is in `ChatRuns.MemoryRun.Save` and `ChatRuns.MemoryRun.Install`; alone a job loses
  nothing (`ChatRuns.MemoryRun.RunAlone`).
- `StrategyDrafts.LooseFieldMixes`: a patch that merely names a type decides which fields pass and is
  then dropped itself. `StrategyDrafts.TurnApartIff` has the exact condition; all other turns keep the
  fields of the two types apart (`StrategyDrafts.FieldsNeverMixed`).
- `NewsScan.NewsBrain.ScanNews`, `NewsScan.OverflowingBatch`: one batch can leave more than a
  thousand URLs.
- `Schedules.LongerGapLosesCleanup`: the hour stamp cannot tell the same hour of two days apart.

## Model

| member | source | states |
|---|---|---|
| PlanSessions.PlanSession.ExecutePlan | agent/planner_runtime.go:2979-3166 | from any loop head, whatever the planner and tools answer: decisions plus executions are at most 12; with unique ids two runs of one call lie 61 seconds or 8 observations apart and never in one batch; the completed calls of the saved states only extend and at most one step runs in each; every saved state waits exactly with its question; a plain session has executed exactly its completed steps in order |
| PlanSessions.PlanSession.Decide | agent/planner_runtime.go:2984-3028 | the loop goes on exactly with the decision's numbered and filtered steps, titled, after the completed ones, saved; the batch is not empty, every step has a type and it is no repeated reasoning |
| PlanSessions.PlanSession.RunTool | agent/planner_runtime.go:3043-3069 | unless redirected, the trace gains the run and its result; a saved state shows the step completed with its summary and the log ending with the result |
| PlanSessions.PlanSession.RunReason | agent/planner_runtime.go:3070-3089 | the text becomes the step's output and a log entry; a model error fails step and session and logs nothing |
| PlanSessions.PlanSession.RunRespond | agent/planner_runtime.go:3113-3151 | an answer is stored as the final answer of a completed session that waits for nothing, its step completed with it |
| PlanSessions.PlanSession.RunStep | agent/planner_runtime.go:3030-3166 | one execution: exactly one start is recorded, the saved plan has at most one step in hand, and the loop goes on only from a loop head |
| PlanSessions.PlanSession.RunAsk | agent/planner_runtime.go:3090-3112 | asking suspends the session: status waiting exactly with a question, which is the final answer |
| PlanSessions.PlanSession.Save | agent/execution_state.go:246-262 | a save keeps the session sound and stores the normal form; a failed save changes nothing stored |
| PlanSessions.PlanSession.Resume | agent/planner_runtime.go:2596-2647 | a reply to a waiting session leads to the next loop head with the executed calls unchanged, or to no change at all when the save fails |
| PlanSessions.PlanSession.ApplyExtraction | agent/planner_runtime.go:1383-1415 | extraction removes exactly the supplied keys from the pending fields; the session keeps waiting on the same question |
| PlanSessions.PlanSession.SummaryFallback | agent/planner_runtime.go:3674-3716 | the AI-error fallback answers only after a completed tool step, and the calls it marks done extend those already done |
| PlanSessions.PlanSession.constructor | agent/execution_state.go:347-357 | a new session starts at a loop head with an empty trace |
| PlanTrace.NormalizeKeepsInv | agent/execution_state.go:359-398 | normalising a state keeps the session invariant |
| PlanTrace.RunKeepsInv | agent/planner_runtime.go:3054-3069 | recording a tool run keeps the log tiers, the executed calls and the separation of repeats |
| PlanTrace.OldRunBlocks | agent/planner_runtime.go:3217-3279 | with unique ids, a run still in the log and at most 60 seconds old makes its call fresh |
| PlanTrace.KeptCallApart | agent/planner_runtime.go:3255-3279 | hence a call that survives the filter lies at least 61 seconds after, or at least 8 observations after, every earlier run of it |
| PlanTrace.DecideKeepsInv | agent/planner_runtime.go:2984-3028 | a decision keeps every repeat of a call apart in that sense, and puts no call twice in one batch |
| PlanTrace.CompleteKeepsInv | agent/planner_runtime.go:3063-3069 | completing the step in hand extends the executed calls by exactly it |
| PlanTrace.ResumeKeepsInv | agent/planner_runtime.go:2602-2627 | dropping the unfinished steps on resume keeps the session invariant |
| Planner.SaveKeeps | agent/execution_state.go:246-262 | each save extends the completed calls of all earlier saves, waits exactly with a question, and has at most one running step |
| Planner.StartKeeps | agent/planner_runtime.go:3030-3041 | starting the first pending step keeps the plan completed, one in hand, pending |
| Planner.ToolKeepsHead | agent/planner_runtime.go:3043-3069 | after a tool step the state is a loop head again |
| Planner.AskKeeps | agent/planner_runtime.go:71-80 | a waiting state built for a step agrees with its question and final answer |
| Planner.ResumeKeepsHead | agent/planner_runtime.go:2602-2627 | the resumed state is a loop head with the same executed calls |
| Planner.EmitKeepsHead | agent/planner_runtime.go:3004-3028 | completed steps followed by a filtered batch form a loop head |
| Planner.ExtractionExact | agent/planner_runtime.go:1383-1415 | the pending fields after extraction are those before without the supplied keys, and nothing else of the wait changes |
| Planner.ExtractionKeeps | agent/planner_runtime.go:1383-1415 | extraction keeps the session sound |
| Planner.RemainingFields | agent/planner_runtime.go:1405-1413 | the loop over pending fields computes exactly that difference |
| Planner.FallbackExtends | agent/planner_runtime.go:3690-3711 | marking steps done in the fallback only extends the completed calls |
| Planner.FallbackKeeps | agent/planner_runtime.go:3674-3716 | the fallback's saved state satisfies every clause saved states satisfy |
| Planner.CompletedStepsLoop | agent/planner_runtime.go:3392-3400 | the loop returns exactly the completed steps, in order |
| Planner.NextPendingStepIndex | agent/planner_runtime.go:3605-3612 | the first step that is pending or without status, or -1 when there is none |
| Planner.NormalizeKeepsWaiting | agent/execution_state.go:482-497 | normalising keeps the agreement of status, question and answer |
| Planner.FillTitles | agent/planner_runtime.go:3011-3013 | accepted steps without a title are named after their id, after the repeated-reasoning test |
| Planner.QuestionOf | agent/planner_runtime.go:3090-3098 | an asking step always has a non-blank trimmed question |
| Planner.RepeatsReasoning | agent/planner_runtime.go:3281-3313 | a batch is repeated reasoning if and only if it is not empty and the newest completed step and every step of it are reason steps with one tool, title and instruction up to case |
| Planner.ReplyQuotes | agent/planner_runtime.go:2602-2609 | a reply is logged trimmed, behind the waiting question if there is one |
| Planner.ResumeWrites | agent/planner_runtime.go:2602-2627 | a resume logs the reply, ends the wait and leaves exactly the completed steps of a running session |
| Planner.FallbackWrites | agent/planner_runtime.go:3690-3711 | the fallback marks done exactly the current step and a running response, logs and gives the answer |
| Freshness.BuildRecentlyFetchedData | agent/planner_runtime.go:3217-3253 | the map holds, for every call with a logged result, its newest result time and nothing else |
| Freshness.FilterFreshDuplicateToolSteps | agent/planner_runtime.go:3255-3279 | the loop equals the filter: batch order, no fresh call, no call twice |
| Freshness.FilteredSound | agent/planner_runtime.go:3255-3279 | every surviving tool step names a call that is not fresh, and no call survives twice |
| Freshness.FilteredComplete | agent/planner_runtime.go:3255-3279 | nothing else is dropped: a missing call was fetched in the last 60 seconds |
| Freshness.BlocksRepeatIff | agent/planner_runtime.go:3217-3279 | whatever else is logged, a repeat is blocked if and only if some recent result's id still belongs, as the newest step carrying it, to a step making the same call |
| Freshness.OwnResultBlocks | agent/planner_runtime.go:3217-3279 | with unique ids a recent result always blocks a repeat of its own call |
| Freshness.NewestIsUnique | agent/planner_runtime.go:3219-3222 | with unique ids the look-up by id finds the step itself |
| Freshness.ReusedIdRefetches | agent/planner_runtime.go:3219-3222 | with a reused id a one-second-old result does not stop the same call |
| Freshness.BlankIdsCollide | agent/planner_runtime.go:2747-2761 | blank ids of two batches are numbered alike, so they always collide |
| Freshness.LoneCallDropped | agent/planner_runtime.go:3217-3279 | in terms of the fields: a lone tool step goes if and only if some tool result at most 60 seconds old belongs, by the newest step with its id, to a named step of the same tool with the same arguments |
| Freshness.NextStepKept | agent/planner_runtime.go:3255-3279 | each further step of a batch goes if and only if it is a tool step that alone would go or that repeats tool and arguments of an earlier tool step |
| Freshness.TwoCallsSurvive | agent/planner_runtime.go:3255-3279 | two tool steps that differ in tool or arguments both survive when neither is fresh |
| Execution.LogRefinesHistory | agent/execution_state.go:558-635 | after any sequence of appends the log is the last min(8, n) of the history and the notes show the last min(4, k) summaries of the evicted entries that have one, in eviction order |
| Execution.WindowStep | agent/execution_state.go:582-600 | one append moves the window and its notes by exactly one entry |
| Execution.AppendStep | agent/execution_state.go:632-635 | one append of a non-blank observation keeps log and notes in step with the history |
| Execution.SummarizeExecutionOverflow | agent/execution_state.go:602-630 | the loop builds the clipped summary note, or none when no entry has text or raw JSON |
| Execution.CompactInPlace | agent/execution_state.go:582-600 | in-place compaction equals the two-tier specification |
| Execution.NormalizeStepsInPlace | agent/execution_state.go:370-387 | the step loop trims, numbers blank ids and fills blank statuses of every step |
| Execution.NormalizeExecutionStateInPlace | agent/execution_state.go:359-398 | the field-by-field normaliser equals its specification |
| Execution.NormalizeWellFormed | agent/execution_state.go:359-398 | output bounds: log at most 8, reference history at most 12, no blank step id or status, tidy observations |
| Execution.NoteBound | agent/execution_state.go:590-599 | at most four notes come out if and only if no cap is skipped, a condition on the input |
| Execution.IdempotentIff | agent/execution_state.go:359-398 | the normaliser is idempotent if and only if that condition holds |
| Execution.TwoPassesSettle | agent/execution_state.go:359-398 | two passes always reach a fixed point |
| Execution.FixedIffNormalForm | agent/execution_state.go:359-398 | the fixed points are exactly the states in normal form, field by field |
| Execution.FiveNotesSurvive | agent/execution_state.go:590-599 | nine bare log entries and five notes: five notes survive |
| Execution.NoteReads | agent/execution_state.go:602-630 | an evicted entry leaves its kind and its summary, or its raw JSON without one, clipped at 500; nothing if both are blank |
| Execution.StepRewritten | agent/execution_state.go:370-387 | a pass trims every text of a step, numbers a blank id by its place, makes a blank status pending and changes nothing else |
| Records.NormalizeReferenceHistoryLoop | agent/execution_state.go:530-556 | the loop keeps, trimmed, the last 12 records that name something |
| Records.HistoryFixedIff | agent/execution_state.go:530-556 | a reference history is a fixed point exactly when it has at most 12 tidy records |
| Records.NormalizeObservationList | agent/execution_state.go:558-580 | the loop keeps, trimmed, the observations that are not blank |
| Records.ObservationsFixedIff | agent/execution_state.go:558-580 | an observation list is a fixed point exactly when every entry is tidy |
| Records.WaitingStable | agent/execution_state.go:482-497 | normalising a waiting state is idempotent |
| Records.WaitingFixedIff | agent/execution_state.go:482-497 | its fixed points: trimmed texts, clean pending fields, a stamp, and something to wait for |
| Records.CurrentReferencesStable | agent/execution_state.go:499-528 | normalising current references is idempotent |
| Records.ReferencesFixedIff | agent/execution_state.go:499-528 | its fixed points are exactly the tidy references |
| Records.RecordKept | agent/execution_state.go:530-556 | one more record is kept, trimmed and stamped, if and only if it has a kind and an id or a name |
| Records.ReferenceKept | agent/execution_state.go:499-528 | a reference is kept exactly if it has an id or a name, the four references as long as one is |
| Text.CleanStringList | agent/memory.go:162-184 | the loop with its set of folded keys equals the list cleaner |
| Text.CleanIsClean | agent/memory.go:162-184 | cleaned lists are trimmed, non-blank and free of case-fold duplicates |
| Text.CleanCovers | agent/memory.go:162-184 | every non-blank input is represented |
| Text.CleanFirst | agent/memory.go:162-184 | every output entry is the trimmed first input of its case-fold class |
| Text.CleanFixed | agent/memory.go:162-184 | clean lists are fixed points |
| Text.LowerFolds | agent/memory.go:170-175 | folding makes capital letters small and leaves all else |
| SkillSessions.SkillIdempotentIff | agent/skill_dispatcher.go:45-122 | the session normaliser is idempotent if and only if auto_start is plain: true, false, blank, or overridden by the slot flag |
| SkillSessions.SkillTwoPassesSettle | agent/skill_dispatcher.go:45-122 | two passes always reach a fixed point, whatever order maps iterate in |
| SkillSessions.SkillFixedIff | agent/skill_dispatcher.go:45-122 | the fixed points: the empty session, or mirrored tidy fields and slots, a settled flag, a tidy reference and a stamp |
| SkillSessions.SettledIffPlain | agent/skill_dispatcher.go:96-103 | one pass settles the auto_start text exactly on plain sessions |
| SkillSessions.YesIsRewritten | agent/skill_dispatcher.go:96-103 | a trader session whose auto_start says yes is changed by the second pass |
| SkillSessions.NormalizeSlotsMirrored | agent/skill_management_handlers.go:88-123 | after one pass slots and fields of a trader session mirror each other |
| SkillSessions.SetThenGet | agent/skill_management_handlers.go:23-73 | setField then fieldValue reads what was set; a blank value changes nothing; every other key reads as before |
| SkillSessions.FieldReads | agent/skill_management_handlers.go:40-73 | a key reads as its own field, and in a trader session without one as its slot or flag |
| SkillSessions.PassHolds | agent/skill_dispatcher.go:45-122 | after a pass a key holds its slot if that is not blank, else its own field, and is gone if both are |
| TaskStacks.WorkflowStable | agent/workflow.go:46-76 | normalising a workflow session is idempotent, dropped tasks included |
| TaskStacks.SuspendedIdempotentIff | agent/execution_state.go:400-455 | the snapshot normaliser is idempotent if and only if its skill session is plain and its notes fit |
| TaskStacks.SuspendedSettles | agent/execution_state.go:400-455 | two passes leave a snapshot no later pass, clock or random name can change |
| TaskStacks.LaterPassesAgree | agent/execution_state.go:400-455 | only the first pass reads the clock, the map order and the random names |
| TaskStacks.NormalizeTaskStack | agent/execution_state.go:457-480 | the loop keeps the normalised live entries and of them the newest five |
| TaskStacks.WaitRefines | agent/execution_state.go:457-480 | as time passes the stored stack stays a suffix of the ideal stack without its expired entries, and loses nothing else |
| TaskStacks.PushRefines | agent/execution_state.go:318-327 | a push refines a push on the unbounded stack; below five entries nothing is lost |
| TaskStacks.RemoveRefines | agent/execution_state.go:203-215 | removing a shown entry removes the ideal entry at the same distance from the top |
| TaskStacks.SnapshotStack.Stack | agent/execution_state.go:273-292 | what is shown is a suffix of the ideal live stack, and equal to it when nothing was lost |
| TaskStacks.SnapshotStack.Save | agent/execution_state.go:294-308 | saving stores the live newest five |
| TaskStacks.SnapshotStack.Peek | agent/execution_state.go:310-316 | a shown top is the ideal top |
| TaskStacks.SnapshotStack.Push | agent/execution_state.go:318-327 | the settled task becomes the top here and in the ideal stack; a task of no kind changes nothing |
| TaskStacks.SnapshotStack.Pop | agent/execution_state.go:329-338 | a successful pop returns and removes the ideal top; it fails exactly when nothing shows |
| TaskStacks.SnapshotStack.RemoveAt | agent/execution_state.go:203-215 | exactly the entry at the index goes, from both stacks; an index out of range changes nothing |
| TaskStacks.SnapshotStack.Clear | agent/execution_state.go:340-345 | both stacks become empty |
| TaskStacks.SnapshotKept | agent/execution_state.go:400-455 | a snapshot keeps its parts that are not empty, takes its kind from the first one when none is given, and is empty without a kind |
| TaskStacks.TaskKept | agent/workflow.go:46-76 | a workflow task is kept, trimmed, numbered and pending by default, if and only if it has a skill, an action and a request |
| Suspensions.SnapshotHolds | agent/planner_runtime.go:1848-1887 | a pushed snapshot holds every active context settled, the last 24 messages, the hint and the parent triggers of a trader draft; it is a task exactly when something was active |
| Suspensions.RoundTrip | agent/planner_runtime.go:1848-2001 | suspending and restoring over whatever is current by then gives the suspended contexts back |
| Suspensions.IdentityIff | agent/planner_runtime.go:1848-1976 | the round trip is the identity if and only if everything stored was active and settled and at most 24 messages were kept |
| Suspensions.CompletedRunIsLost | agent/planner_runtime.go:1867-1876 | a completed execution beside an active skill session does not come back |
| Suspensions.PushThenPop | agent/execution_state.go:318-338 | within 24 hours the pop returns the pushed task, and below five entries the rest shows as if neither had happened |
| Suspensions.UserContexts.Suspend | agent/planner_runtime.go:1958-1968 | all active contexts move into one snapshot on top and are cleared; with none active nothing changes |
| Suspensions.UserContexts.Restore | agent/planner_runtime.go:1970-1991 | the active contexts become exactly the snapshot's; an empty history is left alone |
| Suspensions.UserContexts.RestoreById | agent/planner_runtime.go:1993-2018 | succeeds exactly when the name is shown; removes only the topmost match and keeps the order of the others |
| Suspensions.UserContexts.RestoreMatching | agent/planner_runtime.go:2129-2157 | the same for the topmost entry of the wanted domain |
| Suspensions.UserContexts.TryResume | agent/planner_runtime.go:2032-2054 | only from idle: a cancelling reply empties the stack, a resuming one restores the ideal top |
| Suspensions.UserContexts.RestoreAwaiting | agent/planner_runtime.go:2108-2127 | restores the only entry when it awaits confirmation, and leaves it on the stack |
| Suspensions.TopmostMatch | agent/planner_runtime.go:2003-2009 | the downward scan finds the topmost match or proves there is none |
| Suspensions.WhatIsActive | agent/planner_runtime.go:1848-1876 | active is a stored skill session, a workflow with a pending or running task, or a named execution that plans, runs or waits |
| Confirmations.HandleSimpleEntitySkill | agent/skill_management_handlers.go:2184-2282 | the handler equals the turn function, branch by branch; it asks for a parent to resume exactly after an exchange delete whose tool succeeded |
| Confirmations.ExecuteAction | agent/skill_execution_handlers.go:955-1428 | the start, stop and delete branches, single and bulk, of all four skills, and whether the branch ends by asking for a parent to resume |
| Confirmations.ExecuteSafe | agent/skill_runner.go:225-244 | past target resolution: ids are called only on a dispatch, which needs the waiting phase and a yes and clears the session; a prompt starts the wait only where none was; a saved session keeps its skill, action and scope |
| Confirmations.TurnSafety | agent/skill_runner.go:225-244 | from any stored session: ids are called only on dispatch, a dispatch needs a pending confirmation and a yes and clears the session, only a prompt starts a wait, only a widening reply makes a request cover everything |
| Confirmations.AimKept | agent/skill_management_handlers.go:2196-2262 | while the prompted id is listed and nothing widened, every turn keeps aiming at it and a dispatch calls it alone |
| Confirmations.BulkDispatch | agent/skill_execution_handlers.go:1284-1356 | a request for everything prompts for everything and dispatches exactly the deletable entries |
| Confirmations.DispatchIff | agent/skill_management_handlers.go:2184-2282 | a waiting session is dispatched if and only if the reply is a yes and a target is reached |
| Confirmations.DispatchFollowsAim | agent/skill_execution_handlers.go:977-996 | with the stored id listed and nothing widened, a dispatch acts on an id if and only if the session aims at it |
| Confirmations.ExtractedTargetUnprompted | agent/llm_flow_extractor.go:467-484 | another listed id extracted after the prompt is acted on by the next yes |
| Confirmations.PromptNames | agent/skill_execution_handlers.go:977-979 | a prompt names the target of the session it saves, and everything exactly on a bulk request |
| Confirmations.SavedTurnAgrees | agent/skill_management_handlers.go:2184-2282 | each saved turn keeps the stored session in agreement with its outstanding prompt |
| Confirmations.TargetKept | agent/skill_management_handlers.go:183-206 | a target still uniquely listed survives resolution and the liveness check |
| Confirmations.MentionChooses | agent/skill_dispatcher.go:916-977 | with nothing remembered, the text chooses the first option it names exactly, else the only one it overlaps, else none |
| Confirmations.StoreKeeps | agent/skill_dispatcher.go:45-122 | saving and loading keeps phase, scope and target id |
| Confirmations.WideningNeedsNoPrompt | agent/skill_management_handlers.go:2191-2194 | a reply meaning all, then yes, deletes every deletable entry although one target was prompted |
| Confirmations.NoNewTargetWhileWaiting | agent/skill_management_handlers.go:2196-2225 | past target resolution with the target gone, a turn does nothing if and only if it does not widen |
| Confirmations.GoneTargetStrands | agent/skill_management_handlers.go:2251-2268 | a turn that finds the prompted target gone leaves a session in exactly that state |
| Confirmations.StrandedByName | agent/skill_management_handlers.go:2251-2268 | stopping a trader deleted meanwhile: naming another listed trader gets no further |
| Confirmations.DeletableExact | agent/skill_execution_handlers.go:1786-1797 | the deletable ids are exactly those of the entries not skipped, in order |
| Confirmations.CollectDeletable | agent/skill_execution_handlers.go:1309-1326 | the filter loop equals that list |
| Confirmations.FindOptionByIdOrName | agent/skill_dispatcher.go:944-955 | the scan returns the first option whose id, name or hint is the trimmed query |
| Confirmations.FindUniqueContainingOption | agent/skill_dispatcher.go:957-979 | the scan returns the one overlapping option, none when there are several |
| Confirmations.ResolveTargetSelection | agent/skill_dispatcher.go:916-942 | the scans equal the resolution order: stored id, stored name, text |
| Confirmations.EnsureLiveTargetReference | agent/skill_management_handlers.go:183-206 | the reference is refreshed from its live option or dropped, with the outcome reported |
| Confirmations.EverythingIsDelete | agent/skill_management_handlers.go:137-144 | only deletes of traders and strategies ever ask about everything; starts, stops and deletes of exchanges and models call at most one id |
| Confirmations.AllAsksForEverything | agent/skill_management_handlers.go:2191-2194 | a reply meaning all on such a delete that does not wait yet asks about everything as soon as one entry can be deleted |
| Confirmations.CoversEverything | agent/skill_execution_handlers.go:964-979 | a session covers everything if and only if it deletes traders or strategies and its scope reads all |
| Confirmations.StoredAfter | agent/skill_management_handlers.go:2184-2282 | what every kind of reply leaves stored: step, phase and target, or nothing changed, or cleared |
| SkillRuns.Conversation.ConfirmTurn | agent/skill_management_handlers.go:2184-2282 | one turn in any run: a tool call means a yes to the active offer, which is then spent; once the request covers everything, exactly the deletable entries listed now are acted on, otherwise, while the session still stands for the offer, exactly the id offered; its session is gone, and after a successful exchange delete a triggered parent takes the slot with its ticket and leaves the stack |
| SkillRuns.Conversation.CreateTurnOf | agent/skill_dispatcher.go:376-446 | one trader-create turn in any run: tools run if and only if the reply answers the waiting phase, spending the active offer; while the session still stands for it, the draft created is the one shown |
| SkillRuns.Conversation.DispatchesWithinOffers | agent/skill_runner.go:225-244 | over every run of turns, extractions, suspensions and restores: dispatches are at most offers plus copies; without copies no offer is spent twice |
| SkillRuns.SpentWithinOffers | agent/skill_runner.go:225-244 | the same of any ledger its sessions back |
| SkillRuns.ConfirmKeepsBacked | agent/skill_management_handlers.go:2184-2282 | a confirmation turn keeps every waiting session, active or suspended, backed by an offer of its own |
| SkillRuns.CreateKeepsBacked | agent/skill_dispatcher.go:376-446 | a trader-create turn keeps them backed |
| SkillRuns.SuspendKeepsBacked | agent/planner_runtime.go:1958-1968 | suspending moves the ticket with its session, through settling, expiry and the cap of five |
| SkillRuns.TakeKeepsBacked | agent/execution_state.go:203-215 | taking an entry out moves its ticket with it |
| SkillRuns.CopyKeepsBacked | agent/planner_runtime.go:2108-2127 | restoring without removal copies the ticket and counts the copy |
| SkillRuns.EditKeepsBacked | agent/llm_flow_extractor.go:443-500 | an edit keeps the session backed, steady exactly while it still stands for what was offered |
| SkillRuns.ParentKeepsBacked | agent/skill_dispatcher.go:862-892 | popping and hydrating a parent keeps it backed |
| SkillRuns.Conversation.Suspend | agent/planner_runtime.go:1958-1968 | every active context goes into one snapshot, the ticket with it |
| SkillRuns.Conversation.TryResume | agent/planner_runtime.go:2032-2054 | from idle, the top snapshot becomes active again and brings its ticket back |
| SkillRuns.Conversation.RestoreById | agent/planner_runtime.go:1993-2018 | the topmost snapshot of that name becomes active and brings its ticket back |
| SkillRuns.Conversation.RestoreMatching | agent/planner_runtime.go:2129-2157 | the topmost snapshot of the wanted domain likewise |
| SkillRuns.Conversation.RestoreAwaiting | agent/planner_runtime.go:2108-2127 | the only entry, awaiting confirmation, becomes active and stays suspended; a guarded one counts as a copy |
| SkillRuns.Conversation.ResumeParent | agent/skill_dispatcher.go:862-900 | a parent is resumed exactly when its trigger fires: it leaves the stack, its hydrated session takes the slot, and its draft counts as offered only while hydration leaves it so |
| SkillRuns.ParentResumes | agent/skill_execution_handlers.go:1404-1428 | a parent resumes exactly after a successful exchange delete, if the top entry resumes on success and exchanges trigger it |
| SkillRuns.Conversation.Recover | agent/planner_runtime.go:2436-2476 | a complete recovered trader draft is shown and waits; another copy of a waiting snapshot counts as a copy |
| SkillRuns.Conversation.Edit | agent/llm_flow_extractor.go:443-500 | whatever rewrites the session between turns answers nothing, and the ticket stays steady if and only if the session still stands for its offer |
| SkillRuns.Conversation.ExtractTarget | agent/llm_flow_extractor.go:467-484 | after an extracted target the ticket is steady if and only if the session aims at the id offered |
| SkillRuns.Conversation.ExtractField | agent/llm_flow_extractor.go:495-503 | after an extracted field the ticket is steady if and only if the draft is still the one shown; a complete draft stays complete |
| SkillRuns.Conversation.Store | agent/workflow.go:316-320 | another flow's session that waits for nothing here replaces the active one, whose ticket is dropped |
| SkillRuns.Conversation.PushOther | agent/skill_execution_handlers.go:2107-2118 | another flow's snapshot that waits for nothing here leaves every ticket as it was |
| SkillRuns.Conversation.OthersMove | agent/planner_runtime.go:980-1006 | workflows and plans moving on leave every ticket as it was |
| SkillRuns.Conversation.Cancel | agent/skill_dispatcher.go:155-160 | cancelling drops the session and its ticket and calls nothing |
| SkillRuns.Conversation.Answer | agent/planner_runtime.go:901-941 | a reply to an active confirmation calls the tool if and only if it is a yes that goes on with the flow, no workflow is active and a target is reached, and then a triggered parent of an exchange delete takes the slot; a social reply suspends the flow with its ticket, an aborting one drops both |
| SkillRuns.Conversation.AnswerDraft | agent/planner_runtime.go:901-941 | a reply to a waiting trader draft runs the tools if and only if it goes on with the flow, no workflow is active and it answers the waiting phase |
| SkillRuns.Conversation.WorkflowTurn | agent/atomic_skill_executor.go:5-7 | inside a workflow the handler works on a fresh session: nothing needing confirmation is ever called, no offer is spent, a turn that saves replaces the waiting session and drops its offer, and a reply that names no target asks for one again |
| SkillRuns.Conversation.WorkflowCreateTurn | agent/atomic_skill_executor.go:5-7 | inside a workflow no trader is created by any reply; the waiting draft is replaced |
| SkillRuns.Conversation.YesInWorkflow | agent/workflow.go:204-209 | a prompt and its yes inside one workflow: nothing is called, the yes asks for the target again, and no session holds the offer any more |
| SkillRuns.Conversation.ClearStack | agent/planner_runtime.go:2630-2633 | clearing the stack beside an active session keeps every session backed |
| SkillRuns.Conversation.ClearAnyActive | agent/llm_skill_router.go:582-604 | everything active and the whole stack go, exactly when something was active; nothing is spent |
| SkillRuns.Conversation.ConfirmFromIdle | agent/planner_runtime.go:892-898 | from idle a reply calls the tool with no new prompt if and only if the stack shows exactly one entry, it awaits such a confirmation, the reply is a yes that goes on with the flow, and a target is reached; the offer spent is the one its snapshot holds; a social yes leaves two entries and calls nothing |
| SkillRuns.Conversation.CreateFromIdle | agent/planner_runtime.go:892-898 | the same for a suspended trader draft, for a reply that answers its phase |
| SkillRuns.Conversation.AnswerTwice | agent/planner_runtime.go:2108-2127 | after a yes that went on with the flow, a second reply spends the same offer again if and only if it is a yes that goes on with the flow, reaches a target, and the entry is still shown |
| SkillRuns.Conversation.AnswerAfterSocial | agent/planner_runtime.go:1249-1263 | after a social yes the flow shows twice: a yes from idle calls the tool if and only if exactly one of the two copies has expired |
| SkillRuns.Conversation.AnswerTwiceCreating | agent/planner_runtime.go:2108-2127 | the same as two replies in a row, for a trader draft: one showing, and the create tool is called once by each reply |
| SkillRuns.OneOfferTwoCalls | agent/planner_runtime.go:2108-2127 | from an empty store: one prompt, one suspension, two yes replies within a day that go on with the flow, and the tool is called twice on the one id offered |
| ActiveSessions.Brain.BothWithinOffers | agent/central_brain.go:922-945 | over every run of both paths: what is carried out is at most what was put to the user plus the copies, on the stack and of questions a resumed parent opened again; without one of the latter no question on the active-session path is answered twice |
| ActiveSessions.Brain.ExecuteSkill | agent/central_brain.go:922-945 | the tool is called if and only if a question is open, the reply is a yes and a target is reached, on what the question was about while the session still stands for it; the session survives the call if and only if a triggered parent resumed into the slot, and the question is open again if and only if the model worded it or that parent waits for a confirmation |
| ActiveSessions.Brain.AnswerTwice | agent/central_brain.go:922-945 | of two replies the second answers the same question again if and only if a parent resumed, the model worded the question or the parent waits for a confirmation, and it is a yes that reaches a target with what is kept of the session |
| ActiveSessions.OneQuestionTwoExchanges | agent/central_brain.go:1066-1088 | from nothing: a draft suspended, one question of the model about an exchange, two yes replies, and two exchanges that went by one name are deleted |
| Confirmations.NameOutlivesId | agent/skill_dispatcher.go:916-942 | a target whose id is no longer listed is found again by its name, and a yes acts on that one |
| ActiveSessions.Brain.CallHandler | agent/central_brain.go:922-945 | the call borrows the skill slot: whatever waited there is gone, a triggered parent of a successful exchange delete leaves the stack for the slot, and what the slot holds is read back and cleared |
| ActiveSessions.Brain.AskUser | agent/central_brain.go:329-361 | a question of the model opens the confirmation if and only if nothing required is missing and the action needs confirming |
| ActiveSessions.Brain.Extract | agent/central_brain.go:1274-1293 | extraction answers nothing; the open question is still about what a yes will act on exactly while the session aims at its one target |
| ActiveSessions.Brain.Begin | agent/active_session.go:115-127 | a new session leaves no question open |
| ActiveSessions.Brain.Drop | agent/active_session.go:74-79 | giving the session up closes its question unanswered |
| ActiveSessions.TurnActs | agent/central_brain.go:922-945 | one turn: dispatch exactly on an open question, a yes and a reached target, acting on what the question was about |
| ActiveSessions.TurnAccounted | agent/central_brain.go:922-945 | what one turn leaves, of its own session or of a resumed parent, is accounted for: waiting exactly while a question is open, standing for it, and worded by the model exactly if the session says so |
| ActiveSessions.CarriedBack | agent/central_brain.go:1001-1088 | converting a session that took a turn back and forth keeps its wait, its scope and its target id |
| ActiveSessions.WordedQuestionSuffices | agent/central_brain.go:352-355 | an extracted id, any question of the model and a yes call the tool on that id, with no prompt of the handler |
| ActiveSessions.WhichTraderSuffices | agent/central_brain.go:352-355 | deleting a trader: the question which trader is meant already opens the confirmation, so naming one and a yes delete it |
| ActiveSessions.TargetMissing | agent/active_session.go:229-250 | deleting a trader misses no target and takes none; everything else misses its target until there is an id, a name or all |
| TraderCreation.CreateSafety | agent/skill_dispatcher.go:376-446 | the create tool runs exactly on a yes to a waiting phase or a no to the starting one, with a complete draft, once; start needs a yes to the starting phase and a created trader; a wait begins exactly where the complete draft is shown |
| TraderCreation.HandleCreateTrader | agent/skill_dispatcher.go:376-446 | the handler equals the turn function |
| TraderCreation.ExecuteCreateSafe | agent/skill_dispatcher.go:582-662 | a complete draft is created once and still complete, started only where asked and only the trader created, and the session survives only a correctable error, collecting |
| TraderCreation.CreationFollowsDraft | agent/skill_dispatcher.go:395-401 | the draft created is the one shown if and only if the stored draft still is |
| TraderCreation.ExtractedDraftUnshown | agent/llm_flow_extractor.go:495-503 | a field extracted after the draft was shown is created unshown |
| TraderCreation.HydrateKeeps | agent/skill_dispatcher.go:805-860 | hydration never empties a draft field, and keeps ids that are still uniquely listed |
| TraderCreation.HydrateSlotCompletes | agent/skill_dispatcher.go:809-824 | a name alone finds its option's id, an id alone brings its option's name |
| TraderCreation.NamedPartsFound | agent/skill_dispatcher.go:805-860 | exchange, model and strategy given by name alone are each found among their own options |
| TraderCreation.HydrateInPlace | agent/skill_dispatcher.go:805-860 | the in-place hydration equals its specification |
| TraderCreation.MissingFieldKeys | agent/llm_flow_extractor.go:368-381 | the missing keys are exactly the blank ones; none is missing exactly when the draft is complete |
| TraderCreation.SetFieldSynced | agent/skill_management_handlers.go:23-38 | writing a field of a mirrored session changes that field alone and blanks nothing |
| TraderCreation.StoreKeepsDraft | agent/skill_dispatcher.go:45-122 | saving and loading keeps every draft field |
| TraderCreation.ShownPhase | agent/skill_dispatcher.go:432-446 | a shown draft waits in the starting phase if and only if its auto_start reads true, else in the creating one |
| TraderCreation.ShownThenYes | agent/skill_dispatcher.go:390-446 | shown, stored and agreed to, a draft is created, and started if and only if it was shown with auto_start true and the creation returned an id |
| TraderCreation.ShownIff | agent/skill_dispatcher.go:390-446 | a turn that answers no wait shows the draft if and only if nothing is missing and its parts validate, else it goes on collecting; turning a creation down keeps the draft |
| StrategyDrafts.NeverMixed | agent/central_brain.go:1274-1466 | over any sequence of turns the collected patch holds no branch of a type other than the draft's |
| StrategyDrafts.TurnIsolated | agent/central_brain.go:1295-1328 | one filtered and merged turn keeps the draft isolated, whatever it brought |
| StrategyDrafts.MergeIsolated | agent/central_brain.go:1274-1293 | merging data of one branch and one type keeps the draft isolated |
| StrategyDrafts.TemplateCoherent | agent/central_brain.go:1395-1430 | filtered data has at most one branch, of the type it was filtered for |
| StrategyDrafts.ChangeKeepsShared | agent/central_brain.go:1381-1393 | a type change keeps exactly the shared fields and what this turn said, and the draft has the new type |
| StrategyDrafts.SanitizeProjects | agent/central_brain.go:1432-1466 | sanitising keeps one branch, names the type, and is an idempotent projection |
| StrategyDrafts.SanitizeKeeps | agent/central_brain.go:1432-1466 | the published part and the type's own branch are kept entire, loose AI settings win over nested ones |
| StrategyDrafts.ParseKindText | agent/skill_execution_handlers.go:887-903 | the canonical type names parse to their own types |
| StrategyDrafts.SanitizePatch | agent/central_brain.go:1432-1466 | the sanitiser built part by part equals its specification |
| StrategyDrafts.NestLoose | agent/central_brain.go:1449-1458 | the loop moves exactly the five loose settings into the branch |
| StrategyDrafts.ActiveDraft.FilterByTemplate | agent/central_brain.go:1395-1430 | the loop over the keys equals the template filter |
| StrategyDrafts.ActiveDraft.MergeExtracted | agent/central_brain.go:1274-1293 | the in-place reset and merge equal their specification |
| StrategyDrafts.ActiveDraft.TakeData | agent/central_brain.go:1274-1328 | a whole turn on the draft keeps it isolated |
| StrategyDrafts.GridTurn | agent/central_brain.go:1395-1430 | a turn of a grid strategy takes every offered field that is common or of a grid, with its value, and no field of an AI strategy |
| StrategyDrafts.AiTurn | agent/central_brain.go:1395-1430 | the same the other way round |
| StrategyDrafts.OfferedTaken | agent/central_brain.go:1295-1328 | a turn takes nothing that was not offered; without a type all that was, with one the sanitised patch unless nothing is left of it |
| StrategyDrafts.FieldsNeverMixed | agent/central_brain.go:1274-1430 | over any sequence of turns that starts with a type and names types readably, through any type changes, the draft holds no field of the other type |
| StrategyDrafts.TurnApartIff | agent/central_brain.go:1395-1430 | exactly when a turn keeps a typed draft typed and its fields apart, of any turn on any draft whose patch is isolated, as it always is |
| StrategyDrafts.LooseFieldMixes | agent/central_brain.go:1432-1466 | a patch that only names the grid type lets a grid field into a draft that stays an AI draft |
| StrategyDrafts.NamedTypes | agent/central_brain.go:1330-1379 | the type field names the type, else the patch by its own type, else by the branch it holds |
| StrategyDrafts.TypeWords | agent/skill_execution_handlers.go:887-903 | which texts mean a grid and which an AI strategy |
| NewsScan.NewsBrain.ScanNews | agent/brain.go:55-143 | a scan takes in and announces exactly the new articles; past a thousand the newer half stays, at most a thousand if and only if at most two thousand were held |
| NewsScan.NewsBrain.TakeIn | agent/brain.go:90-130 | the loop over one response: set and order stay alike, without duplicates |
| NewsScan.NewsBrain.TakeOne | agent/brain.go:91-130 | a seen URL is skipped, any other is taken in and judged |
| NewsScan.NewsBrain.Evict | agent/brain.go:133-143 | the older half goes from the set and from the order alike |
| NewsScan.SecondTimeOnlyAfterMany | agent/brain.go:133-143 | a URL is taken in again only after 501 pairwise distinct newer URLs, itself not among them |
| NewsScan.EvictRemembers | agent/brain.go:133-143 | halving forgets only URLs that have receded that far |
| NewsScan.InsertRemembers | agent/brain.go:91-95 | taking in an unremembered URL keeps the order a duplicate-free end of everything taken in |
| NewsScan.Judge | agent/brain.go:96-130 | an article is announced if and only if it is at most ten minutes old and some keyword of either list occurs; its sentiment is that of the list with more hits |
| NewsScan.MentionsPositive | agent/brain.go:100-112 | a count is positive if and only if some word of the list occurs |
| NewsScan.OverflowingBatch | agent/brain.go:133-143 | one batch of 2001 different URLs leaves 1001 remembered |
| NewsScan.CountMentions | agent/brain.go:100-112 | the counting loop counts the words contained |
| NewsScan.AnnouncedIf | agent/brain.go:96-130 | title and source as given, at most ten minutes after publication, with a word of the lists in the folded title or text, leaning to the side with more words |
| ChatHistories.ChatHistory.Add | agent/history.go:34-49 | stored is exactly the capped end of what was not cut, plus the new message; other users are untouched |
| ChatHistories.ChatHistory.Replace | agent/history.go:66-81 | installs the capped end of the given messages; other users are untouched |
| ChatHistories.ChatHistory.Clear | agent/history.go:84-88 | the user's conversation is empty; other users are untouched |
| ChatHistories.ChatHistory.CleanOld | agent/history.go:91-104 | exactly the stale conversations go, every other is as before |
| ChatHistories.ChatHistory.Get | agent/history.go:52-64 | returns a fresh array holding the stored messages |
| ChatHistories.ChatHistory.constructor | agent/history.go:23-31 | a cap of zero or less means one hundred |
| ChatHistories.ShowsSuffix | agent/history.go:34-49 | the stored list is a suffix of everything said since the last clear, within the cap |
| ChatHistories.EstimateChatMessagesTokens | agent/memory.go:291-297 | the summing loop equals the estimate |
| ChatHistories.DueBeyond | agent/memory.go:317-329 | a conversation is compressed from the 13th message and the 901st token on |
| ChatRuns.MemoryRun.RunAlone | agent/memory.go:317-374 | a maintenance job that nothing comes between succeeds exactly when due, summarised and saved; then its summary is the task state, a compression leaves exactly the last 12 messages, and nothing said goes missing; otherwise nothing changes |
| ChatRuns.MemoryRun.Take | agent/memory.go:317-332 | a job copies the messages exactly when there is something for it to do |
| ChatRuns.MemoryRun.Save | agent/memory.go:337-346 | in every interleaving: a save covers what the state the job read covered and what it summarised; what goes missing is exactly what only the overwritten state covered |
| ChatRuns.MemoryRun.Install | agent/memory.go:347 | in every interleaving: the last 12 messages of the job's copy are shown again; what goes missing is exactly what was shown by then, is not among them and is not summarised |
| ChatRuns.MemoryRun.SaidMeanwhile | agent/memory.go:317-348 | a message said during a compression is neither shown nor summarised afterwards |
| ChatRuns.MemoryRun.ClearedMeanwhile | agent/memory.go:317-348 | a conversation cleared during a compression comes back |
| ChatRuns.MemoryRun.RefreshMeanwhile | agent/memory.go:350-374 | a refresh that overlaps a whole compression overwrites its summary: what the compression dropped is neither shown nor summarised |
| ChatRuns.MemoryRun.Say | agent/history.go:34-49 | a message joins what is shown, the first one evicted at the cap, and nothing goes missing: an evicted message has a whole cap of newer ones |
| ChatRuns.MemoryRun.Clear | agent/agent.go:425-442 | clearing empties conversation and task state; what it removes counts as cleared |
| ChatRuns.OnlyOverlapsLose | agent/memory.go:317-374 | while no more was said than the cap holds, whatever is not shown was summarised, was cleared, or went missing between the steps of a job |
| ChatRuns.OneMore | agent/history.go:34-49 | the capped conversation after one more message shows the same positions, without the first one at the cap |
| ChatRuns.FrontAndEnd | agent/memory.go:330-336 | the summarised front and the kept end make up the copy and do not meet |
| Schedules.Ticker.Step | agent/scheduler.go:41-56 | the in-place step starts the jobs of the run's next tick |
| Schedules.ReportOnFirstEveningTick | agent/scheduler.go:42-46 | the report runs on exactly the first tick at or after 21:00 of a day |
| Schedules.OneReportPerDay | agent/scheduler.go:42-46 | every day with such a tick gets its report by then, and no second one |
| Schedules.RiskSpacing | agent/scheduler.go:47-50 | consecutive checks are more than 4 hours apart and at most 4 hours plus the last tick gap; the first tick checks |
| Schedules.NeverUncheckedForLong | agent/scheduler.go:47-50 | every tick is within 4 hours of a check at or before it |
| Schedules.CheckStamp | agent/scheduler.go:47-50 | the check stamp is the last tick that ran the check |
| Schedules.CleanupOncePerHourIff | agent/scheduler.go:51-54 | cleanup runs exactly once in each absolute hour that has a tick if and only if no neighbouring ticks of different hours show the same hour of the day |
| Schedules.ShortGapsSuffice | agent/scheduler.go:51-54 | gaps of at most 23 hours suffice |
| Schedules.LongerGapLosesCleanup | agent/scheduler.go:51-54 | a gap of 23 hours and one second can lose a cleanup |
| StreamTexts.SplitStreamText | agent/stream_text.go:14-49 | the nested loops equal the cutting function; nothing but whitespace is lost and every chunk is good |
| StreamTexts.ChunksConserve | agent/stream_text.go:14-49 | content is conserved and text that is not blank never reaches the fallback |
| StreamTexts.ChunksGood | agent/stream_text.go:26-44 | no chunk is blank, spans lines or has a separator before its last character |
| StreamTexts.PiecesGood | agent/stream_text.go:30-43 | every piece of a line but the last ends in a separator |
| StreamTexts.SplitLine | agent/stream_text.go:30-43 | the scan of one line equals the cut after each separator |
| StreamTexts.SplitLines | agent/stream_text.go:20-20 | splitting at newlines |
| RequestRuntimes.Server.NeverOverlap | agent/planner_runtime.go:786-789 | on the heap, after any sequence of calls: two turns of one user never overlap |
| RequestRuntimes.Server.OwnClientThroughout | agent/request_runtime.go:21-39 | on the heap, after any sequence of calls: every model call of a request used the client its own store user had when its runtime was bound, and the runtime still holds it |
| RequestRuntimes.Server.OwnerKeepsClient | agent/request_runtime.go:5-39 | on the heap: unless the owner's own client was set, it is the one it started with |
| RequestRuntimes.Server.Arrive | agent/request_runtime.go:21-39 | the two heap steps of one arrival leave what requestRuntime promises: a fresh runtime of the owner and its store with the store user's client; the table gains this entry alone |
| RequestRuntimes.Server.Begin | agent/request_runtime.go:21-39 | the heap step: a fresh runtime, distinct from the owner and from every other |
| RequestRuntimes.Server.Bind | agent/agent.go:102-118 | the heap step: exactly this runtime's client is chosen |
| RequestRuntimes.Server.Lookup | agent/agent.go:90-96 | the heap step: the user's one mutex, made on first use |
| RequestRuntimes.Server.Lock | agent/planner_runtime.go:786-789 | the heap step: entry succeeds if and only if no request of the same user is inside |
| RequestRuntimes.Server.Use | agent/planner_runtime.go:790-791 | the heap step: the call uses the client its runtime holds |
| RequestRuntimes.Server.EnsureOwner | agent/agent.go:98-100 | choosing the owner's client touches no runtime |
| RequestRuntimes.UsesOwnClient | agent/request_runtime.go:21-39 | of every run of steps: the calls of a request use the client chosen when it was bound |
| RequestRuntimes.OwnerUntouched | agent/request_runtime.go:5-39 | of every run of steps: no request step is a step on the owner's client |
| RequestRuntimes.TurnsNeverOverlap | agent/planner_runtime.go:786-789 | in every interleaving two turns of one user never overlap |
| RequestRuntimes.StepKeepsInv | agent/agent.go:90-118 | every step of every request keeps clients, lock table and holders consistent |
| RequestRuntimes.RunKeepsInv | agent/agent.go:90-118 | so does every run |
| RequestRuntimes.LockFreeIff | agent/agent.go:90-96 | a request can enter exactly when no turn of the same user is inside: other users never block it |
| RequestRuntimes.ChosenForGood | agent/agent.go:102-118 | a chosen client is never replaced by any step |
| RequestRuntimes.Agent.RequestRuntime | agent/request_runtime.go:21-39 | a fresh runtime of the same owner with the chosen client; nothing that existed changes |
| RequestRuntimes.Agent.EnsureAIClientForStoreUser | agent/agent.go:102-118 | the agent's own client becomes the store user's, or none; no other agent is touched |
| RequestRuntimes.Agent.FlowLock | agent/agent.go:90-96 | one mutex per user in the owner's table, shared by all runtimes, never replaced |
| RequestRuntimes.NobodyElsesClient | agent/agent.go:120-131 | a user's client is the one stored for that user, the unnamed user's the one stored as default; what is stored for anybody else makes no difference |

## Left out

- SkillRuns.Conversation.ExtractField: assumes the draft-name normaliser leaves no whitespace at the ends, because it strips quotes after trimming and may uncover some.
- ChatRuns.MemoryRun.Take: a suspended task's conversation put back in between is not part of these runs; what a summary says is the model's.
- ChatHistories.ChatHistory.Get: the stored lists are values, so that internal appends share no memory with an earlier list is not expressed.
- RequestRuntimes.Agent.RequestRuntime: the owner's history field, created on first use, is not modelled.
- StrategyDrafts.ActiveDraft.MergeExtracted: keys are already trimmed; when two raw keys trim alike, Go's map order picks one.
- StrategyDrafts.SanitizePatch: works on values; the code writes loose settings into the decoded patch itself.
- TaskStacks.SnapshotStack.Push: the configuration store is assumed to accept the write; the code ignores a failure.
- Suspensions.UserContexts.RestoreById: uses one clock reading, the code reads the stack twice.
- PlanSessions.PlanSession.Resume: restoring a snapshot that was left on the stack could roll a plan session back; such restores are not part of its run.
- ActiveSessions.Brain.ExecuteSkill: starts, stops and deletes alone; creation, updates and the model's routing on the active session are not modelled, and one map order serves both passes of a call.
- SkillRuns.Conversation.Answer: in an active workflow, how the workflow moves on when a reply empties the slot, and what later tasks do to slot and stack, is not stated; in a workflow whose next task creates a strategy the reply goes to that task, which is not modelled; a reply that switches flows is Suspend and then other operations.
- SkillRuns.Conversation.WorkflowTurn: one task's turn; a task that ends lets the next one start, which is a further such turn.
- SkillRuns.Conversation.ConfirmFromIdle: idle turns reach this path without a model client alone, so the model's choice of a snapshot does not arise; a yes names no domain, so no other entry is restored.
- SkillRuns.Conversation.Suspend: snapshot names are assumed never to repeat, as random UUIDs are.
- Times are whole seconds of one clock without daylight saving; sub-second remainders are not modelled.
- Strings are sequences of characters: the 500-byte clip counts characters and case folding is ASCII.
- JSON encoding and decoding is the identity; tool arguments are their marshalled text.
- Whether an action needs confirmation is a parameter; the skill tables it comes from are not part of this model.
- Keyword classifiers (yes, no, cancel, all, social, domain) are inputs of a turn.
- Prompts, message wording, translations, resume-hint wording and diagnosis texts.
- User, plan and session id generation; the reference memory written beside an execution state.
- Workflow task actions are taken in the canonical spelling of their skill.
- The activate, duplicate, query and update branches of the skills.
- The update-patch families of the skill handlers, which are field-by-field copies.
- The legacy plan loop, tool implementations, exchanges, traders and HTTP handling.
