# Verified model of the alarm pipeline

`grpc-alarms` takes automated alarm updates and operator commands, decides in one coordinator what each
alarm's state should be, runs every decision through a snooze scheduler and a Kafka publish engine, and
reconciles the outcomes. The tasks share nothing but channels. What the service promises (no panic, no
forgotten snooze, no unpublished status on display, one answer per operator, a correct restart after a
crash) therefore holds only because of the whole protocol. This project models that protocol and proves it.

## How it is built

Each task is modelled twice. A class has the fields of the source's struct and methods that update them in
place. Pure transition functions say what one step does. Every method's contract equates the new fields and
the messages sent with the transition function of the old ones, and all further properties are proved about
the functions.

| file | what it holds |
|---|---|
| `Types`, `Messages`, `Policy`, `Keys` | domain values, channel messages, the coordinator's guards, the text form of alarm keys |
| `Coordinator`, `Workflow`, `Snooze`, `Publish` | the four tasks: transition functions, classes, laws of a single task |
| `Pipeline` | the tasks joined by their channels; any task that can move may move next |
| `TokenMachine`, `TokenProofs` | an abstract machine in which a key with an outstanding job holds one token; the inductive invariant |
| `Places`, `Refinement` | where in the channels each token is; every pipeline action is one token-machine step or none |
| `PipelineTheorems`, `Intents`, `Decisions`, `Dispatches`, `Routing`, `Callers`, `Confirmations` | the theorems about every reachable state and every run |
| `Convergence`, `Endings` | runs without further input: that they come to rest, what is confirmed then, and who is answered |
| `Witnesses` | reachable runs in which the service does what its comments rule out |
| `Replay` | the startup replay of the Kafka topic, and what log compaction may do to it |
| `Ingress` | automated ingress under overload: handle clones, drain task, lock, notify permit |

Choices of the environment are parameters of the actions: which update or command arrives, what the clocks
say, which timer fires, which attempt completes, whether it succeeded, and whether a failed attempt was
appended to the topic all the same.

## What the code does that its comments do not say

- `src/engine/coordinator.rs:68-69` says that every emitted job carries the id allocated for that decision.
  A rollback sends out the last confirmed id again, or id 0, which is never allocated
  (`Witnesses.JobUnderOldId`; `Dispatches.FailureIsFollowed` says exactly when). Only allocation is
  monotone. The chain of ids that does hold is `PipelineTheorems.IdChain`.
- `src/engine/coordinator.rs:263-266` says that shutdown fails every pending confirmation. It answers
  exactly the callers whose action is the latest intent of the key they asked for
  (`Callers.ShutdownAnswers`) and drops the others.
- A command that is superseded before it was dispatched is never answered at all
  (`Callers.CommandCanBeAbandoned`, `Callers.AbandonedForever`). `Callers.AbandonsIff` says exactly which
  step does that to a caller, and `Endings.AnsweredIff` that every other caller is answered once the
  pipeline comes to rest.
- `src/effects/snooze.rs:136-139` says that a wake equal to the present is rejected. The conversion accepts
  a duration of zero, so the wake is accepted and fires at once (`Snooze.WakeDeadline`). Nanoseconds are
  ignored, and the delay is capped at one year.
- A wake that arrives late is an ordinary `Unbypassed` update. It overwrites a newer `Alarmed` status of
  severity `High` (`Witnesses.WakeOverwritesAlarm`); `Coordinator.WakeIgnoredIff` says exactly which
  statuses it leaves alone.
- A snooze hydrated at startup has no timer until its key is published again
  (`PipelineTheorems.SnoozeIsKept`).
- Kafka's compaction keeps the newest record of a key even when that record is malformed; the bypass before
  it is then lost (`Replay.CompactionCanLoseABypass`). `Replay.DeletionHarmlessIff` says exactly which
  deletions are harmless.
- Calls of several ingress handles that overlap take effect in some order that real time allows
  (`Ingress.CoalescingIsLinearizable`), which need not be the order of their returns
  (`Ingress.OverlappingClonesCanSwap`).

## Assumptions

- Each handler is one atomic step on the message it takes. Channels are unbounded and stay open, except for
  the coordinator queue in `Ingress`. Since the order of tasks is arbitrary, every interleaving that
  bounded channels and the `biased` selects allow is among those considered.
- Automated statuses carry no wake time (`src/adapters/redis.rs:165-178`); command keys come from parsed
  text and are therefore normalized; hydrated statuses have the source of their key and carry a wake time
  only when bypassed. These are the predicates `Pipeline.Admissible` and `TokenProofs.Hydration`.
- A publish attempt and its gauge are counted when the attempt is put in flight; the source counts them when
  the attempt is first polled (`src/effects/publish.rs:149-154`), which the engine does in its next turn.
- A record left in the topic by a failed attempt is there before the failure is reported.
- A caller of a command is a number naming its oneshot channel; in `Callers` no two commands share one.
- The JSON encoding reads back, and encoded statuses are neither blank nor `null` (`Replay.Faithful`).

## Model

| member | source | states |
|---|---|---|
| `Policy.EpicsBypassGate` | src/engine/policy.rs:20-35 | an update gets past the bypass of an EPICS alarm if and only if it is `Unbypassed`, whatever its severity |
| `Policy.TransitionsAreSuccessors` | src/engine/policy.rs:85-97 | at unchanged severity only `Latched` and `Unbypassed` cannot be left by an automated update, `Unknown` and `Bypassed` by any, and every other alarm only moves between `Ok`, `Alarmed` and `Latched` |
| `Policy.RepeatIsPublishedIff` | src/engine/policy.rs:20-62 | the same update offered again is suppressed, unless it is `Unknown` or a bypass from another source than EPICS |
| `Policy.AllowedActionChanges` | src/engine/policy.rs:65-77 | an allowed user action changes the state or the wake time; on a bypassed alarm it is an activation or another bypass |
| `Decisions.UpdateDecided` | src/engine/policy.rs:20-62 | an automated update becomes the latest intent of its key, and is dispatched unless a job is outstanding, if and only if no EPICS bypass holds it back and the key is unknown, its severity differs, or its state may follow; otherwise nothing happens |
| `Decisions.CommandDecided` | src/engine/coordinator.rs:209-241 | an activation is accepted if and only if the view of the key is bypassed, an acknowledgement if and only if it is alarmed or latched, a bypass if and only if it is not already bypassed until that time; otherwise the view stays and the caller is told the present and the requested state |
| `Decisions.WakeDecided` | src/engine/coordinator.rs:290-302 | the same for a wake, as an `Unbypassed` update with the present time and no user, severity or wake |
| `Keys.NormalizeIdempotent` | src/model/key.rs:33-41 | normalizing a device name twice is normalizing it once |
| `Keys.TrimSurrounds` | src/model/key.rs:36-38 | trimming takes off exactly the white space at both ends |
| `Keys.SurroundedIsTrimmed` | src/model/key.rs:36-38 | and leaves whatever text is between |
| `Keys.KeyOfSpec` | src/model/key.rs:33-41 | the key of a status has its source, and its device name without surrounding white space, letter by letter in upper case |
| `Keys.ParseIff` | src/model/key.rs:43-71 | text parses to a key if and only if what precedes the first `#` normalizes to the non-empty device and what follows to the name of the source |
| `Keys.ParsedHasHash` | src/model/key.rs:51-68 | text without `#` is no key |
| `Keys.PrintedForms` | src/model/key.rs:73-77 | the printed form of a key, source by source |
| `Keys.ParsedIsCanonical` | src/model/key.rs:43-71 | a parsed key has a normalized, non-empty device without `#` and a known source |
| `Keys.PrintParse` | src/model/key.rs:43-77 | the printed form of a normalized key reads back as that key if it is canonical, and as no key otherwise |
| `Keys.ParsePrintParse` | src/model/key.rs:43-77 | whenever text parses, printing the key and parsing again gives the same key |
| `Keys.RoundTripIffCanonical` | src/model/key.rs:43-77 | for any key at all, printing and parsing gives it back if and only if it is canonical |
| `Keys.ParsedPrintInjective` | src/model/key.rs:73-77 | parsed keys print the same only if they are the same |
| `Coordinator.AlarmStateCoordinator.constructor` | src/engine/coordinator.rs:94-112 | hydrated statuses are confirmed under id 0, nothing is speculative or pending, the first id is 1 |
| `Coordinator.AlarmStateCoordinator.GetLatestStatus` | src/engine/coordinator.rs:369-374 | the latest status of a key is the speculative one, else the confirmed one |
| `Coordinator.AlarmStateCoordinator.GetNextId` | src/engine/coordinator.rs:377-381 | ids are allocated one by one |
| `Coordinator.AlarmStateCoordinator.SendNextFor` | src/engine/coordinator.rs:248-261 | a job goes out for a speculative key only, flagged as a user's exactly if its confirmation is pending |
| `Coordinator.AlarmStateCoordinator.HandleAutomatedUpdate` | src/engine/coordinator.rs:191-202 | the new caches and the jobs sent are those of the transition function for automated updates |
| `Coordinator.AlarmStateCoordinator.HandleUserUpdate` | src/engine/coordinator.rs:209-241 | the same for commands, with the confirmation kept or the refusal sent |
| `Coordinator.UserStatusCarriesCommand` | src/engine/coordinator.rs:385-397 | the status built for a command belongs to the command's key, names user and time, and carries a wake only as a bypass |
| `Coordinator.AlarmStateCoordinator.DispatchAutomatedWake` | src/engine/coordinator.rs:290-302 | a wake is handled as an automated `Unbypassed` update of its key |
| `Coordinator.WakeIgnoredIff` | src/engine/coordinator.rs:290-302 | the guard refuses a wake, which then leaves the latest intent alone, if and only if that intent is neither bypassed nor unknown and has the default severity |
| `Coordinator.AlarmStateCoordinator.ConvergeToLastConfirmed` | src/engine/coordinator.rs:332-342 | the speculative entry becomes the confirmed one, or the default status under id 0 |
| `Coordinator.FailureEffect` | src/engine/coordinator.rs:310-324 | a failure confirms nothing, tells the caller, and is followed by a job for the latest intent, unless the key is not known, when the coordinator stops |
| `Coordinator.SuccessEffect` | src/engine/coordinator.rs:350-366 | a commit is confirmed under its id whether or not the key is known, settles its intent only if it is the latest, and is otherwise followed by a job for the newer one |
| `Coordinator.AlarmStateCoordinator.ReconcileFailure` | src/engine/coordinator.rs:310-324 | the caches, jobs and answers after a failure, and that it stops exactly when the state for the job is lost |
| `Coordinator.AlarmStateCoordinator.ReconcileSuccess` | src/engine/coordinator.rs:350-366 | the caches, jobs and answers after a commit |
| `Coordinator.AlarmStateCoordinator.ReconcileJobOutcome` | src/engine/coordinator.rs:279-285 | every outcome goes to its handler |
| `Coordinator.AlarmStateCoordinator.HandleSnapshot` | src/engine/coordinator.rs:163-180 | a snapshot lists each visible confirmed status once and nothing else |
| `Coordinator.AlarmStateCoordinator.FailAllConfirmations` | src/engine/coordinator.rs:267-277 | at shutdown a caller is answered if and only if its id is the latest intent of some key; no confirmation stays pending |
| `Workflow.WorkflowHandler.AdvanceWorkflow` | src/engine/workflow.rs:199-220 | the next effect of the job is dispatched and its step counted, or the job fails after its last effect |
| `Workflow.AdvanceEffect` | src/engine/workflow.rs:199-253 | at step 0 the snooze command goes out, at step 1 the publish, a user's or an automated one as the job is, and from then on the job is dropped as failed; it panics exactly for an untracked key |
| `Routing.PublishesCarryJobs` | src/engine/workflow.rs:244-253 | in every reachable state a publish on its way or attempted has the key and status of the outstanding job of its key, and is a user's if and only if that job is |
| `Routing.ResultsGoTheirWay` | src/effects/publish.rs:117-142 | in every reachable state a result waits for a batch or comes in one if and only if the outstanding job of its key is automated, and comes alone if and only if it is a user's |
| `Workflow.WorkflowHandler.HandleNewJob` | src/engine/workflow.rs:172-177 | a new job is tracked and its snooze command sent |
| `Workflow.WorkflowHandler.SendFailed` | src/engine/workflow.rs:222-226 | the job is no longer tracked and reported as failed |
| `Workflow.WorkflowHandler.HandleSnoozeResult` | src/engine/workflow.rs:255-268 | what each scheduler reply leads to, with the counters, and when it panics |
| `Workflow.WorkflowHandler.DispatchPublishResult` | src/engine/workflow.rs:283-296 | the tracked job comes back as committed or failed as the result says |
| `Workflow.WorkflowHandler.HandlePublishOutcome` | src/engine/workflow.rs:270-281 | the results of a batch are handled in order; the counters of committed and failed jobs count the outcomes sent |
| `Workflow.BatchHandledIff` | src/engine/workflow.rs:183-189 | a batch is handled without a panic if and only if its keys are distinct and all tracked |
| `Workflow.BatchOutcomes` | src/engine/workflow.rs:270-296 | a handled batch untracks exactly its keys and reports each result with the job tracked for it, in order |
| `Snooze.WakeDeadline` | src/effects/snooze.rs:132-155 | a wake is accepted if and only if its second is representable and has not passed; it then fires at that second or after one year, whichever is sooner; nanoseconds do not matter |
| `Snooze.CommandEffect` | src/effects/snooze.rs:88-155 | a wake is accepted if and only if its second can be represented and has not passed; the key's timer is then at that second, or one year ahead if that is sooner, whether or not it had a timer; a cancel removes the timer, a rejected command changes nothing, and no other key is touched |
| `Snooze.InsertPairs` | src/effects/snooze.rs:97-107 | inserting under an unused handle keeps registry and delay queue inverse to each other, with one more timer |
| `Snooze.DropPairs` | src/effects/snooze.rs:72-79 | so does removing a timer from both, with one timer less |
| `Snooze.SnoozeScheduler.HandleSnoozeInput` | src/effects/snooze.rs:88-125 | registry and queue stay in bijection and the gauge equals sets minus cancels minus expirations; the reply and the deadlines are those of the wake, in plain numbers; the counters move exactly when they should |
| `Snooze.SnoozeScheduler.HandleExpiry` | src/effects/snooze.rs:72-79 | a timer that fires disappears from both structures and is reported; the bijection and the gauge are kept |
| `PublishEngine.PublishWorker.OnReceive` | src/effects/publish.rs:108-111 | a received publish becomes a first attempt |
| `PublishEngine.RetriesIff` | src/effects/publish.rs:89-98 | a failed attempt is retried if and only if it was the first |
| `PublishEngine.ConcludedEmits` | src/effects/publish.rs:117-142 | a user result goes out at once and alone; an automated one waits, until there are fifty |
| `PublishEngine.PublishWorker.OnCompletion` | src/effects/publish.rs:83-100 | a completed attempt is retried once or concluded; gauge and counters agree with the attempts in flight |
| `PublishEngine.PublishWorker.HandleCompletedWork` | src/effects/publish.rs:117-135 | user results go out at once, automated ones are batched up to fifty |
| `PublishEngine.PublishWorker.OnTick` | src/effects/publish.rs:102-106 | a tick flushes the batch, if there is one |
| `PublishEngine.StepConserves` | src/effects/publish.rs:66-142 | every event keeps the conservation law of the engine |
| `PublishEngine.RunConserves` | src/effects/publish.rs:66-142 | after any run, every received publish is in flight or concluded, once; every result is in the batch or emitted, once and in order; each publish had one or two attempts and its result is that of the last; the batch is below fifty; failures are retries plus failed results |
| `Replay.ReduceSnapshot` | src/adapters/epics_hydration.rs:35-86 | the replay maps a key to a status if and only if it is an EPICS key and some record about it decodes to that EPICS bypass and no later record about it is blank or decodes to an EPICS status |
| `Replay.LastRecordDecides` | src/adapters/epics_hydration.rs:56-82 | what the last record about a key does: blank or another EPICS status leaves nothing, an EPICS bypass is restored, an undecodable or foreign payload leaves the answer of the records before it |
| `Replay.TombstoneIff` | src/adapters/epics_hydration.rs:60-63 | a tombstone is exactly white space, or `null` in any case between white space |
| `Replay.RestoredIsBypassed` | src/adapters/epics_hydration.rs:56-82 | everything restored is a bypassed EPICS status under a canonical EPICS key |
| `Replay.LastVerdictAppend` | src/adapters/epics_hydration.rs:35-86 | more records change the answer for a key only if one of them decides it |
| `Replay.DeletionHarmlessIff` | src/adapters/epics_hydration.rs:35-86 | deleting a record changes no answer if and only if it decides nothing, a later record decides its key, or the records before it gave the same answer |
| `Replay.CompactionCanLoseABypass` | src/adapters/epics_hydration.rs:65-71 | a bypass can be lost when only the newest record of its key is kept |
| `Replay.ReplayPublished` | src/effects/publish.rs:176-179 | replaying the topic after the service appended to it gives, per canonical EPICS key, the last status published for it if that is a bypass, else what the earlier topic gave |
| `TokenProofs.StepKeeps` | src/engine/coordinator.rs:64-78 | every step of the protocol keeps the whole invariant: ownership, one token per key, stamps, chain of ids, flags, timers, topic, conservation, discipline |
| `TokenProofs.ReachableHolds` | src/engine/coordinator.rs:64-78 | the invariant holds in every reachable state |
| `Refinement.ActionRefines` | src/runtime.rs:60-116 | every action of the joined tasks is one step of the token machine or only moves a token on, and breaks nothing |
| `PipelineTheorems.ReachableImplements` | src/runtime.rs:60-116 | every reachable pipeline state implements a reachable token-machine state |
| `PipelineTheorems.NothingBreaks` | src/engine/workflow.rs:183-220 | the `expect`s of the workflow handler never fail, no workflow is overrun, no state for a job is lost |
| `PipelineTheorems.TokenIffSpeculative` | src/engine/coordinator.rs:248-261 | a key has speculative state if and only if a channel holds its token |
| `PipelineTheorems.TokenIsUnique` | src/engine/workflow.rs:172-296 | it is in one place only |
| `PipelineTheorems.WorkflowTracksTokens` | src/engine/workflow.rs:172-296 | the workflow handler tracks exactly the keys between snooze command and publish result, with the step counter of that stage |
| `PipelineTheorems.OccupancyIsSpeculative` | src/runtime.rs:60-69 | the channels together hold as many tokens as there are speculative keys |
| `PipelineTheorems.SnoozeIsKept` | src/engine/coordinator.rs:290-366 | for a key at rest a timer means a snoozed confirmed status, and a snoozed confirmed status has its timer or the expiry on its way if and only if the key was published in this run |
| `PipelineTheorems.WakeReleases` | src/engine/coordinator.rs:290-302 | the wake that reaches a snoozed key at rest is never refused |
| `PipelineTheorems.CrashRecovery` | src/adapters/epics_hydration.rs:35-86 | for a canonical EPICS key at rest, replaying the whole topic restores exactly its confirmed bypass, or nothing, even if failed attempts were appended |
| `PipelineTheorems.VisibleIsPublished` | src/engine/coordinator.rs:163-180 | after any run a snapshot shows, per key, the status of its most recent commit, which is in the topic, or the hydrated one if there was none, exactly if it is neither `Ok` nor `Unbypassed` |
| `PipelineTheorems.VisibleIsLast` | src/engine/coordinator.rs:163-180 | at rest a snapshot shows the last published status, or the hydrated one, unless it is `Ok` or `Unbypassed` |
| `PipelineTheorems.SpeculativeHasJob` | src/engine/coordinator.rs:70-71 | every key with speculative state has an outstanding job |
| `PipelineTheorems.IdChain` | src/engine/coordinator.rs:350-381 | confirmed id <= id of the outstanding job <= speculative id < next id, and a key has one outstanding job |
| `PipelineTheorems.IdNamesOneStatus` | src/engine/coordinator.rs:248-261 | key and id determine the status wherever they occur, and an allocated id determines the key |
| `PipelineTheorems.ConfirmedIdNeverDrops` | src/engine/coordinator.rs:350-366 | the confirmed id of a key never decreases over a run |
| `Intents.IntentsRefined` | src/engine/coordinator.rs:310-374 | the view "speculative, else confirmed" is one map that accepted inputs set, that the failure of a still-current user job resets, and that nothing else changes |
| `Intents.CommitKeepsView` | src/engine/coordinator.rs:350-366 | a commit leaves the whole view alone |
| `Intents.FailureResets` | src/engine/coordinator.rs:310-342 | a failure resets its key if it was the user's and still current, and leaves the view alone otherwise |
| `Intents.EpicsBypassHolds` | src/engine/policy.rs:20-35 | the bypass of an EPICS key survives every run without an activation, an automated `Unbypassed`, a wake or a rollback of that key |
| `Dispatches.UserJobsGoOutOnce` | src/engine/coordinator.rs:248-261 | over every run a user id is dispatched with the flag at most once, and never again after its job failed |
| `Dispatches.FlagIsPending` | src/engine/coordinator.rs:248-261 | an outstanding job is flagged if and only if its confirmation is pending |
| `Dispatches.FailureIsFollowed` | src/engine/coordinator.rs:310-342 | a failed automated job goes out again unchanged, a failed user job gives way to the confirmed or default status, and newer intent goes before both |
| `Dispatches.SecondDispatchIsRollback` | src/engine/coordinator.rs:332-342 | after any run, an id allocated to a command goes out unflagged only after a failure, as the confirmed entry of its key |
| `Witnesses.JobUnderOldId` | src/engine/coordinator.rs:310-342 | a reachable run, for any bypass of a key not hydrated, in which a job goes out under id 0 |
| `Confirmations.ActionsConserved` | src/engine/coordinator.rs:209-241 | the pending confirmations and the answers together are exactly the accepted user actions, each counted once |
| `Confirmations.AnswersAreReplies` | src/engine/coordinator.rs:310-366 | the answers so counted are the replies sent: one for a settled job whose confirmation is pending, none for another |
| `Confirmations.SupersededForever` | src/engine/coordinator.rs:209-241 | an action superseded before dispatch is never answered |
| `Callers.CallersConserved` | src/engine/coordinator.rs:209-366 | over every run, whoever sent a command is waiting or was answered exactly once; success means that the very status asked for is in the topic; errors name its key |
| `Callers.ShutdownAnswers` | src/engine/coordinator.rs:267-277 | after any run, shutdown answers a pending caller if and only if its action is the latest intent of the key it asked for, naming that key; an abandoned caller is dropped |
| `Callers.AbandonedForever` | src/engine/coordinator.rs:209-241 | a caller whose command is neither latest intent nor outstanding waits as long as the service runs |
| `Callers.AbandonsIff` | src/engine/coordinator.rs:191-241 | a step newly abandons a caller if and only if it is an accepted input, command or wake for a key whose latest intent is the caller's and not yet dispatched |
| `Callers.AbandonedIffReplaced` | src/engine/coordinator.rs:191-241 | over any run a caller ends up abandoned if and only if it was, or such a step occurred |
| `Callers.CommandCanBeAbandoned` | src/engine/coordinator.rs:209-241 | this happens: two commands during the publish of a new alarm abandon the first caller |
| `Convergence.QuietDecreases` | src/engine/workflow.rs:199-220 | once inputs and expiries stop and publishes succeed, every action decreases a measure |
| `Convergence.QuietRunsEnd` | src/engine/workflow.rs:108-108 | from every reachable state all such runs are bounded |
| `Convergence.RestIsReached` | src/engine/workflow.rs:150-170 | and one of them comes to rest |
| `Convergence.StuckIsSettled` | src/engine/coordinator.rs:350-366 | at rest nothing is speculative if and only if no snooze with an unrepresentable wake is left; what is confirmed then is the latest intent of every key |
| `Endings.ConvergesIff` | src/engine/coordinator.rs:310-374 | once inputs and expiries stop, a key keeps its latest intent to the end if and only if no failed user job that is still current is on its way back, and no wake that its latest intent will not ignore |
| `Endings.Converges` | src/engine/coordinator.rs:310-374 | for all keys: the state confirmed at rest is the view of the moment the inputs stopped if and only if no key is rolled back or woken |
| `Endings.AnsweredIff` | src/engine/coordinator.rs:350-366 | over a quiet run to rest a pending caller stays unanswered if and only if it was abandoned before, unless a wake under way threatens its action |
| `Endings.AnsweredUnlessReplaced` | src/engine/coordinator.rs:350-366 | without exception: if and only if it was abandoned before or a wake of the run took its action's place |
| `Witnesses.WakeOverwritesAlarm` | src/engine/coordinator.rs:290-302 | a reachable run in which the wake of a bypass overwrites a newer `Alarmed` status of severity `High` |
| `Convergence.FewCommits` | src/engine/coordinator.rs:350-366 | a key is committed at most twice more, and once for each wake under way |
| `Ingress.InsertSpec` | src/engine/ingress.rs:92-98 | a retained key keeps its place and takes the new value, a new key goes to the back, keys stay distinct |
| `Ingress.OverloadState.RetainIfOverloaded` | src/engine/ingress.rs:92-98 | the first lock section of a call: in overload mode the update is retained and the gauge set |
| `Ingress.OverloadState.RetainRefused` | src/engine/ingress.rs:105-114 | the second lock section, after the queue was full: the update is retained, overload mode entered and counted |
| `Ingress.OverloadState.PopOldest` | src/engine/ingress.rs:136-153 | the drain task's lock section: the oldest retained update, or the end of overload mode |
| `Ingress.StepSafe` | src/engine/ingress.rs:89-157 | every interleaved step keeps the safety invariant of the overload machine |
| `Ingress.StepCounts` | src/metrics.rs:211-246 | the counters and the gauge of overload move exactly with the steps they count, and a direct send goes through if and only if the queue has room |
| `Ingress.NoLostWakeUp` | src/engine/ingress.rs:89-157 | for any number of clones, whatever is retained will be drained; outside overload mode nothing is retained; each key is retained once and the gauge counts them |
| `Ingress.StepSound` | src/engine/ingress.rs:89-157 | for any number of clones, coalescing stays sound in every step that puts no update on the queue while another one of its key waits |
| `Ingress.DirectSendIff` | src/engine/ingress.rs:100-105 | a direct send keeps the newest update of its key the newest sent if and only if none of that key waits, or the last that waits is the same |
| `Ingress.CoalescingIsSound` | src/engine/ingress.rs:89-157 | for any number of clones whose calls do not overlap, at every interleaving, the newest status per key over delivered, in hand and retained is the newest sent, and what is delivered is a subsequence of what was sent |
| `Ingress.OneSenderIsSound` | src/engine/ingress.rs:89-157 | with one sender that is every run |
| `Ingress.CoalescingIsLinearizable` | src/engine/ingress.rs:89-157 | for any number of clones and at every interleaving the finished calls of a key have an order that respects real time, of which the newest status is the last and what is delivered is a subsequence |
| `Ingress.OverlappingClonesCanSwap` | src/engine/ingress.rs:100-117 | that order need not be the order of the returns |

## Left out

- Endings.AnsweredIff: asks that the snoozes still queued at rest have wake times that are dates, because any other is rejected and its job retried for ever.
- Endings.ConvergesIff: says that a rolled back or woken key loses its latest intent, not which status replaces it, because that depends on the order of the messages under way.
- PipelineTheorems.IdChain: ids are unbounded naturals; the wrap-around of the 64-bit counter is not modelled.
- Keys.NormalizeIdempotent: trimming and uppercasing are those of ASCII text; Unicode case mapping is not modelled.
- Liveness without conditions, and freedom from deadlock with bounded channels: the code guarantees neither by itself.
- Closing of channels and shutdown of tasks, except for what happens to the pending confirmations.
- gRPC, Redis, Kafka and AEOLUS transport, logging, configuration and startup wiring.
- Protobuf field values outside the declared enumerations; the `.proto` files are not part of this model.
- Latency histograms, the metrics snapshot, and the counter of rejected user commands.
- `merge_hydrated_statuses`, the gRPC result mapping and error texts: easy members only.
