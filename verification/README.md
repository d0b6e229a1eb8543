# Continuity control in Tuku

Tuku's orchestrator runs coding work under durable records. A work capsule names a goal, a brief
and a phase; runs, checkpoints and handoff packets hang on it; every decision an operator sees is
derived again from those records. This project models that control plane in Dafny and proves what
the derivations and the transactions promise about each other.

Four parts are modelled.

* **The handoff launch protocol.** Packets are created, accepted, launched, followed through and
  resolved. A launch is two transactions around a call to an outside launcher, so calls overlap,
  get lost and are retried. `HandoffSteps` gives each transaction as a function on the tables,
  `HandoffCoordinator` is the object that carries them out in place, `HandoffProtocol` is the
  transition system over any interleaving and any crash, `LaunchSafety`, `HandoffTheorems` and
  `HandoffReplay` hold the results, `HandoffWalkthrough` walks one run to the end and
  `HandoffDetours` a few others. `AssessmentAnswers`, `NewestRows` and `HandoffAnswers` say on the
  rows alone when each assessment, posture and transaction answers what, and what it writes.
* **Recovery and its advice.** `Recovery` classifies an assessment, `RecoveryMachine` holds the
  executors that move a task on, `RecoveryTheorems` and `RecoveryPath` speak of runs of them,
  `Authority` fills the set of operator actions by overlapping
  writes, `OperatorTruth` and `ExecutionPlan` say what is left of those writes and why the advised
  step can be taken. `RecoveryClasses`, `RecoveryAnswers` and `PlanAnswers` say when each class is
  reached, each action recorded and each step listed.
* **Incident intelligence.** Triage and follow-up receipts are recorded, rolled up in one pass,
  classified, paged and sliced: `IncidentRecording`, `Incidents`, `IncidentClosure`,
  `ClosureTheorems`, `TaskRisk`, `ReceiptPaging`, `IncidentSlice`; `ClosureClasses`,
  `IncidentAnswers` and `SliceAnswers` state their answers on the receipts.
* **Brief regeneration.** `BriefRegeneration` shows that a brief built from itself is itself,
  `BriefContents` what it holds.

Conventions. A table of the store is a sequence in creation order and the store's "latest" queries
return the last matching row. Lists the store orders by creation time and id are ordered that way in
the model. Transactions are atomic. A function named `…On` takes the tables before a transaction
and returns its answer and the tables after it; a rejected transaction returns the tables unchanged.
Where an operation assesses first and opens its transaction later, the earlier assessment is a
parameter and may be arbitrarily old. Generated ids are fresh and not blank. The launcher names its
launch and stamps its end, as `internal/adapters/claude/launcher.go` does. Go's zero time is 0.

`dafny verify dfyconfig.toml` checks the project.

## What was found

Statements a reader might expect of the code and that do not hold. Each is proved with its exact
condition, and with a concrete input or reachable state that meets the bad side of it.

* The call that records a resolution does not always answer RESOLVED: a completed, acknowledged
  launch with a recognised follow-through hides the resolution (`ResolvedIff`, `ReplyResolvedIff`;
  `ResolutionHiddenByFollowThrough` and, on a reachable state, `ReplyHidesResolution`). Later
  assessments no longer select the branch at all.
* Only the 12 newest packets can be the active branch (`ActiveIffEligibleAmongNewest`,
  `ThirteenthIsNotSeen`).
* Repeating an untargeted resolve request resolves the next active branch instead of replaying
  (`ResolveRepeated`, `RepeatResolvesAnother`).
* A launch outcome leaves a transition receipt only if its packet is the active branch
  (`FinalizeLeavesReceiptIffActive`, `OutcomeWithoutReceipt`).
* A review of a failed or validating run that names no summary is answered with the review of an
  earlier run, if that is the newest action and the notes agree; the run keeps waiting for its review
  (`ReviewRecordedIff`, `OlderReviewReplayed`).
* Recovery reviews are not guarded by the capsule version (`ReviewsAreNotGuarded`, `ReviewedTwice`),
  and a decision to regenerate the brief stays in force after it was carried out
  (`RegenerateDecisionPersists`, `RegenerateOutlivesItsRun`).
* A rebrief can be advised where its executor refuses, because the brief it starts from is missing
  (`AdvisedCommitsIff`, `RebriefAdvisedInVain`); an advised resume or continue finalization always
  commits (`AdvisedResumeCommits`).
* Retrying a triage or follow-up without a summary, or with one that is cut right after a space,
  records it again (`FollowUpRetryReusesIff`, `BlankFollowUpTwice`, `TriageRetryReusesIff`,
  `BlankTriageTwice`); on an anchor's first follow-up this alone turns the window's class into a weak
  one (`RetryLooksStagnant`).
* A page of follow-ups can count more anchors than its triage window holds, because an anchor may
  have been triaged before that window (`PageAddsUpIff`, `FollowedUpBeforeTheWindow`).
* A STABLE window can hold an item that is not stable (`StableItemIff`, `StableWindowUnstableItem`),
  "recurring" unresolved risk can rest on one anchor (`UnresolvedRiskIff`,
  `OneReopenedAnchorRecurs`), and an empty follow-up window is never notable
  (`EmptyWindowIsNotNotable`, for all triages).

One check never decides anything: the search for an equal record before a recovery action is written
finds none that the search for a repeated request has not found (`SecondCheckIsIdle`).

One condition is about inputs no recording operation writes: a cursor whose receipt carries the zero
time would start the history over (`CursorContinuesIff`).

## Model

| member | source | states |
|---|---|---|
| HandoffContinuity.NotApplicableIff | internal/orchestrator/handoff_continuity.go:49-151 | continuity is NOT_APPLICABLE exactly when there is no accepted, resumable Claude packet, whatever the other records say |
| HandoffContinuity.ResolvedIff | internal/orchestrator/handoff_continuity.go:113-151 | a branch with a matching resolution is reported RESOLVED exactly when no recognised follow-through of a completed, acknowledged launch precedes the check |
| HandoffContinuity.ResolutionHiddenByFollowThrough | internal/orchestrator/handoff_continuity.go:113-133 | concrete records with a matching resolution that are reported as follow-through unknown |
| HandoffContinuity.DownstreamProvenOnlyWithEvidence | internal/orchestrator/handoff_continuity.go:113-133 | downstream continuation is claimed exactly in the two proven states, and only with a completed launch, an acknowledgment and a proving follow-through record |
| NewestRows.LatestRunIs | internal/storage/sqlite/store.go:1018-1027 | the newest run of a task is the one no later run of it follows |
| NewestRows.LatestCheckpointIs | internal/storage/sqlite/store.go:1152-1161 | the same for checkpoints |
| NewestRows.LatestActionIs | internal/storage/sqlite/recovery_action_repo.go:76-85 | the same for recovery actions |
| NewestRows.LatestPacketIs | internal/storage/sqlite/handoff_repo.go:158-167 | the same for handoff packets |
| NewestRows.LatestLaunchIs | internal/storage/sqlite/handoff_repo.go:470-479 | the newest launch attempt of a handoff is the one no later attempt of it follows |
| NewestRows.LatestAckIs | internal/storage/sqlite/handoff_repo.go:526-535 | the same for acknowledgments |
| NewestRows.LatestFollowThroughIs | internal/storage/sqlite/handoff_repo.go:603-612 | the same for follow-throughs |
| NewestRows.LatestResolutionIs | internal/storage/sqlite/handoff_repo.go:358-367 | the same for resolutions of a handoff |
| NewestRows.LatestResolutionByTaskIs | internal/storage/sqlite/handoff_repo.go:406-415 | the same for resolutions of a task |
| AssessmentAnswers.ControlIff | internal/orchestrator/launch_control.go:45-111 | each state of launch control and each retry disposition, on the packet's fields and the status of its newest attempt, and the ids reported |
| AssessmentAnswers.PostureIff | internal/orchestrator/handoff_continuity.go:49-151 | each posture of an accepted, resumable Claude packet, on the newest attempt, acknowledgment, follow-through and resolution |
| AssessmentAnswers.PostureIds | internal/orchestrator/handoff_continuity.go:49-151 | the ids a posture reports: the handoff's, its newest attempt's, and the resolution's only if it is about this handoff |
| ActiveBranch.ActivePacket | internal/orchestrator/continuity.go:135-179 | whatever the selector picks is a stored packet of that task, accepted, for Claude and unresolved |
| ActiveBranch.FirstEligibleIsFirst | internal/orchestrator/continuity.go:141-152 | of several eligible packets the newest is picked |
| ActiveBranch.ListPacketsPosition | internal/orchestrator/continuity.go:136-140 | each packet with fewer than `limit` newer ones of its task is listed, at the place given by their number |
| ActiveBranch.ListPacketsSource | internal/orchestrator/continuity.go:136-140 | every listed packet is a packet of the task, at the place given by the number of newer ones |
| ActiveBranch.ActiveIffEligibleAmongNewest | internal/orchestrator/continuity.go:135-179 | a task has an active Claude branch exactly when one of its 12 newest packets is accepted, for Claude and unresolved |
| ActiveBranch.ThirteenthIsNotSeen | internal/orchestrator/continuity.go:136-140 | concrete tables with an accepted, unresolved packet and twelve newer ones, without an active branch |
| AssessmentAnswers.ActiveIs | internal/orchestrator/continuity.go:135-179 | the active packet is the last accepted, unresolved Claude packet of the task, if fewer than 12 packets of the task follow it |
| AssessmentAnswers.NoneActive | internal/orchestrator/continuity.go:135-179 | without such a packet none is active |
| AssessmentAnswers.SilentIff | internal/orchestrator/continuity.go:373-704 | the validator is silent exactly when the task has no packet, or its newest packet names a stored brief and a fitting checkpoint, its acceptance is complete or absent, and its newest launch, acknowledgment, follow-through and the task's newest resolution belong to it |
| AssessmentAnswers.OutcomeIff | internal/orchestrator/service.go:765-921 | each outcome of an assessment as an if-and-only-if on inconsistencies, the newest run, the phase and the drift |
| AssessmentAnswers.AssessedRows | internal/orchestrator/service.go:765-921 | the assessment carries the task's capsule and newest rows, and the drift unless an inconsistency or a running run kept the repository from being compared |
| AssessmentAnswers.AssessedBranch | internal/orchestrator/continuity.go:64-133 | the assessed branch is the active packet with the newest rows of that handoff, and the newest resolution of the task |
| AssessmentAnswers.BranchIff | internal/orchestrator/branch_provenance.go:38-91 | an assessed packet makes the task a Claude branch named by its handoff, if the handoff has an id or an open posture; otherwise the branch is the task's own |
| AssessmentAnswers.ImmaterialIff | internal/orchestrator/continuity_transition_receipts.go:215-232 | a transition is immaterial exactly when the snapshots agree on all but target worker, proof of continuation, retry disposition and the handoff launch control names |
| ContinuityValidator.ValidateHandoffContinuity | internal/orchestrator/continuity.go:373-704 | the growing violation list contains exactly the codes whose declarative condition on the newest records holds, and is empty exactly when there is no violation |
| ContinuityValidator.CheckPacket | internal/orchestrator/continuity.go:373-465 | the packet checks report exactly the packet codes whose condition holds |
| ContinuityValidator.CheckLaunch | internal/orchestrator/continuity.go:467-514 | the launch checks report something exactly for a launch that contradicts its packet or its own status |
| ContinuityValidator.CheckAck | internal/orchestrator/continuity.go:515-575 | the acknowledgment checks report something exactly when a completed launch lacks its acknowledgment or the acknowledgment contradicts packet or launch |
| ContinuityValidator.CheckFollowThrough | internal/orchestrator/continuity.go:576-628 | the follow-through checks report something exactly for a record that does not belong to the packet's completed newest launch |
| ContinuityValidator.CheckResolution | internal/orchestrator/continuity.go:629-704 | the resolution checks report something exactly for a record whose packet or attempt is missing or disagrees |
| HandoffInvariant.NoViolations | internal/orchestrator/continuity.go:373-704 | tables that satisfy the protocol invariant give the independent validator nothing to report, for any task |
| HandoffPreservation.CreateKeepsInv | internal/orchestrator/handoff.go:54-180 | creating a packet, on any assessment however stale, keeps the invariant; in particular every stored packet is resumable and anchored to a resumable checkpoint |
| HandoffPreservation.AcceptKeepsInv | internal/orchestrator/handoff.go:182-255 | accepting a packet keeps the invariant |
| HandoffPreservation.PreparedFacts | internal/orchestrator/handoff_launch.go:93-231 | a request is written only for an unresolved packet of the task all of whose earlier attempts failed, and is the one row added |
| HandoffPreservation.PrepareKeepsInv | internal/orchestrator/handoff_launch.go:93-231 | the prepare transaction keeps the invariant |
| HandoffPreservation.FinalizeKeepsInv | internal/orchestrator/handoff_launch.go:233-459 | writing the outcome of any recorded attempt keeps the invariant; in particular every completed launch has its acknowledgment |
| HandoffPreservation.FollowThroughFacts | internal/orchestrator/handoff_followthrough.go:33-142 | a new follow-through belongs to the active branch and to its completed launch, and is the one row written |
| HandoffPreservation.FollowThroughKeepsInv | internal/orchestrator/handoff_followthrough.go:33-142 | recording a follow-through keeps the invariant |
| HandoffPreservation.ResolvedWrites | internal/orchestrator/handoff_resolution.go:77-197 | a new resolution is about the active, so far unresolved branch, carries the requested kind and summary, and only it and a receipt are written |
| HandoffPreservation.ResolvedFacts | internal/orchestrator/handoff_resolution.go:97-114 | a new resolution refers to an existing packet and to its newest attempt, if it names one |
| HandoffPreservation.ResolveKeepsInv | internal/orchestrator/handoff_resolution.go:36-197 | recording a resolution keeps the invariant; in particular no handoff is resolved twice |
| HandoffProtocol.LiveRow | internal/orchestrator/handoff_launch.go:233-300 | a launch call in flight finds its own attempt, still REQUESTED |
| HandoffProtocol.FinalizeWrites | internal/orchestrator/handoff_launch.go:233-459 | a finalize transaction rewrites the row of its own attempt and no other |
| HandoffProtocol.StepKeepsSysInv | internal/orchestrator/handoff_launch.go:57-91 | every step of the protocol, including crashes and overlapping calls, keeps the store invariant, the ownership of in-flight attempts and the invocation log |
| HandoffProtocol.RunKeepsSysInv | internal/orchestrator/handoff_launch.go:57-91 | so does every run |
| HandoffProtocol.ReachableInv | internal/orchestrator/handoff_launch.go:57-91 | every state reachable from an empty handoff store satisfies the system invariant |
| LaunchSafety.AttemptHistoryShape | internal/orchestrator/handoff_launch.go:150-191 | in every reachable state a handoff's attempts are failures followed by at most one pending, lost or completed attempt |
| LaunchSafety.CallsNeverShareAttempts | internal/orchestrator/handoff_launch.go:57-91 | no two launcher invocations were made for the same attempt |
| LaunchSafety.InvocationsBoundedByFailures | internal/orchestrator/handoff_launch.go:57-91 | in every reachable state the launcher was invoked for a handoff at most once more than it durably failed |
| LaunchSafety.LiveIsNotSettled | internal/orchestrator/handoff_launch.go:475-515 | no call is in flight for a handoff whose launch is completed or lost |
| LaunchSafety.SettledStaysSettled | internal/orchestrator/handoff_launch.go:475-515 | once a handoff's launch is completed or its outcome is lost, no continuation of the run adds or changes an attempt of it or invokes the launcher for it |
| HandoffWalkthrough.ResolvedIsReached | internal/orchestrator/handoff_launch.go:57-91 | a reachable state with one completed launch, no failure, one launcher invocation (so the bound is met), a resolved branch and two receipts |
| HandoffDetours.ReplyHidesResolution | internal/orchestrator/handoff_resolution.go:135-136 | a reachable state in which the resolving call answers that the follow-through is unknown |
| HandoffDetours.OutcomeWithoutReceipt | internal/orchestrator/handoff_launch.go:233-459 | a reachable state, a created packet launched by its id, whose finalize writes the outcome and no receipt |
| HandoffDetours.RepeatResolvesAnother | internal/orchestrator/handoff_resolution.go:36-76 | a reachable state with two accepted packets in which the repeated untargeted request resolves the other one |
| HandoffTheorems.WritersAndCheckersAgree | internal/orchestrator/continuity.go:373-704 | in every reachable state the validator is silent, a lost acknowledgment is never reported, the selected branch is never reported resolved, and continuity is NOT_APPLICABLE exactly when no branch is active |
| HandoffTheorems.ActiveContinuity | internal/orchestrator/handoff_continuity.go:49-151 | under the invariant the assessed posture is active, for Claude, unresolved and about the selected packet exactly when one is selected |
| HandoffTheorems.AtMostOneResolution | internal/orchestrator/handoff_resolution.go:77-174 | a handoff has at most one resolution record |
| HandoffTheorems.StepSkipsResolved | internal/orchestrator/handoff_resolution.go:77-174 | no step changes the resolutions, attempts or follow-throughs of a resolved handoff, apart from the outcome of an attempt already made |
| HandoffTheorems.ResolutionIsTerminal | internal/orchestrator/handoff_resolution.go:77-174 | over any run a resolved handoff keeps exactly one resolution, gets no further attempt and no follow-through, and is never the active branch of any task again |
| HandoffTheorems.ResolutionLeavesReceipt | internal/orchestrator/handoff_resolution.go:77-174 | every resolution that is not a replay changes the branch and leaves exactly one transition receipt naming it |
| HandoffReplay.CreateRetryReuses | internal/orchestrator/handoff.go:461-504 | retrying a successful create with nothing in between returns the created packet and writes nothing |
| HandoffReplay.ResolveRepeated | internal/orchestrator/handoff_resolution.go:36-76 | repeating a resolve request replays its record exactly when no other branch is active; otherwise a targeted request is refused and an untargeted one resolves the other branch |
| HandoffReplay.ReplyResolvedIff | internal/orchestrator/handoff_resolution.go:135-136 | the call that records a resolution answers RESOLVED exactly when the branch had no recognised follow-through, else with the state before; the next assessment never answers RESOLVED |
| HandoffReplay.OutcomeReceiptIffActive | internal/orchestrator/handoff_launch.go:233-459 | writing a launch outcome adds its receipt exactly when the packet is the task's active branch |
| HandoffReplay.FinalizeLeavesReceiptIffActive | internal/orchestrator/handoff_launch.go:233-459 | the same for every finalize step of every run |
| HandoffAnswers.CreateIff | internal/orchestrator/handoff.go:54-180 | when a create is an error, blocked, answered with the newest packet or carried out, on the request, the assessed rows and the stored ones; mode, reason, notes and every copied field must agree for a packet to be answered again |
| HandoffAnswers.CreatedRows | internal/orchestrator/handoff.go:321-373 | every field of a created packet, the checkpoint it hangs on, and when that checkpoint is written with it |
| HandoffAnswers.AcceptIff | internal/orchestrator/handoff.go:182-255 | when a packet is newly accepted and when an acceptance is confirmed, on its status, task and acceptors |
| HandoffAnswers.AcceptedRow | internal/orchestrator/handoff.go:218-232 | an acceptance writes status, time, acceptor and the added notes of that packet and nothing else |
| HandoffAnswers.PreparedIff | internal/orchestrator/handoff_launch.go:93-231 | an attempt is prepared exactly when the packet meant is of the task, for Claude as asked, not blocked, resumable and unresolved, its newest attempt failed if there is one, nothing is inconsistent, no run is running, no decision awaited, no drift seen, its brief stored and its checkpoint stored, resumable and fitting |
| HandoffAnswers.PreparedRow | internal/orchestrator/handoff_launch.go:718-732 | the attempt names that packet, is REQUESTED and carries no launch id or end; it is the one row written |
| HandoffAnswers.FinalizedRows | internal/orchestrator/handoff_launch.go:233-459 | an outcome is written exactly for a recorded attempt that is still REQUESTED; its row and the acknowledgment of a success are those of the launcher's output, every other row stays |
| HandoffAnswers.FinalizedReceipt | internal/orchestrator/handoff_launch.go:233-459 | the receipt of an outcome, if there is one, names the attempt and its handoff |
| HandoffAnswers.FollowThroughIff | internal/orchestrator/handoff_followthrough.go:33-176 | when a follow-through is answered with the newest record and when it is recorded, on posture, attempt, kind and summary |
| HandoffAnswers.FollowThroughRow | internal/orchestrator/handoff_followthrough.go:84-112 | a recorded follow-through names the active packet and its newest launch; it is the one row written |
| HandoffAnswers.ResolveIff | internal/orchestrator/handoff_resolution.go:36-243 | when a resolution is answered with the newest record and when it is recorded, on posture, target, kind and summary |
| HandoffAnswers.ResolutionRow | internal/orchestrator/handoff_resolution.go:97-174 | a recorded resolution names the active packet and its newest attempt, if it has one; only it and its receipt are written |
| HandoffCoordinator.Coordinator.LoadActiveBranch | internal/orchestrator/continuity.go:135-179 | the scanning loop returns the records of the declaratively selected branch |
| HandoffCoordinator.Coordinator.AssessContinue | internal/orchestrator/service.go:765-921 | the chain of early returns computes the one assessment of tables and observation, and answers each outcome exactly under its condition on inconsistencies, newest run, phase and drift |
| HandoffCoordinator.Coordinator.CreateHandoff | internal/orchestrator/handoff.go:54-180 | answer and tables after the call are those of the create transaction |
| HandoffCoordinator.Coordinator.AcceptHandoff | internal/orchestrator/handoff.go:182-255 | answer and tables after the call are those of the accept transaction |
| HandoffCoordinator.Coordinator.PriorLaunchOutcome | internal/orchestrator/handoff_launch.go:475-515 | an earlier attempt answers the request exactly when it counts and did not fail: pending while its outcome is unknown, completed with its launch id when acknowledged, completed without acknowledgment otherwise |
| HandoffCoordinator.Coordinator.LaunchSafety | internal/orchestrator/handoff_launch.go:517-573 | the ordered checks accept exactly under the conjunction of the launch conditions |
| HandoffCoordinator.Coordinator.PrepareHandoffLaunch | internal/orchestrator/handoff_launch.go:93-231 | one REQUESTED attempt is written exactly when the launch is permitted, as HandoffAnswers.PreparedIff spells out, nothing otherwise; an earlier attempt of an addressed packet is answered exactly as pending, completed or unacknowledged, the last only outside the invariant |
| HandoffCoordinator.Coordinator.FinalizeHandoffLaunch | internal/orchestrator/handoff_launch.go:233-459 | answer and tables after the call are those of the finalize transaction |
| HandoffCoordinator.Coordinator.RecordTransition | internal/orchestrator/continuity_transition_receipts.go:215-322 | a receipt is written exactly for a material transition |
| HandoffCoordinator.Coordinator.CaptureSnapshot | internal/orchestrator/continuity_transition_receipts.go:126-165 | the snapshot is branch, continuity and launch control of the current tables |
| HandoffCoordinator.Coordinator.RecordFollowThrough | internal/orchestrator/handoff_followthrough.go:33-142 | answer and tables after the call are those of the follow-through transaction |
| HandoffCoordinator.Coordinator.RecordResolution | internal/orchestrator/handoff_resolution.go:36-197 | answer and tables after the call are those of the resolve transaction, and the answered continuity is the assessed branch with the new record |
| Recovery.ClassDecides | internal/orchestrator/recovery.go:89-412 | for every assessment, through override and progression, the class determines the recommended action and every flag is membership of the class in a fixed set; reported ids are the assessed ones (when each class is reached, RecoveryClasses says) |
| Recovery.PendingDecisionBehindClass | internal/orchestrator/recovery.go:286-412 | continue finalization and rebriefing are asked for only when the newest action is their own recorded decision |
| Recovery.ReadyIff | internal/orchestrator/recovery.go:89-412 | READY_NEXT_RUN holds exactly when the outcome is safe, no Claude branch forces a verdict, the phase is BRIEF_READY and no continue decision is pending |
| Recovery.InterruptedIff | internal/orchestrator/recovery.go:89-412 | an interrupted run is offered for resumption exactly when the local verdict is interruption, a resumable checkpoint exists and no later action overrules it |
| Recovery.RegenerateDecisionPersists | internal/orchestrator/recovery.go:396-409 | while a decision to regenerate the brief is the newest action, every assessment is READY_NEXT_RUN or REBRIEF_REQUIRED |
| Recovery.ActiveBranchClass | internal/orchestrator/recovery.go:89-412 | while an active Claude branch is assessed, no class offers local runs, interrupted resume or local review |
| RecoveryClasses.HandoffClassesIff | internal/orchestrator/recovery.go:158-192 | each of the four classes of an open Claude branch is reached exactly in its postures, unless the newest action asks for a new brief |
| RecoveryClasses.ReviewClassesIff | internal/orchestrator/recovery.go:205-412 | failed-run and validation review are required exactly for such a run or phase, until the review of that run or a decision is the newest action |
| RecoveryClasses.DecisionRequiredIff | internal/orchestrator/recovery.go:89-412 | a decision is required exactly when the outcome needs one and none is recorded, or after the review of a failed or validating run |
| RecoveryClasses.StandingClassesIff | internal/orchestrator/recovery.go:89-412 | drift, stale run and completed task are their classes exactly on their outcome or phase, until a new brief is asked for |
| RecoveryClasses.RepairRequiredIff | internal/orchestrator/recovery.go:89-412 | repair is required exactly for an inconsistency, a lost acknowledgment, a stopped run without a resumable checkpoint or a phase left without a run, unless a new brief is asked for |
| RecoveryClasses.RunClassesIff | internal/orchestrator/recovery.go:89-412 | ready, interrupted and continue finalization, on outcome, posture, phase, run, checkpoint and newest action alone |
| RecoveryClasses.RebriefRequiredIff | internal/orchestrator/recovery.go:396-409 | a new brief is required exactly by its recorded decision, except where the next run is ready |
| RecoveryClasses.DriftExcludes | internal/orchestrator/service.go:830-899 | a repository that drifted at all is offered no local run and launches no handoff |
| RecoveryAnswers.NotesMean | internal/orchestrator/recovery_action.go:276-292 | notes are kept in order, each trimmed, blank ones dropped |
| RecoveryAnswers.RecordedIff | internal/orchestrator/recovery_action.go:38-168 | a request is answered with the newest action exactly when kind, notes and any summary agree; otherwise it is recorded exactly when the class waits for its kind and the capsule has not moved |
| RecoveryAnswers.SecondCheckIsIdle | internal/orchestrator/recovery_action.go:68-78 | the check for an equal record never finds one that the check for a repeated request has not found |
| RecoveryAnswers.RecordedRow | internal/orchestrator/recovery_action.go:170-247 | every field of a recorded action, on the assessment it is about |
| RecoveryAnswers.RecordedMove | internal/orchestrator/recovery_action.go:81-102 | a continue decision moves its task to BRIEF_READY, a regenerate decision to BLOCKED, each by one version; nothing else moves a task |
| RecoveryAnswers.ExecutedIff | internal/orchestrator/continue_execution.go:31-149 | each executor commits exactly when its class was assessed, the capsule has not moved and its brief is stored; a rebrief also needs the capsule's newest intent |
| RecoveryAnswers.ExecutedRows | internal/orchestrator/interrupted_resume.go:33-150 | what continue finalization and interrupted resume write: capsule and action |
| RecoveryAnswers.RebriefRows | internal/orchestrator/rebrief.go:32-150 | what a rebrief writes: the new brief and the capsule that names it, and no action |
| RecoveryMachine.RecoveryStore.RecordRecoveryAction | internal/orchestrator/recovery_action.go:38-163 | answer and tables after the call are those of the record transaction; a rejected or reused request changes nothing, a recorded one appends its action and raises the version exactly for a decision |
| RecoveryMachine.RecoveryStore.ExecuteContinueRecovery | internal/orchestrator/continue_execution.go:31-145 | answer and tables after the call are those of the continue transaction; it changes nothing or raises the version by one and leaves the task BRIEF_READY |
| RecoveryMachine.RecoveryStore.ExecuteInterruptedResume | internal/orchestrator/interrupted_resume.go:33-152 | answer and tables after the call are those of the resume transaction; it changes nothing or raises the version by one and leaves the task BRIEF_READY |
| RecoveryMachine.RecoveryStore.ExecuteRebrief | internal/orchestrator/rebrief.go:32-165 | answer and tables after the call are those of the rebrief transaction; it changes nothing or raises the version by one and leaves the task BRIEF_READY |
| RecoveryTheorems.CommitRaisesByOne | internal/orchestrator/continue_execution.go:55-75 | a recovery commit leaves every capsule alone or raises exactly its own task's version by one, from the assessed version |
| RecoveryTheorems.VersionsGrow | internal/orchestrator/continue_execution.go:55-75 | along any run of commits no capsule version falls |
| RecoveryTheorems.NoLostUpdate | internal/orchestrator/continue_execution.go:55-75 | two commits that both change a task were prepared on different versions, in commit order, so of those prepared on one version at most one succeeds |
| RecoveryTheorems.ReviewsAreNotGuarded | internal/orchestrator/recovery_action.go:38-163 | a review does not use up the version: a second one prepared on the same assessment is recorded too |
| RecoveryPath.QuietClassIs | internal/orchestrator/recovery.go:89-412 | after a failed run, without a Claude branch, the class is a function of phase, newest action and run alone |
| RecoveryPath.CommitEffect | internal/orchestrator/recovery_action.go:81-100 | a commit prepared on any earlier moment of a run leaves what the class depends on alone, or takes effect on the version it was prepared on, under a class that admits it |
| RecoveryPath.EffectOnPath | internal/orchestrator/recovery.go:286-412 | such an effect moves the class one place along failed-run review, decision, continue or rebrief, ready, although the class was assessed earlier |
| RecoveryPath.TraceOnPath | internal/orchestrator/recovery.go:286-412 | every run of recovery commits, prepared on tables of any age within the run and mixed with the work of others, keeps to that path |
| RecoveryPath.ReadyOnlyThroughDecision | internal/orchestrator/recovery.go:286-412 | any such run from a failed run that needs review to READY_NEXT_RUN contains, in order, the review, a decision, and the execution that belongs to that decision |
| RecoveryPath.ReviewRecordedIff | internal/orchestrator/recovery_action.go:52-63 | the requested review of a failed or validating run is recorded exactly when the newest action is not an earlier review of that kind with the same notes and a matching or omitted summary; otherwise that review, always of another run, is replayed and nothing is written |
| RecoveryPath.ThreeCommitsSuffice | internal/orchestrator/recovery_action.go:38-163 | conversely, from any such state, a review that is not taken for an older one, either decision and its execution do reach READY_NEXT_RUN |
| RecoveryPath.FailedRunToWalkFrom | internal/orchestrator/recovery.go:89-284 | concrete tables from which that path starts |
| RecoveryPath.OlderReviewReplayed | internal/orchestrator/recovery_action.go:52-63 | concrete tables with two failed runs in which the review of the second is answered with that of the first and nothing changes |
| RecoveryPath.ReviewedTwice | internal/orchestrator/recovery_action.go:81-100 | concrete tables in which two reviews prepared on one assessment are both recorded |
| RecoveryPath.RegenerateOutlivesItsRun | internal/orchestrator/recovery.go:396-409 | concrete tables in which a run that failed later is answered with REBRIEF_REQUIRED on account of a decision made for an earlier run |
| Authority.AuthoritySet.constructor | internal/orchestrator/operator_action_authority.go:71-90 | a new set lists the 14 actions once each, all not applicable, nothing required |
| Authority.AuthoritySet.SetState | internal/orchestrator/operator_action_authority.go:258-272 | the scan overwrites the slot of its action and no other |
| Authority.AuthoritySet.WriteBranch | internal/orchestrator/operator_action_authority.go:91-107 | a Claude branch bars the ten local actions, a local branch allows message and checkpoint |
| Authority.AuthoritySet.BarAll | internal/orchestrator/operator_action_authority.go:274-276 | barring a list of actions bars exactly those |
| Authority.AuthoritySet.WriteClass | internal/orchestrator/operator_action_authority.go:109-140 | the class writes at most its own action and the run start |
| Authority.AuthoritySet.WriteResume | internal/orchestrator/operator_action_authority.go:142-165 | local resume authority and run finalization write only interrupted resume and continue finalization |
| Authority.AuthoritySet.WriteHandoff | internal/orchestrator/operator_action_authority.go:167-183 | the handoff posture writes only launch, review and resolve |
| Authority.AuthoritySet.WriteRequired | internal/orchestrator/operator_action_authority.go:185-190 | the advised action, if any, becomes required next, and nothing else changes |
| Authority.AuthoritySet.Fill | internal/orchestrator/operator_action_authority.go:56-191 | after all overwrites each entry is the composition of the layers for its own action, and the required action is the advised one |
| Authority.AuthoritySet.Find | internal/orchestrator/operator_action_authority.go:232-239 | the lookup finds the entry of every action except NONE |
| OperatorTruth.DeriveAuthorities | internal/orchestrator/operator_action_authority.go:56-191 | a derived set keeps the 14 distinct actions in their order |
| OperatorTruth.OverwritesLeaveTable | internal/orchestrator/operator_action_authority.go:56-191 | for every posture each entry equals a table with one case per action, whatever was overwritten on the way |
| OperatorTruth.OneRequiredNext | internal/orchestrator/operator_action_authority.go:185-190 | an entry is REQUIRED_NEXT exactly when it is the action the recovery advice names |
| OperatorTruth.RunStartIffReady | internal/orchestrator/recovery.go:491-508 | a local run may start exactly when the class is READY_NEXT_RUN |
| OperatorTruth.ActiveBranchBars | internal/orchestrator/operator_action_authority.go:91-188 | under the invariant and an active branch, message, checkpoint, run start and interrupted resume are barred and no run is eligible, for every observation |
| OperatorTruth.MessageBarredIff | internal/orchestrator/recovery.go:510-533 | message and checkpoint are barred exactly under a Claude branch |
| ExecutionPlan.PrimaryExecutionStep | internal/orchestrator/operator_execution_plan.go:63-114 | the plan's first step is the required action, or the first allowed one in the branch's order of preference |
| ExecutionPlan.SecondaryExecutionSteps | internal/orchestrator/operator_execution_plan.go:116-150 | the alternatives are the first two allowed actions in order, the first step excepted |
| ExecutionPlan.BlockedExecutionSteps | internal/orchestrator/operator_execution_plan.go:152-176 | the blocked list is the first three barred basics in order |
| ExecutionPlan.PrimaryMissingIff | internal/orchestrator/operator_execution_plan.go:63-114 | there is no first step exactly when nothing is required and the assessed Claude packet has no active posture |
| ExecutionPlan.AlwaysAStep | internal/orchestrator/operator_execution_plan.go:63-114 | in every reachable state of the protocol the operator is told a next step |
| ExecutionPlan.LocalAdviceExecutable | internal/orchestrator/operator_step_execution.go:145-240 | when the first step is interrupted resume, continue finalization, rebrief or run start, the guard of that executor holds for the same assessment |
| ExecutionPlan.AdvisedCommitsIff | internal/orchestrator/operator_step_execution.go:145-240 | on an unmoved version an advised resume or continue finalization commits exactly when the capsule brief exists, an advised rebrief exactly when the newest intent fits as well |
| ExecutionPlan.AdvisedResumeCommits | internal/orchestrator/continuity.go:181-200 | because a missing brief is reported, an advised resume or continue finalization always commits |
| ExecutionPlan.RebriefAdvisedInVain | internal/orchestrator/rebrief.go:60-70 | concrete tables in which rebrief is the required step and every rebrief is refused |
| ExecutionPlan.LaunchAdviceExecutable | internal/orchestrator/operator_step_execution.go:145-240 | in every reachable state an advised launch is permitted by the prepare transaction |
| ExecutionPlan.ResolveAdviceExecutable | internal/orchestrator/operator_step_execution.go:145-240 | in every reachable state an advised resolve is accepted by the target check |
| ExecutionPlan.LocalWorkIsBarred | internal/orchestrator/operator_action_authority.go:91-188 | in every reachable state, while an accepted, unresolved Claude packet is among the 12 newest, the four local actions are barred and no run is eligible |
| ExecutionPlan.MandatoryIff | internal/orchestrator/operator_execution_plan.go:205-215 | in every reachable state the first step is mandatory exactly when the class requires something or a Claude branch is active |
| PlanAnswers.RequiredIs | internal/orchestrator/operator_action_authority.go:203-230 | the action each class requires, for every assessment, and the classes that require none |
| PlanAnswers.PostureIff | internal/orchestrator/local_run_finalization.go:30-89 | the posture the authority set is built from; each run finalization on the status of the newest run and its checkpoint |
| PlanAnswers.ResumeIff | internal/orchestrator/local_resume_authority.go:37-89 | local resume is barred exactly by a Claude branch, allowed exactly for an interrupted run, and its mode follows the class |
| PlanAnswers.FirstStepIs | internal/orchestrator/operator_execution_plan.go:63-114 | the first step of every posture: what is required, else resolving an active Claude branch, else a local message |
| PlanAnswers.AlternativesAre | internal/orchestrator/operator_execution_plan.go:116-150 | the alternatives of every posture, in their order |
| PlanAnswers.BlockedAre | internal/orchestrator/operator_execution_plan.go:152-176 | the blocked basics of every posture, in their order and at most three |
| PlanAnswers.PrimaryMeans | internal/orchestrator/operator_execution_plan.go:63-114 | whatever the entries, the first step is the required action or the first allowed one of the listed preference |
| PlanAnswers.AlternativesMean | internal/orchestrator/operator_execution_plan.go:116-176 | whatever the entries, the alternatives are the first two allowed actions of the listed order beside the first step, and the blocked basics the first three barred ones of theirs |
| Incidents.AggregateWindow | internal/orchestrator/continuity_incident_followup.go:459-486 | the loop builds the pass over the window |
| Incidents.PassIsRight | internal/orchestrator/continuity_incident_followup.go:459-486 | the pass holds for each anchor its count, kinds and newest receipt, lists each anchor once and counts receipts by kind |
| Incidents.CountAllIsRight | internal/orchestrator/continuity_incident_followup.go:487-510 | the second loop's counters are the sizes of the sets of anchors they are about |
| Incidents.CountUntouched | internal/orchestrator/continuity_incident_followup.go:511-516 | the number of triaged anchors without a receipt, in whatever order the map is visited |
| Incidents.DeriveRollup | internal/orchestrator/continuity_incident_followup.go:439-543 | every counter of the roll-up is the size of a set defined on the window, and notability follows from them |
| Incidents.RollupConserves | internal/orchestrator/continuity_incident_followup.go:439-516 | receipts by kind add up to the window, open and closed anchors to the distinct ones; reopened and behind-latest are bounded by open; untouched is triaged minus followed up |
| Incidents.EmptyWindowIsNotNotable | internal/orchestrator/continuity_incident_followup.go:444-450 | an empty window is not notable even with triaged anchors |
| ClosureClasses.SameKeyIff | internal/orchestrator/continuity_incident_followup.go:470-482 | receipts are rolled up together exactly when they share an anchor; one without an anchor stands alone |
| ClosureClasses.NewestIs | internal/orchestrator/continuity_incident_followup.go:470-485 | the newest receipt of an anchor is the first one listed |
| ClosureClasses.CountedKeys | internal/orchestrator/continuity_incident_followup.go:487-509 | which anchors count as open, closed, reopened, behind the latest transition and repeated, on their receipts |
| ClosureClasses.RollupCounts | internal/orchestrator/continuity_incident_followup.go:439-543 | each counter of the roll-up is the number of receipts or anchors it names, and the window is notable exactly when it has receipts and an anchor is open or repeated or triaged without a receipt |
| IncidentClosure.CollectSignals | internal/orchestrator/continuity_incident_closure.go:161-190 | the loop, oldest receipt first, builds the per-anchor fold |
| IncidentClosure.FoldIsRight | internal/orchestrator/continuity_incident_closure.go:161-190 | the fold holds exactly the window's anchors, each with its counts by kind, its reopenings after a close and its latest receipt |
| IncidentClosure.VisitAnchors | internal/orchestrator/continuity_incident_closure.go:191-212 | counters and items are the same for every order in which the map is visited |
| IncidentClosure.RecentIsUnique | internal/orchestrator/continuity_incident_closure.go:213-224 | there is one list of recent anchors for a window, so map order cannot show in it |
| IncidentClosure.DeriveClosure | internal/orchestrator/continuity_incident_closure.go:134-287 | counters, flags, class and recent anchors are those of the declarative definitions on the window, whose meaning on its receipts ClosureClasses.WindowClassIff, FlagsIff and RecentMeans give |
| IncidentClosure.Judge | internal/orchestrator/continuity_incident_closure.go:225-257 | the chain of conditions gives the flags and the class of roll-up and counters, which ClosureClasses.WindowClassIff and FlagsIff state on the receipts |
| ClosureTheorems.ReopenedIsCount | internal/orchestrator/continuity_incident_closure.go:178-189 | the counter of an anchor is the number of REOPENED receipts that have an older CLOSED one on the same anchor |
| ClosureTheorems.LatestIsNewest | internal/orchestrator/continuity_incident_closure.go:172-176 | an anchor's latest receipt exists exactly when it has receipts, and none of them is newer |
| ClosureTheorems.CountersAreBounded | internal/orchestrator/continuity_incident_closure.go:192-201 | loop anchors are reopened anchors; reopened and stagnant anchors are disjoint, and together at most the distinct anchors |
| ClosureTheorems.NoneIff | internal/orchestrator/continuity_incident_closure.go:225-257 | the class is NONE exactly when there are no receipts and no triaged anchors |
| ClosureTheorems.StableIff | internal/orchestrator/continuity_incident_closure.go:225-257 | the class is STABLE_BOUNDED exactly when the window is not empty, every anchor ends on CLOSED, none reopens after a close, repeats one kind or stagnates, and every triaged anchor has a follow-up |
| ClosureTheorems.StableIffApart | internal/orchestrator/continuity_incident_closure.go:225-257 | where stand-in keys of anchorless receipts do not collide with anchors, stagnation needs no mention |
| ClosureTheorems.StableItemIff | internal/orchestrator/continuity_incident_closure.go:289-328 | in a stable window an anchor's item is stable exactly when it was never reopened |
| ClosureTheorems.StableWindowUnstableItem | internal/orchestrator/continuity_incident_closure.go:289-328 | a concrete stable window whose only item is unresolved |
| ClosureTheorems.OlderNeverLowers | internal/orchestrator/continuity_incident_closure.go:161-189 | extending a window into the past never lowers an anchor's reopenings after a close |
| ClosureTheorems.WeakCountersGrow | internal/orchestrator/continuity_incident_closure.go:192-201 | reopened and loop anchors only grow with the window |
| ClosureClasses.ItemClassIff | internal/orchestrator/continuity_incident_closure.go:289-328 | the class of an anchor's item in every window: loop when reopened after a close at least twice, reopened when once, stagnant, stable or unresolved on its receipts |
| ClosureClasses.ItemReceipt | internal/orchestrator/continuity_incident_closure.go:289-328 | an anchor's item carries the id, kind and time of a receipt of the anchor that no other is newer than |
| ClosureClasses.LatestPlace | internal/orchestrator/continuity_incident_closure.go:172-176 | of several receipts at an anchor's newest time the oldest is the latest, unless that is the zero time |
| ClosureClasses.WindowClassIff | internal/orchestrator/continuity_incident_closure.go:225-257 | every class of a window on its receipts: loop, reopened after a close, stagnant or repeated, unresolved, stable, none; each hides those after it |
| ClosureClasses.FlagsIff | internal/orchestrator/continuity_incident_closure.go:225-257 | the weak and the unresolved flag of a window on its receipts |
| ClosureClasses.RecentMeans | internal/orchestrator/continuity_incident_closure.go:213-224 | the recent anchors are the newest five, or all of fewer, one item each, latest first and equal times by id |
| TaskRisk.DistinctClasses | internal/orchestrator/continuity_incident_task_risk.go:131-151 | the class list holds every class of the recent anchors once, in order of name; the cut to five never removes one |
| TaskRisk.DeriveTaskRisk | internal/orchestrator/continuity_incident_task_risk.go:111-199 | signal, flags, class and class list are those of roll-up and counters where there is a closure summary, of the roll-up alone where there is none; without either there is no risk summary |
| TaskRisk.RollupRaisesLess | internal/orchestrator/continuity_incident_task_risk.go:152-161 | what the roll-up alone raises, the closure summary raises too |
| TaskRisk.WeakClosurePersists | internal/orchestrator/continuity_incident_task_risk.go:120-129 | recurring weak closure, once shown by a window, is shown by every longer one |
| TaskRisk.UnresolvedRiskIff | internal/orchestrator/continuity_incident_task_risk.go:126-130 | recurring unresolved risk holds exactly with two distinct anchors and either two unresolved anchors or a single one that is reopened |
| TaskRisk.OneReopenedAnchorRecurs | internal/orchestrator/continuity_incident_task_risk.go:126-130 | a concrete window with recurring unresolved risk on one unresolved anchor |
| ClosureClasses.WeakClosureIff | internal/orchestrator/continuity_incident_task_risk.go:120-124 | weak closure recurs exactly when one anchor loops or two are reopened after a close |
| ClosureClasses.RiskClassIff | internal/orchestrator/continuity_incident_task_risk.go:163-181 | each risk class of a window, in its order of precedence; it is stable exactly when the window is |
| ClosureClasses.ClassesByName | internal/orchestrator/continuity_incident_task_risk.go:131-151 | the order in which the classes are listed |
| IncidentRecording.IncidentStore.ResolveAnchor | internal/orchestrator/continuity_incident_triage.go:307-355 | mode and id of the request name one transition receipt of the task or are refused |
| IncidentRecording.IncidentStore.RecordTriage | internal/orchestrator/continuity_incident_triage.go:147-298 | answer and tables after the call are those of the triage decision; nothing is written unless the receipt is new, a reused one is stored, a new one hangs on a transition of its task |
| IncidentRecording.IncidentStore.RecordFollowUp | internal/orchestrator/continuity_incident_followup.go:91-275 | answer and tables after the call are those of the follow-up decision; nothing is written unless the receipt is new, a reused one is stored, a new one hangs on a triage of its task and anchor |
| IncidentRecording.FollowUpRetryReusesIff | internal/orchestrator/continuity_incident_followup.go:277-290 | an immediate retry of a recorded follow-up returns its receipt exactly when the summary is not blank and is not cut right after a space; otherwise it records the follow-up again |
| IncidentRecording.TriageRetryReusesIff | internal/orchestrator/continuity_incident_triage.go:300-305 | the same for a triage |
| IncidentRecording.BlankFollowUpTwice | internal/orchestrator/continuity_incident_followup.go:277-290 | concrete tables and a follow-up without a summary that is recorded twice |
| IncidentRecording.BlankTriageTwice | internal/orchestrator/continuity_incident_triage.go:300-305 | concrete tables and a triage without a summary that is recorded twice |
| IncidentRecording.RetryLooksStagnant | internal/orchestrator/continuity_incident_followup.go:277-290 | such a retry of an anchor's first follow-up makes the roll-up count a repetition and the closure class a weak one, whatever else the window holds |
| IncidentRecording.StepKeepsLinked | internal/orchestrator/continuity_incident_followup.go:91-275 | every follow-up hangs on a triage of its own task and anchor, and every triage on a transition of its own task, even when calls decide on tables that have grown since |
| IncidentRecording.EveryTriagedAnchorIsCounted | internal/orchestrator/continuity_incident_followup.go:439-516 | over any run, in the roll-up of the whole history, followed-up anchors and triaged ones without follow-up add up to the triaged anchors |
| IncidentRecording.WindowsAddUp | internal/orchestrator/continuity_incident_followup.go:439-516 | for any two windows, followed-up anchors and triaged ones without follow-up add up to the anchors of either, and to the triaged ones exactly when every followed-up anchor is among them |
| IncidentRecording.PageAddsUpIff | internal/orchestrator/continuity_incident_followup.go:388-412 | for any page the reader rolls up, the sum is the triage window exactly when no followed-up anchor was triaged before it, and so always while there are no more triages than max(3 * limit, 10) |
| IncidentRecording.FollowedUpBeforeTheWindow | internal/orchestrator/continuity_incident_followup.go:388-412 | concrete tables in which the sum exceeds the triage window |
| IncidentAnswers.AnchorIff | internal/orchestrator/continuity_incident_triage.go:307-355 | an anchor is found exactly when mode and id together mean one transition receipt of the task that exists |
| IncidentAnswers.AnchorIsNewest | internal/orchestrator/continuity_incident_triage.go:307-355 | without an id it is the task's newest transition |
| IncidentAnswers.TriageIsNewest | internal/orchestrator/continuity_incident_followup.go:110-131 | a follow-up that names no triage hangs on the anchor's newest one |
| IncidentAnswers.TriageIsNamed | internal/orchestrator/continuity_incident_followup.go:110-131 | one that names a triage finds it exactly when it is of the task and the anchor |
| IncidentAnswers.TriageIff | internal/orchestrator/continuity_incident_triage.go:147-305 | when a triage is refused and when the anchor's newest triage is answered, on mode, posture and summary |
| IncidentAnswers.TriageRow | internal/orchestrator/continuity_incident_triage.go:194-240 | every field of a recorded triage; it is the one row added |
| IncidentAnswers.FollowUpIff | internal/orchestrator/continuity_incident_followup.go:91-282 | when a follow-up is refused and when the anchor's newest follow-up is answered, on mode, triage, kind and summary |
| IncidentAnswers.FollowUpRow | internal/orchestrator/continuity_incident_followup.go:172-210 | every field of a recorded follow-up; it is the one row added |
| IncidentAnswers.WindowGrows | internal/orchestrator/continuity_incident_followup.go:354-386 | a recorded follow-up becomes the newest of its task's window, and of no other |
| IncidentAnswers.TriageWindowIs | internal/orchestrator/continuity_incident_followup.go:388-392 | the reader looks at the task's newest triages, three for each follow-up asked for and at least ten |
| ReceiptPaging.HistorySorted | internal/orchestrator/continuity_incident_followup.go:320-421 | the history lists exactly the matching receipts, newest first, ties by id |
| ReceiptPaging.QueryIsPrefix | internal/orchestrator/continuity_incident_followup.go:354-369 | the limited query returns the beginning of what remains past the cursor |
| ReceiptPaging.PastIsSuffix | internal/orchestrator/continuity_incident_followup.go:336-361 | past the k-th receipt of a history lies exactly the rest of it |
| ReceiptPaging.CursorContinuesIff | internal/orchestrator/continuity_incident_followup.go:336-361 | a cursor continues the history exactly when its receipt does not carry the zero time |
| ReceiptPaging.ReadPage | internal/orchestrator/continuity_incident_followup.go:320-421 | one read returns the page of what remains, with a next cursor exactly when more is left, and fails exactly for a cursor no receipt carries |
| ReceiptPaging.NewerDoNotShow | internal/orchestrator/continuity_incident_followup.go:354-369 | receipts newer than a cursor, appended later, do not change what remains past it |
| ReceiptPaging.FollowCursors | internal/orchestrator/continuity_incident_followup.go:320-421 | following the next cursor with the read the three readers share until no more is left ends and yields exactly the filtered history, newest first, nothing skipped or repeated, even while newer receipts arrive between reads |
| ReceiptPaging.PageHolds | internal/orchestrator/continuity_incident_followup.go:320-386 | a page has the length and order asked for; every receipt on it passes filter and cursor, and every receipt that passes both is on it or left for a later one |
| ReceiptPaging.ReadFollowUps | internal/orchestrator/continuity_incident_followup.go:320-421 | the follow-up reader returns a page whose receipts all have the requested anchor, triage and kind and lie past the trimmed cursor, in order and as long as asked; every other receipt that does is left for a later page; it fails exactly when no receipt carries that cursor |
| ReceiptPaging.ReadTriages | internal/orchestrator/continuity_incident_triage_history.go:59-144 | the same for the triage reader, its anchor and its posture |
| ReceiptPaging.ReadTransitions | internal/orchestrator/continuity_transition_receipts.go:384-457 | the same for the transition reader, its kind and its handoff |
| IncidentSlice.NearestToAnchor | internal/orchestrator/continuity_incident_slice.go:348-401 | as many scanned records as fit are chosen, each nearer than every one left out, listed in order |
| IncidentSlice.NearestIsUnique | internal/orchestrator/continuity_incident_slice.go:348-401 | there is one such choice, so scan order does not matter |
| IncidentSlice.ScansCoverLimits | internal/orchestrator/continuity_incident_slice.go:348-366 | for every requested limit the scan is long enough to fill it |
| IncidentSlice.AfterIsPrefix | internal/orchestrator/continuity_incident_slice.go:175-182 | what follows the anchor in time is exactly what the history lists before it, reversed |
| IncidentSlice.ReadSlice | internal/orchestrator/continuity_incident_slice.go:123-198 | the slice is the contiguous neighbourhood of the requested or newest receipt, up to k on each side, oldest first, and each outside flag is true exactly when more receipts exist on that side; it fails exactly for a missing or unstamped anchor |
| IncidentSlice.WindowEnclosesAnchor | internal/orchestrator/continuity_incident_slice.go:184-198 | the neighbourhood is in order of time, contains the anchor, and its bounds enclose it |
| SliceAnswers.NearestMeans | internal/orchestrator/continuity_incident_slice.go:348-401 | picked records come in order of position, and none left out is nearer in time, of equally near ones none later or with a larger id |
| SliceAnswers.NeighboursAsked | internal/orchestrator/continuity_incident_slice.go:626-634 | two receipts on each side by default, at most twenty |
| SliceAnswers.SliceMeans | internal/orchestrator/continuity_incident_slice.go:165-198 | the slice has exactly the receipts at most k places from the anchor in the history of all receipts, oldest first; the flags say whether others exist before and after, the bounds are the times of its ends |
| BriefRegeneration.DedupeNonEmpty | internal/orchestrator/intent_stub.go:408-430 | the loop with its seen map computes the deduplication |
| BriefRegeneration.DedupeMeans | internal/orchestrator/intent_stub.go:408-430 | the result is trimmed, without blanks or repeated keys, within the limit, drawn from the input, and misses no key unless the limit was reached |
| BriefContents.DedupeTakesFirsts | internal/orchestrator/intent_stub.go:408-430 | deduplication keeps the first text of each key, trimmed and in order, and leaves one out only when the list is full |
| BriefContents.FrontIsKept | internal/orchestrator/intent_stub.go:408-430 | what comes first is kept as if it were alone, and in front |
| BriefRegeneration.DedupeFeedback | internal/orchestrator/intent_stub.go:408-430 | feeding a result back after its first part changes nothing |
| BriefRegeneration.DoneFeedback | internal/orchestrator/compiled_brief.go:170-175 | done criteria, default included, survive being fed back |
| BriefRegeneration.ObjectiveFeedback | internal/orchestrator/brief_builder.go:97-103 | so does the objective with its chain of fall-backs |
| BriefRegeneration.RegenerationIsFixpoint | internal/orchestrator/compiled_brief.go:137-228 | for every capsule, intent and previous brief or none, building again from the built brief gives the same brief, apart from id, time, capsule version and hash (what it holds, BriefContents says) |
| BriefContents.ObjectiveIs | internal/orchestrator/compiled_brief.go:139-145 | the objective is the intent's, else the task's goal, else the previous brief's, else the action |
| BriefContents.TextsAre | internal/orchestrator/compiled_brief.go:147-165 | outcome, action and scope are the intent's, else the previous brief's, else none, the default action and the default scope |
| BriefContents.PostureIff | internal/orchestrator/compiled_brief.go:230-244 | an intent that is unclear in any of four ways makes a clarification brief, otherwise its readiness decides; clarification is required exactly in that posture |
| BriefContents.QuestionsAre | internal/orchestrator/compiled_brief.go:186-191 | the questions are the intent's, at most six; an unclear intent without any gets the default one |
| BriefContents.ConstraintsAre | internal/orchestrator/compiled_brief.go:167-169 | the intent's constraints come first and are not displaced, then the task's, then the previous brief's, each key once and at most 16 |
| BriefContents.DoneCriteriaAre | internal/orchestrator/compiled_brief.go:170-175 | the intent's done criteria come first, then the previous brief's, at most eight; the default of the posture exactly without any |
| BriefContents.ScopeIs | internal/orchestrator/compiled_brief.go:177-184 | scope-in are the touched files, else the previous scope-in; scope-out is the previous one |
| BriefContents.FlagsAre | internal/orchestrator/compiled_brief.go:187 | the ambiguity flags are the intent's, at most eight |
| BriefContents.RestIs | internal/orchestrator/compiled_brief.go:193-228 | ids and evidence are the intent's; context pack, verbosity and policy the previous brief's where it has them; the framing is that of the posture |

## Left out

- BriefRegeneration.RegenerationIsFixpoint: default texts are parameters required to be trimmed and not blank, as the literal texts of the source are; their wording plays no part.
- BriefRegeneration.DedupeNonEmpty: lower-casing is an arbitrary function on texts, because every result holds for any such key.
- ContinuityValidator.ValidateHandoffContinuity: messages are dropped, so the later removal of repeated code-and-message pairs (internal/orchestrator/continuity.go:706-721) has nothing to act on.
- HandoffCoordinator.Coordinator.AssessContinue: the capsule, checkpoint, run and recovery-action checks and the anchor drift classification enter as one observation, because they read nothing the protocol writes; the assessment's hint which checkpoint to reuse is dropped.
- HandoffCoordinator.Coordinator.PrepareHandoffLaunch: a blocked request is recorded in the proof log only, which is not modelled; nor is the launch payload and its hash.
- HandoffCoordinator.Coordinator.RecordTransition: the review posture a receipt copies from the shell transcript is dropped; the decision to write one does not depend on it.
- HandoffProtocol.StepKeepsSysInv: other writers of capsules, runs, actions, briefs and checkpoints are one environment step that may do anything to the first three and only adds to the last two.
- RecoveryPath.ReadyOnlyThroughDecision: the newest run stays the failed one, without drift, other continuity issues or a Claude branch; commits are prepared within the run.
- IncidentRecording.FollowUpRetryReusesIff: the cut to 400 counts characters where the source counts bytes; receipts carry no copies of review evidence.
- ReceiptPaging.FollowCursors: receipts carry non-zero times and non-empty ids without outer space, which the recording operations stamp; newer receipts arrive with later times. The readers take filters already parsed.
- IncidentSlice.NearestToAnchor: the three scans differ only in the time and position they rank by, which enter as fields of the scanned records.
- Reasons, default summaries, digests, advisories and canonical replies: wording the decisions do not depend on; of the summaries only the requested ones, which the replay checks compare, are stated.
- The proof log and the conversation: one entry per step, nothing is decided from them.
- SQLite: rows are assumed to be ordered by creation time and id. The store keeps time stamps as RFC3339Nano text (internal/storage/sqlite/store.go:23) and sorts that text, which is not time order where fractions of a second differ in length. On this assumption rest the "newest" packet, attempt, acknowledgment, follow-through, resolution and recovery action of the protocol and recovery results (LaunchSafety, HandoffTheorems, RecoveryPath), and the order by time in ReceiptPaging.HistorySorted, ReceiptPaging.FollowCursors, IncidentSlice.AfterIsPrefix, IncidentSlice.ReadSlice and IncidentSlice.WindowEnclosesAnchor.
- Clocks, id generation, hashes and JSON: fresh ids and logical times instead.
- The launcher process: it may return anything that names its launch and stamps its end, or be lost.
- The triage history roll-up and the transition risk counters: the same single pass as the follow-up roll-up, with easier conditions.
- Operator review progression and review-gap acknowledgments: field copying over shell transcripts.
- The intent compiler's keyword tables and confidence score, and the bounded window of recent messages.
- Operator step receipts, decision summaries and the dispatch result records.
- Command line, inter-process messages and rendering.
