/** The recovery classifier, recovery.go: what an assessment requires of the operator before the
    next local run. */
module Recovery {
  import opened Wrappers
  import opened HandoffRecords
  import opened HandoffContinuity
  import opened ContinueAssessment

  datatype Class = ReadyNextRun | InterruptedRunRecoverable | AcceptedHandoffLaunchReady
                 | HandoffLaunchPendingOutcome | HandoffLaunchDone | HandoffFollowThroughReview
                 | FailedRunReviewRequired | ValidationReviewRequired | StaleRunReconciliation
                 | DecisionRequired | ContinueExecutionRequired | DriftBlocked | RepairRequired
                 | RebriefRequired | CompletedNoAction

  datatype Advice = NoAdvice | StartNextRun | ResumeInterrupted | LaunchHandoff | WaitForOutcome
                  | MonitorHandoff | ReviewFollowThrough | InspectFailedRun | ReviewValidation
                  | ReconcileStaleRun | MakeResumeDecision | ExecuteContinue | RepairContinuity
                  | RegenerateBrief

  datatype Flags = Flags(readyRun: bool, readyLaunch: bool, decision: bool, repair: bool,
                         review: bool, reconciliation: bool)

  datatype Assessed = Assessed(cls: Class, advice: Advice, flags: Flags, checkpointID: Id,
                               runID: Id, handoffID: Id, latestAction: Option<Action>)

  const NO_FLAGS := Flags(false, false, false, false, false, false)

  /** The record with a new verdict; the ids it was opened with stay. */
  function Verdict(r: Assessed, cls: Class, advice: Advice, flags: Flags): Assessed {
    r.(cls := cls, advice := advice, flags := flags)
  }

  /** The record before any verdict. Its class is a placeholder that no path returns as is. */
  function Opened(a: Assessment): Assessed {
    Assessed(RepairRequired, NoAdvice, NO_FLAGS,
             if a.latestCheckpoint.Some? then a.latestCheckpoint.value.checkpointID else "",
             if a.latestRun.Some? then a.latestRun.value.runID else "",
             if a.branch.packet.Some? then a.branch.packet.value.handoffID else "",
             a.latestAction)
  }

  function Repair(r: Assessed): Assessed {
    Verdict(r, RepairRequired, RepairContinuity, NO_FLAGS.(repair := true))
  }

  function ContinueRequired(r: Assessed): Assessed {
    Verdict(r, ContinueExecutionRequired, ExecuteContinue, NO_FLAGS)
  }

  function Decide(r: Assessed, cls: Class): Assessed {
    Verdict(r, cls, MakeResumeDecision, NO_FLAGS.(decision := true))
  }

  function Ready(r: Assessed): Assessed {
    Verdict(r, ReadyNextRun, StartNextRun, NO_FLAGS.(readyRun := true))
  }

  function Validation(r: Assessed): Assessed {
    Verdict(r, ValidationReviewRequired, ReviewValidation, NO_FLAGS.(review := true))
  }

  function Done(r: Assessed): Assessed {
    Verdict(r, CompletedNoAction, NoAdvice, NO_FLAGS)
  }

  function Interrupted(r: Assessed, checkpoint: Option<Checkpoint>): Assessed {
    if checkpoint.Some? && checkpoint.value.isResumable then
      Verdict(r, InterruptedRunRecoverable, ResumeInterrupted, NO_FLAGS)
    else Repair(r)
  }

  /** briefReadyRecoveryOverride */
  predicate ContinuePending(action: Option<Action>) {
    && action.Some?
    && (action.value.kind.DecisionContinue? || action.value.kind.InterruptedResumeExecuted?)
  }

  /** applyRecoveryActionProgression: the newest recorded action advances the verdict. */
  function Progress(r: Assessed): Assessed {
    match r.latestAction
    case None => r
    case Some(action) =>
      match action.kind
      case FailedRunReviewed =>
        if r.cls.FailedRunReviewRequired? && action.runID == r.runID then
          r.(cls := DecisionRequired, advice := MakeResumeDecision,
             flags := r.flags.(review := false, decision := true))
        else r
      case InterruptedRunReviewed =>
        if r.cls.InterruptedRunRecoverable? && (r.runID == "" || action.runID == r.runID) then
          r.(advice := ResumeInterrupted, flags := NO_FLAGS)
        else r
      case InterruptedResumeExecuted =>
        if r.cls.InterruptedRunRecoverable? || r.cls.ReadyNextRun?
          || r.cls.ContinueExecutionRequired?
        then ContinueRequired(r)
        else r
      case ValidationReviewed =>
        if r.cls.ValidationReviewRequired? && (r.runID == "" || action.runID == r.runID) then
          r.(cls := DecisionRequired, advice := MakeResumeDecision,
             flags := r.flags.(review := false, decision := true))
        else r
      case RepairIntentRecorded => r
      case PendingLaunchReviewed => r
      case DecisionContinue =>
        if r.cls.DecisionRequired? || r.cls.FailedRunReviewRequired?
          || r.cls.ValidationReviewRequired? || r.cls.ReadyNextRun?
        then ContinueRequired(r)
        else r
      case ContinueExecuted =>
        if r.cls.ReadyNextRun? then
          r.(advice := StartNextRun, flags := NO_FLAGS.(readyRun := true))
        else r
      case DecisionRegenerateBrief =>
        if r.cls.ReadyNextRun? then r
        else Verdict(r, RebriefRequired, RegenerateBrief, NO_FLAGS)
  }

  /** The verdict a live Claude branch forces, if the packet is an accepted resumable Claude one. */
  function HandoffVerdict(r: Assessed, branch: BranchRecords): Option<Assessed> {
    if !(branch.packet.Some? && branch.packet.value.status == PacketAccepted
         && branch.packet.value.targetWorker == Claude && branch.packet.value.isResumable)
    then None
    else
      match ContinuityOf(branch).state
      case Resolved => None
      case NotApplicable => None
      case AcceptedNotLaunched =>
        Some(Verdict(r, AcceptedHandoffLaunchReady, LaunchHandoff, NO_FLAGS.(readyLaunch := true)))
      case FailedRetryable =>
        Some(Verdict(r, AcceptedHandoffLaunchReady, LaunchHandoff, NO_FLAGS.(readyLaunch := true)))
      case PendingOutcome =>
        Some(Verdict(r, HandoffLaunchPendingOutcome, WaitForOutcome, NO_FLAGS))
      case FollowedStalled =>
        Some(Verdict(r, HandoffFollowThroughReview, ReviewFollowThrough,
                     NO_FLAGS.(review := true)))
      case AckLost => Some(Repair(r))
      case _ => Some(Verdict(r, HandoffLaunchDone, MonitorHandoff, NO_FLAGS))
  }

  function PhaseVerdict(r: Assessed, phase: Phase, checkpoint: Option<Checkpoint>): Assessed {
    match phase
    case Paused => Interrupted(r, checkpoint)
    case Validating => Validation(r)
    case Completed => Done(r)
    case _ => Repair(r)
  }

  function RunVerdict(r: Assessed, a: Assessment): Assessed {
    if a.latestRun.Some? && a.latestRun.value.status == RunStatus.Interrupted then
      Interrupted(r, a.latestCheckpoint)
    else if a.latestRun.Some? && a.latestRun.value.status == RunFailed then
      Verdict(r, FailedRunReviewRequired, InspectFailedRun, NO_FLAGS.(review := true))
    else PhaseVerdict(r, a.capsule.phase, a.latestCheckpoint)
  }

  /** The verdict before the newest action is taken into account. */
  function Base(a: Assessment): Assessed {
    var r := Opened(a);
    match a.outcome
    case BlockedInconsistent => Repair(r)
    case BlockedDrift => Decide(r, DriftBlocked)
    case NeedsDecision => Decide(r, DecisionRequired)
    case StaleReconciled =>
      Verdict(r, StaleRunReconciliation, ReconcileStaleRun, NO_FLAGS.(reconciliation := true))
    case Safe =>
      var handoff := HandoffVerdict(r, a.branch);
      if handoff.Some? then handoff.value
      else if a.capsule.phase == BriefReady then Ready(r)
      else RunVerdict(r, a)
  }

  /** The one path that skips the progression: briefReadyRecoveryOverride applies. */
  predicate Overridden(a: Assessment) {
    && a.outcome == Safe
    && HandoffVerdict(Opened(a), a.branch).None?
    && a.capsule.phase == BriefReady
    && ContinuePending(a.latestAction)
  }

  /** recoveryFromContinueAssessment */
  function Recover(a: Assessment): Assessed {
    if Overridden(a) then ContinueRequired(Opened(a)) else Progress(Base(a))
  }

  // ---- the class decides everything else ------------------------------------------------------

  function AdviceOf(cls: Class): Advice {
    match cls
    case ReadyNextRun => StartNextRun
    case InterruptedRunRecoverable => ResumeInterrupted
    case AcceptedHandoffLaunchReady => LaunchHandoff
    case HandoffLaunchPendingOutcome => WaitForOutcome
    case HandoffLaunchDone => MonitorHandoff
    case HandoffFollowThroughReview => ReviewFollowThrough
    case FailedRunReviewRequired => InspectFailedRun
    case ValidationReviewRequired => ReviewValidation
    case StaleRunReconciliation => ReconcileStaleRun
    case DecisionRequired => MakeResumeDecision
    case ContinueExecutionRequired => ExecuteContinue
    case DriftBlocked => MakeResumeDecision
    case RepairRequired => RepairContinuity
    case RebriefRequired => RegenerateBrief
    case CompletedNoAction => NoAdvice
  }

  function FlagsOf(cls: Class): Flags {
    Flags(cls.ReadyNextRun?, cls.AcceptedHandoffLaunchReady?,
          cls.DecisionRequired? || cls.DriftBlocked?, cls.RepairRequired?,
          cls.FailedRunReviewRequired? || cls.ValidationReviewRequired?
          || cls.HandoffFollowThroughReview?,
          cls.StaleRunReconciliation?)
  }

  predicate Coherent(r: Assessed) {
    r.advice == AdviceOf(r.cls) && r.flags == FlagsOf(r.cls)
  }

  /** The ids two records carry are the same. */
  predicate SameIds(r: Assessed, s: Assessed) {
    && r.checkpointID == s.checkpointID && r.runID == s.runID
    && r.handoffID == s.handoffID && r.latestAction == s.latestAction
  }

  lemma ProgressKeepsCoherence(r: Assessed)
    requires Coherent(r)
    ensures Coherent(Progress(r))
  {
  }

  lemma ProgressKeepsIds(r: Assessed)
    ensures SameIds(Progress(r), r)
  {
  }

  lemma HandoffVerdictCoherent(r: Assessed, branch: BranchRecords)
    requires HandoffVerdict(r, branch).Some?
    ensures Coherent(HandoffVerdict(r, branch).value)
    ensures SameIds(HandoffVerdict(r, branch).value, r)
  {
  }

  lemma RunVerdictCoherent(r: Assessed, a: Assessment)
    ensures Coherent(RunVerdict(r, a)) && SameIds(RunVerdict(r, a), r)
  {
  }

  lemma BaseCoherent(a: Assessment)
    ensures Coherent(Base(a)) && SameIds(Base(a), Opened(a))
  {
    var r := Opened(a);
    if a.outcome == Safe {
      var handoff := HandoffVerdict(r, a.branch);
      if handoff.Some? {
        HandoffVerdictCoherent(r, a.branch);
        assert Base(a) == handoff.value;
      } else if a.capsule.phase == BriefReady {
        assert Base(a) == Ready(r);
      } else {
        RunVerdictCoherent(r, a);
        assert Base(a) == RunVerdict(r, a);
      }
    }
  }

  /** For every assessment, the recommended action is a function of the class, each flag is
      membership of the class in a fixed set, through all overrides and progressions, and the ids
      reported are the assessed ones. */
  lemma ClassDecides(a: Assessment)
    ensures Coherent(Recover(a)) && SameIds(Recover(a), Opened(a))
  {
    BaseCoherent(a);
    ProgressKeepsCoherence(Base(a));
    ProgressKeepsIds(Base(a));
  }

  // ---- when each blocking class is reached ----------------------------------------------------

  lemma ProgressToPending(r: Assessed)
    ensures Progress(r).cls.ContinueExecutionRequired? ==>
      r.cls.ContinueExecutionRequired? || ContinuePending(r.latestAction)
    ensures Progress(r).cls.RebriefRequired? ==>
      || r.cls.RebriefRequired?
      || (r.latestAction.Some? && r.latestAction.value.kind.DecisionRegenerateBrief?)
  {
  }

  lemma BaseIsNeverPending(a: Assessment)
    ensures !Base(a).cls.ContinueExecutionRequired? && !Base(a).cls.RebriefRequired?
  {
    assert HandoffVerdict(Opened(a), a.branch).Some? ==>
      HandoffVerdict(Opened(a), a.branch).value.cls != ContinueExecutionRequired;
  }

  /** Continue finalization and rebriefing are asked for only by their own recorded decision. */
  lemma PendingDecisionBehindClass(a: Assessment)
    ensures Recover(a).cls.ContinueExecutionRequired? ==> ContinuePending(a.latestAction)
    ensures Recover(a).cls.RebriefRequired? ==>
      a.latestAction.Some? && a.latestAction.value.kind.DecisionRegenerateBrief?
  {
    BaseIsNeverPending(a);
    BaseCoherent(a);
    ProgressToPending(Base(a));
  }

  /** A fresh local run is offered exactly when continuity is safe, no live Claude branch decides
      the verdict, the phase is BRIEF_READY and no continue decision waits to be finalized. */
  lemma ReadyIff(a: Assessment)
    ensures Recover(a).cls.ReadyNextRun? <==>
      && a.outcome == Safe
      && HandoffVerdict(Opened(a), a.branch).None?
      && a.capsule.phase == BriefReady
      && !ContinuePending(a.latestAction)
  {
  }

  /** Nothing stands between the assessment and the local run and phase. */
  predicate LocalVerdict(a: Assessment) {
    a.outcome == Safe && HandoffVerdict(Opened(a), a.branch).None? && a.capsule.phase != BriefReady
  }

  predicate HasResumable(a: Assessment) {
    a.latestCheckpoint.Some? && a.latestCheckpoint.value.isResumable
  }

  /** The run was interrupted, or the task is paused and no failed run says otherwise. */
  predicate Interruption(a: Assessment) {
    || (a.latestRun.Some? && a.latestRun.value.status == RunStatus.Interrupted)
    || (a.capsule.phase == Paused
        && !(a.latestRun.Some? && a.latestRun.value.status == RunFailed))
  }

  /** An interrupted run is offered for resumption exactly when it has a resumable checkpoint and
      the resumption was not already executed or overruled by a decision to rebrief. */
  lemma InterruptedIff(a: Assessment)
    ensures Recover(a).cls.InterruptedRunRecoverable? <==>
      && LocalVerdict(a) && Interruption(a) && HasResumable(a)
      && !(a.latestAction.Some? && (a.latestAction.value.kind.InterruptedResumeExecuted?
                                    || a.latestAction.value.kind.DecisionRegenerateBrief?))
  {
    ProgressToInterrupted(Base(a));
    BaseInterruptedIff(a);
  }

  lemma ProgressToInterrupted(r: Assessed)
    ensures Progress(r).cls.InterruptedRunRecoverable? <==>
      && r.cls.InterruptedRunRecoverable?
      && !(r.latestAction.Some? && (r.latestAction.value.kind.InterruptedResumeExecuted?
                                    || r.latestAction.value.kind.DecisionRegenerateBrief?))
  {
  }

  lemma BaseInterruptedIff(a: Assessment)
    ensures Base(a).cls.InterruptedRunRecoverable? <==>
      LocalVerdict(a) && Interruption(a) && HasResumable(a)
    ensures Base(a).latestAction == a.latestAction
  {
    BaseCoherent(a);
    HandoffIsNotInterrupted(Opened(a), a.branch);
  }

  lemma HandoffIsNotInterrupted(r: Assessed, branch: BranchRecords)
    ensures HandoffVerdict(r, branch).Some? ==>
      !HandoffVerdict(r, branch).value.cls.InterruptedRunRecoverable?
  {
  }

  /** A recorded decision to regenerate the brief stays in force: it turns every later verdict
      except READY_NEXT_RUN and the continue override into REBRIEF_REQUIRED, even in states that
      have nothing to do with the decision it was recorded for. */
  lemma RegenerateDecisionPersists(a: Assessment)
    requires a.latestAction.Some? && a.latestAction.value.kind.DecisionRegenerateBrief?
    ensures Recover(a).cls.ReadyNextRun? || Recover(a).cls.RebriefRequired?
  {
  }

  /** The five verdicts an active Claude branch can force. */
  lemma ActiveVerdict(r: Assessed, branch: BranchRecords)
    requires branch.packet.Some? && branch.packet.value.status == PacketAccepted
    requires branch.packet.value.targetWorker == Claude && branch.packet.value.isResumable
    requires ActiveState(ContinuityOf(branch).state)
    ensures var v := HandoffVerdict(r, branch);
      && v.Some?
      && (v.value.cls.AcceptedHandoffLaunchReady? || v.value.cls.HandoffLaunchPendingOutcome?
          || v.value.cls.HandoffLaunchDone? || v.value.cls.HandoffFollowThroughReview?
          || v.value.cls.RepairRequired?)
  {
  }

  /** The classes that concern local work only. */
  predicate LocalClass(cls: Class) {
    || cls.ReadyNextRun? || cls.InterruptedRunRecoverable? || cls.CompletedNoAction?
    || cls.FailedRunReviewRequired? || cls.ValidationReviewRequired?
  }

  lemma ProgressStaysOffLocal(r: Assessed)
    requires !LocalClass(r.cls)
    ensures !LocalClass(Progress(r).cls)
  {
  }

  /** While an active Claude branch is assessed, whatever the outcome and the newest action, the
      class offers no local run, no interrupted resume and no local review. */
  lemma ActiveBranchClass(a: Assessment)
    requires a.branch.packet.Some? && a.branch.packet.value.status == PacketAccepted
    requires a.branch.packet.value.targetWorker == Claude && a.branch.packet.value.isResumable
    requires ActiveState(ContinuityOf(a.branch).state)
    ensures !LocalClass(Recover(a).cls)
  {
    ActiveVerdict(Opened(a), a.branch);
    ProgressStaysOffLocal(Base(a));
  }
}
