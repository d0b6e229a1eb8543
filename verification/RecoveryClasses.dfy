/** When each recovery class is reached, on the outcome of the assessment, the posture of the
    branch, the phase, the newest run and the newest action. */
module RecoveryClasses {
  import opened Wrappers
  import opened HandoffRecords
  import opened HandoffContinuity
  import opened ContinueAssessment
  import opened HandoffSteps
  import opened AssessmentAnswers
  import opened HandoffAnswers
  import opened Recovery

  // ---- situations -----------------------------------------------------------------------------

  function PostureOf(a: Assessment): State {
    ContinuityOf(a.branch).state
  }

  /** Nothing is wrong and no Claude branch is open. */
  predicate Calm(a: Assessment) {
    a.outcome == Safe && PostureOf(a) in {NotApplicable, Resolved}
  }

  predicate RunIs(a: Assessment, status: RunStatus) {
    a.latestRun.Some? && a.latestRun.value.status == status
  }

  predicate FailedRun(a: Assessment) {
    Calm(a) && a.capsule.phase != BriefReady && RunIs(a, RunFailed)
  }

  predicate StoppedRun(a: Assessment) {
    && Calm(a) && a.capsule.phase != BriefReady
    && (RunIs(a, RunStatus.Interrupted) || (a.capsule.phase == Paused && !RunIs(a, RunFailed)))
  }

  /** The task is in the phase, and neither its newest run nor anything else says more. */
  predicate InPhase(a: Assessment, phase: Phase) {
    && Calm(a) && a.capsule.phase == phase
    && !RunIs(a, RunStatus.Interrupted) && !RunIs(a, RunFailed)
  }

  /** A phase in which nothing may be left without a run to show for it. */
  predicate Stranded(a: Assessment) {
    InPhase(a, a.capsule.phase)
    && a.capsule.phase in {Intake, Interpreting, Executing, AwaitingDecision, Blocked, Failed}
  }

  predicate Resumable(a: Assessment) {
    a.latestCheckpoint.Some? && a.latestCheckpoint.value.isResumable
  }

  predicate Newest(a: Assessment, kind: ActionKind) {
    a.latestAction.Some? && a.latestAction.value.kind == kind
  }

  /** The newest action is a review of the failed run. */
  predicate FailureReviewed(a: Assessment) {
    && Newest(a, FailedRunReviewed)
    && a.latestRun.Some? && a.latestAction.value.runID == a.latestRun.value.runID
  }

  /** The newest action is a validation review, of the newest run if there is one. */
  predicate Validated(a: Assessment) {
    && Newest(a, ValidationReviewed)
    && (a.latestRun.None? || a.latestRun.value.runID == ""
        || a.latestAction.value.runID == a.latestRun.value.runID)
  }

  /** What waits for a decision until one is recorded. */
  predicate Decidable(a: Assessment) {
    a.outcome == NeedsDecision || FailedRun(a) || InPhase(a, Validating)
  }

  // ---- the class before the newest action -----------------------------------------------------

  lemma BranchClass(r: Assessed, branch: BranchRecords)
    ensures var v := HandoffVerdict(r, branch);
      var s := ContinuityOf(branch).state;
      && (v.None? <==> s in {NotApplicable, Resolved})
      && (v.Some? ==>
            && (v.value.cls.AcceptedHandoffLaunchReady? <==> s in {AcceptedNotLaunched, FailedRetryable})
            && (v.value.cls.HandoffLaunchPendingOutcome? <==> s == PendingOutcome)
            && (v.value.cls.HandoffFollowThroughReview? <==> s == FollowedStalled)
            && (v.value.cls.RepairRequired? <==> s == AckLost)
            && (v.value.cls.HandoffLaunchDone? <==>
                  s in {AckSeen, AckEmpty, FollowedProofOfLife, FollowedConfirmed, FollowedUnknown}))
  {
    NotApplicableIff(branch.packet, branch.launch, branch.ack, branch.followThrough,
                     branch.resolution);
  }

  lemma RunClass(r: Assessed, a: Assessment)
    requires Calm(a) && a.capsule.phase != BriefReady
    ensures var c := RunVerdict(r, a).cls;
      && (c.InterruptedRunRecoverable? <==> StoppedRun(a) && Resumable(a))
      && (c.FailedRunReviewRequired? <==> FailedRun(a))
      && (c.ValidationReviewRequired? <==> InPhase(a, Validating))
      && (c.CompletedNoAction? <==> InPhase(a, Completed))
      && (c.RepairRequired? <==> (StoppedRun(a) && !Resumable(a)) || Stranded(a))
      && !c.ReadyNextRun?
  {
  }

  /** The class an assessment would have without any recorded action. */
  function Unprogressed(a: Assessment): Class {
    Base(a).cls
  }

  lemma BaseClass(a: Assessment)
    ensures var (c, s) := (Unprogressed(a), PostureOf(a));
      && (c.DriftBlocked? <==> a.outcome == BlockedDrift)
      && (c.StaleRunReconciliation? <==> a.outcome == StaleReconciled)
      && (c.DecisionRequired? <==> a.outcome == NeedsDecision)
      && (c.AcceptedHandoffLaunchReady? <==>
            a.outcome == Safe && s in {AcceptedNotLaunched, FailedRetryable})
      && (c.HandoffLaunchPendingOutcome? <==> a.outcome == Safe && s == PendingOutcome)
      && (c.HandoffFollowThroughReview? <==> a.outcome == Safe && s == FollowedStalled)
      && (c.HandoffLaunchDone? <==>
            a.outcome == Safe
            && s in {AckSeen, AckEmpty, FollowedProofOfLife, FollowedConfirmed, FollowedUnknown})
      && (c.ReadyNextRun? <==> Calm(a) && a.capsule.phase == BriefReady)
      && (c.InterruptedRunRecoverable? <==> StoppedRun(a) && Resumable(a))
      && (c.FailedRunReviewRequired? <==> FailedRun(a))
      && (c.ValidationReviewRequired? <==> InPhase(a, Validating))
      && (c.CompletedNoAction? <==> InPhase(a, Completed))
      && (c.RepairRequired? <==>
            || a.outcome == BlockedInconsistent
            || (a.outcome == Safe && s == AckLost)
            || (StoppedRun(a) && !Resumable(a)) || Stranded(a))
      && !c.ContinueExecutionRequired? && !c.RebriefRequired?
  {
    if a.outcome == Safe {
      BranchClass(Opened(a), a.branch);
      if Calm(a) && a.capsule.phase != BriefReady {
        RunClass(Opened(a), a);
      }
    }
  }

  /** What the newest action makes of a class. */
  lemma ProgressClass(r: Assessed)
    ensures var (b, c) := (r.cls, Progress(r).cls);
      var act := r.latestAction;
      var rebrief := act.Some? && act.value.kind.DecisionRegenerateBrief?;
      var go := act.Some? && act.value.kind.DecisionContinue?;
      var executed := act.Some? && act.value.kind.InterruptedResumeExecuted?;
      var failure := act.Some? && act.value.kind.FailedRunReviewed? && act.value.runID == r.runID;
      var valid := act.Some? && act.value.kind.ValidationReviewed?
                   && (r.runID == "" || act.value.runID == r.runID);
      c == (if b.ReadyNextRun? then if go || executed then ContinueExecutionRequired else b
            else if rebrief then RebriefRequired
            else if executed && (b.InterruptedRunRecoverable? || b.ContinueExecutionRequired?)
            then ContinueExecutionRequired
            else if go && (b.DecisionRequired? || b.FailedRunReviewRequired?
                           || b.ValidationReviewRequired?)
            then ContinueExecutionRequired
            else if (failure && b.FailedRunReviewRequired?) || (valid && b.ValidationReviewRequired?)
            then DecisionRequired
            else b)
  {
  }

  lemma ClassIs(a: Assessment)
    ensures var (b, c) := (Unprogressed(a), Recover(a).cls);
      c == (if b.ReadyNextRun? then
              if Newest(a, DecisionContinue) || Newest(a, InterruptedResumeExecuted)
              then ContinueExecutionRequired else b
            else if Newest(a, DecisionRegenerateBrief) then RebriefRequired
            else if Newest(a, InterruptedResumeExecuted) && b.InterruptedRunRecoverable?
            then ContinueExecutionRequired
            else if Newest(a, DecisionContinue)
                 && (b.DecisionRequired? || b.FailedRunReviewRequired? || b.ValidationReviewRequired?)
            then ContinueExecutionRequired
            else if (FailureReviewed(a) && b.FailedRunReviewRequired?)
                 || (Validated(a) && b.ValidationReviewRequired?)
            then DecisionRequired
            else b)
  {
    BaseClass(a);
    BaseCoherent(a);
    ProgressClass(Base(a));
    BranchClass(Opened(a), a.branch);
  }

  // ---- each class -----------------------------------------------------------------------------

  /** The four classes of an open Claude branch: each for its postures, unless the newest action
      asks for a new brief. */
  lemma HandoffClassesIff(a: Assessment)
    ensures var (c, s) := (Recover(a).cls, PostureOf(a));
      var open := a.outcome == Safe && !Newest(a, DecisionRegenerateBrief);
      && (c.AcceptedHandoffLaunchReady? <==> open && s in {AcceptedNotLaunched, FailedRetryable})
      && (c.HandoffLaunchPendingOutcome? <==> open && s == PendingOutcome)
      && (c.HandoffFollowThroughReview? <==> open && s == FollowedStalled)
      && (c.HandoffLaunchDone? <==>
            open
            && s in {AckSeen, AckEmpty, FollowedProofOfLife, FollowedConfirmed, FollowedUnknown})
  {
    BaseClass(a);
    ClassIs(a);
  }

  /** The two review classes wait for the review of their run, or for a decision. */
  lemma ReviewClassesIff(a: Assessment)
    ensures var c := Recover(a).cls;
      var undecided := !Newest(a, DecisionContinue) && !Newest(a, DecisionRegenerateBrief);
      && (c.FailedRunReviewRequired? <==> FailedRun(a) && undecided && !FailureReviewed(a))
      && (c.ValidationReviewRequired? <==> InPhase(a, Validating) && undecided && !Validated(a))
  {
    BaseClass(a);
    ClassIs(a);
  }

  /** A decision is asked for by the outcome, or after the review of a failed or validating run. */
  lemma DecisionRequiredIff(a: Assessment)
    ensures Recover(a).cls.DecisionRequired? <==>
      || (a.outcome == NeedsDecision
          && !Newest(a, DecisionContinue) && !Newest(a, DecisionRegenerateBrief))
      || (FailedRun(a) && FailureReviewed(a))
      || (InPhase(a, Validating) && Validated(a))
  {
    BaseClass(a);
    ClassIs(a);
  }

  /** Drift, a run that was left running and a completed task stay what they are until the brief is
      to be regenerated. */
  lemma StandingClassesIff(a: Assessment)
    ensures var c := Recover(a).cls;
      var rebrief := Newest(a, DecisionRegenerateBrief);
      && (c.DriftBlocked? <==> a.outcome == BlockedDrift && !rebrief)
      && (c.StaleRunReconciliation? <==> a.outcome == StaleReconciled && !rebrief)
      && (c.CompletedNoAction? <==> InPhase(a, Completed) && !rebrief)
  {
    BaseClass(a);
    ClassIs(a);
  }

  /** Repair: an inconsistency, a lost acknowledgment, a stopped run without a resumable checkpoint,
      or a phase that should not be left without a run. */
  lemma RepairRequiredIff(a: Assessment)
    ensures Recover(a).cls.RepairRequired? <==>
      && !Newest(a, DecisionRegenerateBrief)
      && (|| a.outcome == BlockedInconsistent
          || (a.outcome == Safe && PostureOf(a) == AckLost)
          || (StoppedRun(a) && !Resumable(a))
          || Stranded(a))
  {
    BaseClass(a);
    ClassIs(a);
  }

  /** The three classes of a task about to run: a resumable stopped run is resumed once; a decision
      or an executed resume is to be finalized; then the next run is ready. */
  lemma RunClassesIff(a: Assessment)
    ensures var c := Recover(a).cls;
      var go := Newest(a, DecisionContinue);
      var resumed := Newest(a, InterruptedResumeExecuted);
      var briefed := Calm(a) && a.capsule.phase == BriefReady;
      && (c.ReadyNextRun? <==> briefed && !go && !resumed)
      && (c.InterruptedRunRecoverable? <==>
            StoppedRun(a) && Resumable(a) && !resumed && !Newest(a, DecisionRegenerateBrief))
      && (c.ContinueExecutionRequired? <==>
            || (briefed && (go || resumed))
            || (StoppedRun(a) && Resumable(a) && resumed)
            || (Decidable(a) && go))
  {
    BaseClass(a);
    ClassIs(a);
  }

  /** A new brief is asked for exactly by its own decision, except where the next run is ready. */
  lemma RebriefRequiredIff(a: Assessment)
    ensures Recover(a).cls.RebriefRequired? <==>
      Newest(a, DecisionRegenerateBrief) && !(Calm(a) && a.capsule.phase == BriefReady)
  {
    BaseClass(a);
    ClassIs(a);
  }

  /** A repository that drifted at all, however little, is offered no local run and launches no
      handoff. */
  lemma DriftExcludes(db: Db, taskID: Id, obs: Observation, handoffID: Id, target: Worker,
                      attemptID: Id)
    requires taskID in db.capsules && obs.drift != DriftNone
    ensures !Recover(Assess(db, taskID, obs)).cls.ReadyNextRun?
    ensures !PrepareLaunchOn(db, taskID, handoffID, target, obs, attemptID).0.Prepared?
  {
    OutcomeIff(db, taskID, obs);
    RunClassesIff(Assess(db, taskID, obs));
    PreparedIff(db, taskID, handoffID, target, obs, attemptID);
  }
}
