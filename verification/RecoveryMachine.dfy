/** The executors that move a task through recovery: recovery_action.go, continue_execution.go,
    interrupted_resume.go and rebrief.go. Each decides on an assessment taken before its
    transaction and commits only if the capsule version is still the assessed one. */
module RecoveryMachine {
  import opened Wrappers
  import opened Text
  import opened HandoffRecords
  import opened ContinueAssessment
  import opened Recovery

  /** The tables the executors write. */
  datatype Ledger = Ledger(capsules: map<Id, Capsule>, briefs: set<Id>, actions: seq<Action>)

  datatype ActionRequest = ActionRequest(kind: ActionKind, summary: string, notes: seq<string>)

  datatype ExecutorResult = Rejected | Reused(existing: Action) | Committed(record: Option<Action>)

  // ---- guards ---------------------------------------------------------------------------------

  function NormalizedNotes(notes: seq<string>): seq<string> {
    if notes == [] then []
    else
      var rest := NormalizedNotes(notes[1..]);
      if Blank(notes[0]) then rest else [TrimSpace(notes[0])] + rest
  }

  /** replayableLatestRecoveryAction and recoveryActionReplayAllowed */
  predicate Replayable(req: ActionRequest, r: Assessed) {
    && r.latestAction.Some?
    && r.latestAction.value.kind == req.kind
    && NormalizedNotes(req.notes) == r.latestAction.value.notes
    && SameSummary(req.summary, r.latestAction.value.summary)
    && (req.kind == InterruptedRunReviewed ==> r.cls == InterruptedRunRecoverable)
  }

  /** The class a recorded action needs. */
  predicate Recordable(kind: ActionKind, cls: Class) {
    match kind
    case FailedRunReviewed => cls == FailedRunReviewRequired
    case InterruptedRunReviewed => cls == InterruptedRunRecoverable
    case ValidationReviewed => cls == ValidationReviewRequired
    case DecisionContinue => cls == DecisionRequired
    case DecisionRegenerateBrief => cls == DecisionRequired
    case RepairIntentRecorded => cls == RepairRequired || cls == DriftBlocked
    case PendingLaunchReviewed => cls == HandoffLaunchPendingOutcome
    case InterruptedResumeExecuted => false
    case ContinueExecuted => false
  }

  /** The phase a recorded decision moves the task to; only decisions move it. */
  function PhaseMove(kind: ActionKind): Option<Phase> {
    match kind
    case DecisionContinue => Some(BriefReady)
    case DecisionRegenerateBrief => Some(Phase.Blocked)
    case _ => None
  }

  function OrUnknown(runID: Id): Id {
    if Blank(runID) then "unknown" else runID
  }

  function DefaultSummary(kind: ActionKind, runID: Id): string {
    match kind
    case FailedRunReviewed => "Failed run " + OrUnknown(runID) + " reviewed."
    case InterruptedRunReviewed => "Interrupted run " + OrUnknown(runID) + " reviewed."
    case ValidationReviewed => "Validation state for run " + OrUnknown(runID) + " reviewed."
    case DecisionContinue => "Operator chose to continue with the current brief."
    case DecisionRegenerateBrief =>
      "Operator chose to regenerate the execution brief before another run."
    case RepairIntentRecorded =>
      "Operator recorded repair intent for the current continuity issue."
    case _ => "Pending handoff launch reviewed; waiting for durable outcome."
  }

  function ContinueSummary(briefID: Id): string {
    "Operator confirmed current brief " + briefID + " for the next bounded run."
  }

  function ResumeSummary(runID: Id, briefID: Id): string {
    "Operator resumed interrupted lineage for run " + OrUnknown(runID) + " using current brief "
    + briefID + "."
  }

  /** The record prepareRecoveryActionRecord fills in. */
  function Template(a: Assessment, r: Assessed, req: ActionRequest, id: Id): Action {
    var summary := if Blank(req.summary) then DefaultSummary(req.kind, r.runID)
                   else TrimSpace(req.summary);
    var runIDs := req.kind in {FailedRunReviewed, InterruptedRunReviewed, ValidationReviewed,
                               DecisionContinue, DecisionRegenerateBrief};
    var handoffs := req.kind in {DecisionContinue, DecisionRegenerateBrief, PendingLaunchReviewed};
    Action(id, a.taskID, req.kind,
           if runIDs then r.runID else "",
           if req.kind == PendingLaunchReviewed then "" else r.checkpointID,
           if handoffs then r.handoffID else "",
           if req.kind == PendingLaunchReviewed && a.branch.launch.Some?
           then a.branch.launch.value.attemptID else "",
           summary, NormalizedNotes(req.notes))
  }

  /** reusableRecoveryAction: the newest action already says what the request would record. */
  predicate SaysTheSame(candidate: Action, latest: Option<Action>) {
    && latest.Some?
    && latest.value == candidate.(actionID := latest.value.actionID, summary := latest.value.summary)
    && TrimSpace(latest.value.summary) == TrimSpace(candidate.summary)
  }

  predicate ContinueGuard(a: Assessment, r: Assessed) {
    && a.latestAction.Some?
    && a.latestAction.value.kind in {DecisionContinue, InterruptedResumeExecuted}
    && r.cls == ContinueExecutionRequired
  }

  predicate ResumeGuard(r: Assessed) {
    && r.cls == InterruptedRunRecoverable
    && r.advice == ResumeInterrupted
  }

  predicate RebriefGuard(a: Assessment, r: Assessed) {
    && r.cls == RebriefRequired
    && a.latestAction.Some?
    && a.latestAction.value.kind == DecisionRegenerateBrief
  }

  /** The newest intent a rebrief accepts. */
  predicate FitsIntent(latest: Option<Id>, capsule: Capsule) {
    latest.Some? && (capsule.intentID == "" || latest.value == capsule.intentID)
  }

  // ---- transactions ---------------------------------------------------------------------------

  /** The optimistic check every transaction starts with. */
  predicate Unmoved(l: Ledger, a: Assessment) {
    a.taskID in l.capsules && l.capsules[a.taskID].version == a.capsule.version
  }

  function Moved(l: Ledger, taskID: Id, phase: Phase, briefID: Id): map<Id, Capsule>
    requires taskID in l.capsules
  {
    var c := l.capsules[taskID];
    l.capsules[taskID := c.(version := c.version + 1, phase := phase, briefID := briefID)]
  }

  function RecordActionOn(l: Ledger, a: Assessment, r: Assessed, req: ActionRequest, id: Id)
    : (ExecutorResult, Ledger)
  {
    if Replayable(req, r) then (Reused(r.latestAction.value), l)
    else if !Recordable(req.kind, r.cls) then (Rejected, l)
    else if SaysTheSame(Template(a, r, req, id), a.latestAction) then
      (Reused(a.latestAction.value), l)
    else if !Unmoved(l, a) then (Rejected, l)
    else
      var action := Template(a, r, req, id);
      var move := PhaseMove(req.kind);
      (Committed(Some(action)),
       l.(capsules := if move.Some? then Moved(l, a.taskID, move.value, l.capsules[a.taskID].briefID)
                      else l.capsules,
          actions := l.actions + [action]))
  }

  function ContinueOn(l: Ledger, a: Assessment, r: Assessed, id: Id): (ExecutorResult, Ledger) {
    if !ContinueGuard(a, r) || !Unmoved(l, a) || l.capsules[a.taskID].briefID !in l.briefs then
      (Rejected, l)
    else
      var briefID := l.capsules[a.taskID].briefID;
      var action := Action(id, a.taskID, ContinueExecuted, r.runID, r.checkpointID, r.handoffID, "",
                           ContinueSummary(briefID), []);
      (Committed(Some(action)),
       l.(capsules := Moved(l, a.taskID, BriefReady, briefID), actions := l.actions + [action]))
  }

  function ResumeOn(l: Ledger, a: Assessment, r: Assessed, summary: string, notes: seq<string>,
                    id: Id)
    : (ExecutorResult, Ledger)
  {
    if !ResumeGuard(r) || !Unmoved(l, a) || l.capsules[a.taskID].briefID !in l.briefs then
      (Rejected, l)
    else
      var briefID := l.capsules[a.taskID].briefID;
      var text := if Blank(summary) then ResumeSummary(r.runID, briefID) else TrimSpace(summary);
      var action := Action(id, a.taskID, InterruptedResumeExecuted, r.runID, r.checkpointID, "", "",
                           text, NormalizedNotes(notes));
      (Committed(Some(action)),
       l.(capsules := Moved(l, a.taskID, BriefReady, briefID), actions := l.actions + [action]))
  }

  /** Rebrief needs the newest intent to be the capsule's, and records no action. */
  function RebriefOn(l: Ledger, a: Assessment, r: Assessed, latestIntent: Option<Id>,
                     newBriefID: Id)
    : (ExecutorResult, Ledger)
  {
    if !RebriefGuard(a, r) || !Unmoved(l, a) || l.capsules[a.taskID].briefID !in l.briefs
      || !FitsIntent(latestIntent, l.capsules[a.taskID])
    then (Rejected, l)
    else
      (Committed(None),
       l.(capsules := Moved(l, a.taskID, BriefReady, newBriefID),
          briefs := l.briefs + {newBriefID}))
  }

  // ---- the executors, given an assessment and its recovery verdict ----------------------------

  class RecoveryStore {
    var capsules: map<Id, Capsule>
    var briefs: set<Id>
    var actions: seq<Action>

    function Tables(): Ledger
      reads this
    {
      Ledger(capsules, briefs, actions)
    }

    /** RecordRecoveryAction */
    method RecordRecoveryAction(a: Assessment, r: Assessed, req: ActionRequest, id: Id)
      returns (out: ExecutorResult)
      modifies this`capsules, this`actions
      ensures (out, Tables()) == RecordActionOn(old(Tables()), a, r, req, id)
      ensures !out.Committed? ==> Tables() == old(Tables())
      ensures out.Reused? ==> r.latestAction == Some(out.existing) || a.latestAction == Some(out.existing)
      ensures out.Committed? ==>
        && |actions| == |old(actions)| + 1 && Some(actions[|actions| - 1]) == out.record
        && a.taskID in capsules && a.taskID in old(capsules)
        && capsules[a.taskID].version == old(capsules)[a.taskID].version
             + (if PhaseMove(req.kind).Some? then 1 else 0)
    {
      if Replayable(req, r) {
        return Reused(r.latestAction.value);
      }
      if !Recordable(req.kind, r.cls) {
        return Rejected;
      }
      var action := Template(a, r, req, id);
      if SaysTheSame(action, a.latestAction) {
        return Reused(a.latestAction.value);
      }
      if a.taskID !in capsules {
        return Rejected;
      }
      var capsule := capsules[a.taskID];
      if capsule.version != a.capsule.version {
        return Rejected;
      }
      var move := PhaseMove(req.kind);
      if move.Some? {
        capsule := capsule.(version := capsule.version + 1);
        capsule := capsule.(phase := move.value);
        capsules := capsules[a.taskID := capsule];
      }
      actions := actions + [action];
      out := Committed(Some(action));
    }

    /** ExecuteContinueRecovery */
    method ExecuteContinueRecovery(a: Assessment, r: Assessed, id: Id) returns (out: ExecutorResult)
      modifies this`capsules, this`actions
      ensures (out, Tables()) == ContinueOn(old(Tables()), a, r, id)
      ensures !out.Committed? ==> Tables() == old(Tables())
      ensures out.Committed? ==>
        && a.taskID in capsules && a.taskID in old(capsules)
        && capsules[a.taskID].version == old(capsules)[a.taskID].version + 1
        && capsules[a.taskID].phase == BriefReady
    {
      if a.latestAction.Some? && a.latestAction.value.kind == ContinueExecuted {
        return Rejected;
      }
      if r.cls != ContinueExecutionRequired || a.latestAction.None?
        || a.latestAction.value.kind !in {DecisionContinue, InterruptedResumeExecuted}
      {
        return Rejected;
      }
      if a.taskID !in capsules || capsules[a.taskID].version != a.capsule.version {
        return Rejected;
      }
      var capsule := capsules[a.taskID];
      if capsule.briefID !in briefs {
        return Rejected;
      }
      capsule := capsule.(version := capsule.version + 1);
      capsule := capsule.(phase := BriefReady);
      capsules := capsules[a.taskID := capsule];
      var action := Action(id, a.taskID, ContinueExecuted, r.runID, r.checkpointID, r.handoffID, "",
                           ContinueSummary(capsule.briefID), []);
      actions := actions + [action];
      out := Committed(Some(action));
    }

    /** ExecuteInterruptedResume */
    method ExecuteInterruptedResume(a: Assessment, r: Assessed, summary: string,
                                    notes: seq<string>, id: Id)
      returns (out: ExecutorResult)
      modifies this`capsules, this`actions
      ensures (out, Tables()) == ResumeOn(old(Tables()), a, r, summary, notes, id)
      ensures !out.Committed? ==> Tables() == old(Tables())
      ensures out.Committed? ==>
        && a.taskID in capsules && a.taskID in old(capsules)
        && capsules[a.taskID].version == old(capsules)[a.taskID].version + 1
        && capsules[a.taskID].phase == BriefReady
    {
      if a.latestAction.Some? && a.latestAction.value.kind == InterruptedResumeExecuted
        && r.cls == ContinueExecutionRequired
      {
        return Rejected;
      }
      if r.cls != InterruptedRunRecoverable || r.advice != ResumeInterrupted {
        return Rejected;
      }
      if a.taskID !in capsules || capsules[a.taskID].version != a.capsule.version {
        return Rejected;
      }
      var capsule := capsules[a.taskID];
      if capsule.briefID !in briefs {
        return Rejected;
      }
      capsule := capsule.(version := capsule.version + 1);
      capsule := capsule.(phase := BriefReady);
      capsules := capsules[a.taskID := capsule];
      var text := TrimSpace(summary);
      if text == "" {
        text := ResumeSummary(r.runID, capsule.briefID);
      }
      var action := Action(id, a.taskID, InterruptedResumeExecuted, r.runID, r.checkpointID, "", "",
                           text, NormalizedNotes(notes));
      actions := actions + [action];
      out := Committed(Some(action));
    }

    /** ExecuteRebrief */
    method ExecuteRebrief(a: Assessment, r: Assessed, latestIntent: Option<Id>, newBriefID: Id)
      returns (out: ExecutorResult)
      modifies this`capsules, this`briefs
      ensures (out, Tables()) == RebriefOn(old(Tables()), a, r, latestIntent, newBriefID)
      ensures !out.Committed? ==> Tables() == old(Tables())
      ensures out.Committed? ==>
        && a.taskID in capsules && a.taskID in old(capsules)
        && capsules[a.taskID].version == old(capsules)[a.taskID].version + 1
        && capsules[a.taskID].phase == BriefReady
    {
      if r.cls != RebriefRequired {
        return Rejected;
      }
      if a.latestAction.None? || a.latestAction.value.kind != DecisionRegenerateBrief {
        return Rejected;
      }
      if a.taskID !in capsules || capsules[a.taskID].version != a.capsule.version {
        return Rejected;
      }
      var capsule := capsules[a.taskID];
      if capsule.briefID !in briefs || latestIntent.None? {
        return Rejected;
      }
      if capsule.intentID != "" && latestIntent.value != capsule.intentID {
        return Rejected;
      }
      briefs := briefs + {newBriefID};
      capsule := capsule.(version := capsule.version + 1);
      capsule := capsule.(briefID := newBriefID);
      capsule := capsule.(phase := BriefReady);
      capsules := capsules[a.taskID := capsule];
      out := Committed(None);
    }
  }
}
