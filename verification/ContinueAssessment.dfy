/** The assessment every orchestrator decision starts from (service.go:765-921), and the
    continuity posture it implies. */
module ContinueAssessment {
  import opened Wrappers
  import opened HandoffRecords
  import opened HandoffContinuity
  import opened ActiveBranch
  import opened ContinuityValidator

  datatype Outcome = Safe | StaleReconciled | NeedsDecision | BlockedDrift | BlockedInconsistent

  /** What the assessment sees outside the handoff tables: whether the capsule, checkpoint, run
      or recovery-action checks report something, and how far the repository has drifted. */
  datatype Observation = Observation(otherIssues: bool, drift: Drift)

  /** The records of the task's active branch, and the task's newest resolution whatever its
      branch. */
  datatype BranchRecords = BranchRecords(packet: Option<Packet>, launch: Option<Launch>,
                                         ack: Option<Ack>, followThrough: Option<FollowThrough>,
                                         resolution: Option<Resolution>)

  function RecordsOf(db: Db, taskID: Id): BranchRecords {
    var packet := ActivePacket(db, taskID);
    BranchRecords(packet,
                  if packet.Some? then LatestLaunch(db.launches, packet.value.handoffID) else None,
                  if packet.Some? then LatestAck(db.acks, packet.value.handoffID) else None,
                  if packet.Some? then LatestFollowThrough(db.followThroughs, packet.value.handoffID)
                  else None,
                  LatestResolutionByTask(db.resolutions, taskID))
  }

  datatype Assessment = Assessment(taskID: Id, outcome: Outcome, drift: Drift, capsule: Capsule,
                                   latestRun: Option<Run>, latestCheckpoint: Option<Checkpoint>,
                                   branch: BranchRecords, latestAction: Option<Action>)

  predicate IsRunning(run: Option<Run>) {
    run.Some? && run.value.status == Running
  }

  function OutcomeOf(issue: bool, run: Option<Run>, phase: Phase, drift: Drift): Outcome {
    if issue then BlockedInconsistent
    else if IsRunning(run) then StaleReconciled
    else if drift == DriftMajor then BlockedDrift
    else if phase == AwaitingDecision || drift == DriftMinor then NeedsDecision
    else Safe
  }

  /** assessContinue */
  function Assess(db: Db, taskID: Id, obs: Observation): Assessment
    requires taskID in db.capsules
  {
    var capsule := db.capsules[taskID];
    var run := LatestRun(db.runs, taskID);
    var issue := obs.otherIssues || HasViolation(db, taskID);
    var outcome := OutcomeOf(issue, run, capsule.phase, obs.drift);
    Assessment(taskID, outcome,
               if outcome in {BlockedInconsistent, StaleReconciled} then DriftNone else obs.drift,
               capsule, run, LatestCheckpoint(db.checkpoints, taskID), RecordsOf(db, taskID),
               LatestAction(db.actions, taskID))
  }

  function ContinuityOf(r: BranchRecords): Continuity {
    AssessHandoffContinuity(r.packet, r.launch, r.ack, r.followThrough, r.resolution)
  }

  function ControlOf(r: BranchRecords): Control {
    AssessLaunchControl(r.packet, r.launch)
  }

  // ---- branch provenance, branch_provenance.go ------------------------------------------------

  datatype BranchClass = LocalBranch | ClaudeBranch

  datatype Branch = Branch(owner: BranchClass, ref: Id)

  /** deriveActiveBranchProvenanceFromAssessment; the fallback looks only at whether the
      recovery assessment names a handoff, which is the assessed one. */
  function BranchOf(taskID: Id, r: BranchRecords): Branch {
    if r.packet.Some? && ActiveState(ContinuityOf(r).state) then
      Branch(ClaudeBranch, ContinuityOf(r).handoffID)
    else if r.packet.Some? && r.packet.value.handoffID != "" then
      Branch(ClaudeBranch, r.packet.value.handoffID)
    else
      Branch(LocalBranch, taskID)
  }

  // ---- transition snapshots, continuity_transition_receipts.go --------------------------------

  datatype Snapshot = Snapshot(branch: Branch, continuity: Continuity, control: Control)

  function SnapshotAt(db: Db, taskID: Id): Snapshot {
    var r := RecordsOf(db, taskID);
    Snapshot(BranchOf(taskID, r), ContinuityOf(r), ControlOf(r))
  }

  predicate MaterialTransition(before: Snapshot, after: Snapshot) {
    || before.branch != after.branch
    || before.continuity.state != after.continuity.state
    || before.continuity.handoffID != after.continuity.handoffID
    || before.continuity.attemptID != after.continuity.attemptID
    || before.continuity.launchID != after.continuity.launchID
    || before.continuity.resolutionID != after.continuity.resolutionID
    || before.control.state != after.control.state
    || before.control.attemptID != after.control.attemptID
    || before.control.launchID != after.control.launchID
  }
}
