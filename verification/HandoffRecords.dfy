/** The durable records of the handoff protocol and the lookups the orchestrator makes. */
module HandoffRecords {
  import opened Wrappers
  import opened Text
  import opened Tables

  type Id = string

  /** A logical timestamp; 0 is Go's zero time. */
  type Time = int

  datatype Worker = Unset | Unknown | Codex | Claude | Noop

  datatype Phase = Intake | Interpreting | BriefReady | Executing | Validating
                 | AwaitingDecision | Paused | Blocked | Completed | Failed

  datatype RunStatus = RunUnset | RunCreated | Running | Interrupted | RunCompleted | RunFailed

  datatype Drift = DriftNone | DriftMinor | DriftMajor

  datatype RepoAnchor = RepoAnchor(repoRoot: string, worktree: string, branch: string,
                                   headSHA: string, dirtyHash: string, untrackedHash: string)

  datatype Capsule = Capsule(taskID: Id, version: nat, phase: Phase, intentID: Id, briefID: Id,
                             anchor: RepoAnchor)

  datatype Run = Run(runID: Id, taskID: Id, status: RunStatus)

  datatype Checkpoint = Checkpoint(checkpointID: Id, taskID: Id, runID: Id, phase: Phase,
                                   anchor: RepoAnchor, intentID: Id, briefID: Id, isResumable: bool)

  datatype Mode = Resume | Review | Takeover | OtherMode

  datatype PacketStatus = PacketCreated | PacketAccepted | PacketBlocked

  datatype Packet = Packet(handoffID: Id, taskID: Id, status: PacketStatus, targetWorker: Worker,
                           mode: Mode, reason: string, phase: Phase, checkpointID: Id, briefID: Id,
                           intentID: Id, capsuleVersion: nat, anchor: RepoAnchor, isResumable: bool,
                           latestRunID: Id, latestRunStatus: RunStatus, notes: seq<string>,
                           acceptedAt: Option<Time>, acceptedBy: Worker)

  datatype LaunchStatus = Requested | LaunchCompleted | LaunchFailed | OtherLaunchStatus

  datatype Launch = Launch(attemptID: Id, handoffID: Id, taskID: Id, targetWorker: Worker,
                           status: LaunchStatus, launchID: Id, endedAt: Time)

  datatype AckStatus = AckCaptured | AckUnavailable

  datatype Ack = Ack(ackID: Id, handoffID: Id, launchID: Id, taskID: Id, targetWorker: Worker,
                     status: AckStatus)

  datatype FollowThroughKind = ProofOfLife | ContinuationConfirmed | ContinuationUnknown
                             | StalledReview | OtherFollowThrough

  datatype FollowThrough = FollowThrough(recordID: Id, handoffID: Id, attemptID: Id, launchID: Id,
                                         taskID: Id, targetWorker: Worker, kind: FollowThroughKind,
                                         summary: string)

  datatype ResolutionKind = Abandoned | SupersededByLocal | ClosedUnproven | ReviewedStale

  datatype Resolution = Resolution(resolutionID: Id, handoffID: Id, attemptID: Id, launchID: Id,
                                   taskID: Id, targetWorker: Worker, kind: ResolutionKind,
                                   summary: string)

  datatype ActionKind = FailedRunReviewed | InterruptedRunReviewed | InterruptedResumeExecuted
                      | ValidationReviewed | DecisionContinue | ContinueExecuted
                      | DecisionRegenerateBrief | RepairIntentRecorded | PendingLaunchReviewed

  datatype Action = Action(actionID: Id, taskID: Id, kind: ActionKind, runID: Id, checkpointID: Id,
                           handoffID: Id, attemptID: Id, summary: string, notes: seq<string>)

  datatype TransitionKind = HandoffLaunchTransition | HandoffResolutionTransition

  datatype TransitionReceipt = TransitionReceipt(receiptID: Id, taskID: Id, kind: TransitionKind,
                                                 handle: Id, handoffID: Id)

  /** All tables of the store, each in creation order. */
  datatype Db = Db(capsules: map<Id, Capsule>, briefs: set<Id>, runs: seq<Run>,
                   checkpoints: seq<Checkpoint>, packets: seq<Packet>, launches: seq<Launch>,
                   acks: seq<Ack>, followThroughs: seq<FollowThrough>,
                   resolutions: seq<Resolution>, actions: seq<Action>,
                   receipts: seq<TransitionReceipt>)

  // ---- primary-key lookups ---------------------------------------------------------------

  function GetPacket(packets: seq<Packet>, handoffID: Id): (r: Option<Packet>)
    ensures r.Some? ==> r.value in packets && r.value.handoffID == handoffID
    ensures r.None? ==> forall p :: p in packets ==> p.handoffID != handoffID
  {
    LastWhereFinds(packets, (p: Packet) => p.handoffID == handoffID);
    LastWhere(packets, (p: Packet) => p.handoffID == handoffID)
  }

  function GetLaunch(launches: seq<Launch>, attemptID: Id): (r: Option<Launch>)
    ensures r.Some? ==> r.value in launches && r.value.attemptID == attemptID
    ensures r.None? ==> forall l :: l in launches ==> l.attemptID != attemptID
  {
    LastWhereFinds(launches, (l: Launch) => l.attemptID == attemptID);
    LastWhere(launches, (l: Launch) => l.attemptID == attemptID)
  }

  function GetCheckpoint(checkpoints: seq<Checkpoint>, checkpointID: Id): (r: Option<Checkpoint>)
    ensures r.Some? ==> r.value in checkpoints && r.value.checkpointID == checkpointID
    ensures r.None? ==> forall c :: c in checkpoints ==> c.checkpointID != checkpointID
  {
    LastWhereFinds(checkpoints, (c: Checkpoint) => c.checkpointID == checkpointID);
    LastWhere(checkpoints, (c: Checkpoint) => c.checkpointID == checkpointID)
  }

  // ---- latest-row queries ----------------------------------------------------------------

  function LatestRun(runs: seq<Run>, taskID: Id): (r: Option<Run>)
    ensures r.Some? ==> r.value in runs && r.value.taskID == taskID
  {
    LastWhereFinds(runs, (x: Run) => x.taskID == taskID);
    LastWhere(runs, (x: Run) => x.taskID == taskID)
  }

  function LatestCheckpoint(checkpoints: seq<Checkpoint>, taskID: Id): (r: Option<Checkpoint>)
    ensures r.Some? ==> r.value in checkpoints && r.value.taskID == taskID
  {
    LastWhereFinds(checkpoints, (c: Checkpoint) => c.taskID == taskID);
    LastWhere(checkpoints, (c: Checkpoint) => c.taskID == taskID)
  }

  function LatestPacket(packets: seq<Packet>, taskID: Id): (r: Option<Packet>)
    ensures r.Some? ==> r.value in packets && r.value.taskID == taskID
    ensures r.None? ==> forall p :: p in packets ==> p.taskID != taskID
  {
    LastWhereFinds(packets, (p: Packet) => p.taskID == taskID);
    LastWhere(packets, (p: Packet) => p.taskID == taskID)
  }

  function LatestLaunch(launches: seq<Launch>, handoffID: Id): (r: Option<Launch>)
    ensures r.Some? ==> r.value in launches && r.value.handoffID == handoffID
    ensures r.None? ==> forall l :: l in launches ==> l.handoffID != handoffID
  {
    LastWhereFinds(launches, (l: Launch) => l.handoffID == handoffID);
    LastWhere(launches, (l: Launch) => l.handoffID == handoffID)
  }

  function LatestAck(acks: seq<Ack>, handoffID: Id): (r: Option<Ack>)
    ensures r.Some? ==> r.value in acks && r.value.handoffID == handoffID
    ensures r.None? ==> forall a :: a in acks ==> a.handoffID != handoffID
  {
    LastWhereFinds(acks, (a: Ack) => a.handoffID == handoffID);
    LastWhere(acks, (a: Ack) => a.handoffID == handoffID)
  }

  function LatestFollowThrough(fts: seq<FollowThrough>, handoffID: Id): (r: Option<FollowThrough>)
    ensures r.Some? ==> r.value in fts && r.value.handoffID == handoffID
    ensures r.None? ==> forall f :: f in fts ==> f.handoffID != handoffID
  {
    LastWhereFinds(fts, (f: FollowThrough) => f.handoffID == handoffID);
    LastWhere(fts, (f: FollowThrough) => f.handoffID == handoffID)
  }

  function LatestResolution(resolutions: seq<Resolution>, handoffID: Id): (r: Option<Resolution>)
    ensures r.Some? ==> r.value in resolutions && r.value.handoffID == handoffID
    ensures r.None? ==> forall x :: x in resolutions ==> x.handoffID != handoffID
  {
    LastWhereFinds(resolutions, (x: Resolution) => x.handoffID == handoffID);
    LastWhere(resolutions, (x: Resolution) => x.handoffID == handoffID)
  }

  function LatestResolutionByTask(resolutions: seq<Resolution>, taskID: Id): (r: Option<Resolution>)
    ensures r.Some? ==> r.value in resolutions && r.value.taskID == taskID
  {
    LastWhereFinds(resolutions, (x: Resolution) => x.taskID == taskID);
    LastWhere(resolutions, (x: Resolution) => x.taskID == taskID)
  }

  function LatestAction(actions: seq<Action>, taskID: Id): (r: Option<Action>)
    ensures r.Some? ==> r.value in actions && r.value.taskID == taskID
  {
    LastWhereFinds(actions, (a: Action) => a.taskID == taskID);
    LastWhere(actions, (a: Action) => a.taskID == taskID)
  }

  /** The task's packets, newest first, at most `limit` of them. */
  function ListPackets(packets: seq<Packet>, taskID: Id, limit: nat): (r: seq<Packet>)
    ensures |r| <= limit
    ensures forall p :: p in r ==> p in packets && p.taskID == taskID
  {
    if packets == [] || limit == 0 then []
    else
      var last := packets[|packets| - 1];
      if last.taskID == taskID then [last] + ListPackets(packets[..|packets| - 1], taskID, limit - 1)
      else ListPackets(packets[..|packets| - 1], taskID, limit)
  }

  // ---- in-place updates ------------------------------------------------------------------

  /** UPDATE ... WHERE attempt_id = ?: the row with the record's id is overwritten in place. */
  function UpdateLaunch(launches: seq<Launch>, rec: Launch): (r: seq<Launch>)
    ensures |r| == |launches|
    ensures forall i :: 0 <= i < |r| ==>
      r[i] == if launches[i].attemptID == rec.attemptID then rec else launches[i]
  {
    seq(|launches|, i requires 0 <= i < |launches| =>
      if launches[i].attemptID == rec.attemptID then rec else launches[i])
  }

  function AcceptPacket(p: Packet, acceptedBy: Worker, notes: seq<string>, now: Time): Packet {
    p.(status := PacketAccepted, acceptedAt := Some(now), acceptedBy := acceptedBy,
       notes := p.notes + notes)
  }

  function UpdateAccepted(packets: seq<Packet>, handoffID: Id, acceptedBy: Worker,
                          notes: seq<string>, now: Time): (r: seq<Packet>)
    ensures |r| == |packets|
    ensures forall i :: 0 <= i < |r| ==>
      r[i] == if packets[i].handoffID == handoffID
              then AcceptPacket(packets[i], acceptedBy, notes, now) else packets[i]
  {
    seq(|packets|, i requires 0 <= i < |packets| =>
      if packets[i].handoffID == handoffID
      then AcceptPacket(packets[i], acceptedBy, notes, now) else packets[i])
  }
}
