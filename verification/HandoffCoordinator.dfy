/** The orchestrator's handoff operations as they run against the store: one object, its tables
    updated in place, the checks in the order the source makes them. */
module HandoffCoordinator {
  import opened Wrappers
  import opened Text
  import opened Tables
  import opened HandoffRecords
  import opened HandoffContinuity
  import opened ActiveBranch
  import opened ContinuityValidator
  import opened ContinueAssessment
  import opened HandoffInvariant
  import opened HandoffSteps

  /** What LaunchHandoff answers without calling the launcher, or the attempt to launch. */
  datatype LaunchReply =
    | LaunchError
    | Refused
    | AlreadyCompleted(launchID: Id)
    | CompletedWithoutAck
    | OutcomePending
    | Launchable(prepared: PreparedLaunch)

  /** The newest attempt of a packet says something about launching it again. */
  predicate Counts(packet: Packet, last: Option<Launch>) {
    && packet.targetWorker == Claude && packet.status != PacketBlocked && packet.isResumable
    && last.Some?
  }

  /** An attempt still without a known outcome answers that it is pending, a completed one its launch
      id, if it was acknowledged; nothing else answers so. */
  predicate AnswersEarlier(reply: LaunchReply, packet: Packet, last: Option<Launch>,
                           ack: Option<Ack>)
  {
    && (reply.OutcomePending? <==>
          Counts(packet, last) && last.value.status in {Requested, OtherLaunchStatus})
    && (reply.CompletedWithoutAck? <==>
          Counts(packet, last) && last.value.status == LaunchCompleted && ack.None?)
    && (reply.AlreadyCompleted? <==>
          Counts(packet, last) && last.value.status == LaunchCompleted && ack.Some?)
    && (reply.AlreadyCompleted? ==> reply.launchID == last.value.launchID)
  }

  class Coordinator {
    var capsules: map<Id, Capsule>
    var briefs: set<Id>
    var runs: seq<Run>
    var checkpoints: seq<Checkpoint>
    var packets: seq<Packet>
    var launches: seq<Launch>
    var acks: seq<Ack>
    var followThroughs: seq<FollowThrough>
    var resolutions: seq<Resolution>
    var actions: seq<Action>
    var receipts: seq<TransitionReceipt>

    function Store(): Db
      reads this
    {
      Db(capsules, briefs, runs, checkpoints, packets, launches, acks, followThroughs, resolutions,
         actions, receipts)
    }

    /** loadActiveClaudeHandoffBranch and the newest resolution: the first packet of the listing
        that is an accepted, unresolved Claude packet, with its newest records. */
    method LoadActiveBranch(taskID: Id) returns (r: BranchRecords)
      ensures r == RecordsOf(Store(), taskID)
    {
      var listed := ListPackets(packets, taskID, SCAN_LIMIT);
      var resolution := LatestResolutionByTask(resolutions, taskID);
      for i := 0 to |listed|
        invariant forall j :: 0 <= j < i ==> !Eligible(listed[j], resolutions)
      {
        var packet := listed[i];
        if packet.targetWorker != Claude || packet.status != PacketAccepted {
          continue;
        }
        if LatestResolution(resolutions, packet.handoffID).Some? {
          continue;
        }
        FirstEligibleIsFirst(listed, resolutions, i);
        return BranchRecords(Some(packet), LatestLaunch(launches, packet.handoffID),
                             LatestAck(acks, packet.handoffID),
                             LatestFollowThrough(followThroughs, packet.handoffID), resolution);
      }
      r := BranchRecords(None, None, None, None, resolution);
    }

    /** assessContinue, one early return per finding. */
    method AssessContinue(taskID: Id, obs: Observation) returns (a: Assessment)
      requires taskID in capsules
      ensures a == Assess(Store(), taskID, obs)
      ensures var issue := obs.otherIssues || HasViolation(Store(), taskID);
        var run := LatestRun(runs, taskID);
        var running := run.Some? && run.value.status == Running;
        var waiting := capsules[taskID].phase == AwaitingDecision;
        && (a.outcome == BlockedInconsistent <==> issue)
        && (a.outcome == StaleReconciled <==> !issue && running)
        && (a.outcome == BlockedDrift <==> !issue && !running && obs.drift == DriftMajor)
        && (a.outcome == NeedsDecision <==>
              !issue && !running && obs.drift != DriftMajor && (waiting || obs.drift == DriftMinor))
        && (a.outcome == Safe <==> !issue && !running && !waiting && obs.drift == DriftNone)
    {
      var capsule := capsules[taskID];
      var run := LatestRun(runs, taskID);
      var checkpoint := LatestCheckpoint(checkpoints, taskID);
      var action := LatestAction(actions, taskID);
      var branch := LoadActiveBranch(taskID);
      var violations := ValidateHandoffContinuity(Store(), taskID);
      if obs.otherIssues || violations != [] {
        return Assessment(taskID, BlockedInconsistent, DriftNone, capsule, run, checkpoint, branch,
                          action);
      }
      if run.Some? && run.value.status == Running {
        return Assessment(taskID, StaleReconciled, DriftNone, capsule, run, checkpoint, branch,
                          action);
      }
      if capsule.phase == AwaitingDecision {
        var outcome := NeedsDecision;
        if obs.drift == DriftMajor {
          outcome := BlockedDrift;
        }
        return Assessment(taskID, outcome, obs.drift, capsule, run, checkpoint, branch, action);
      }
      if obs.drift == DriftMajor {
        return Assessment(taskID, BlockedDrift, obs.drift, capsule, run, checkpoint, branch, action);
      }
      if obs.drift == DriftMinor {
        return Assessment(taskID, NeedsDecision, obs.drift, capsule, run, checkpoint, branch, action);
      }
      a := Assessment(taskID, Safe, DriftNone, capsule, run, checkpoint, branch, action);
    }

    /** CreateHandoff after its assessment. */
    method CreateHandoff(taskID: Id, req: CreateRequest, a: Assessment, packetID: Id,
                         checkpointID: Id) returns (result: CreateResult)
      modifies this`packets, this`checkpoints
      ensures (result, Store())
           == CreateHandoffOn(old(Store()), taskID, req, a, packetID, checkpointID)
    {
      var target := req.targetWorker;
      if target == Unset {
        target := Claude;
      }
      if target != Claude || taskID !in capsules {
        return CreateError;
      }
      if !HandoffSafe(briefs, a) {
        return CreateBlocked;
      }
      var capsule := capsules[taskID];
      if capsule.version != a.capsule.version {
        return CreateBlocked;
      }
      if capsule.briefID !in briefs {
        return CreateBlocked;
      }
      var latest := LatestPacket(packets, taskID);
      if latest.Some? && CanReusePacket(Store(), latest.value, capsule, a, target, req) {
        return CreateReused(latest.value);
      }
      var cp: Option<Checkpoint> := None;
      if a.latestCheckpoint.Some? {
        var latestCheckpoint := LatestCheckpoint(checkpoints, taskID);
        if latestCheckpoint.None? {
          return CreateError;
        }
        if latestCheckpoint.value.checkpointID == a.latestCheckpoint.value.checkpointID
          && ValidResumable(capsule, latestCheckpoint)
        {
          cp := latestCheckpoint;
        }
      }
      if cp.None? {
        cp := Some(HandoffCheckpoint(capsule, a.latestRun, checkpointID));
        checkpoints := checkpoints + [cp.value];
      }
      var packet := BuildPacket(capsule, cp.value, a.latestRun, target, req, packetID);
      packets := packets + [packet];
      result := CreateNew(packet);
    }

    method AcceptHandoff(taskID: Id, handoffID: Id, acceptor: Worker, notes: seq<string>, now: Time)
      returns (result: AcceptResult)
      modifies this`packets
      ensures (result, Store())
           == AcceptHandoffOn(old(Store()), taskID, handoffID, acceptor, notes, now)
    {
      var found := GetPacket(packets, handoffID);
      if found.None? {
        return AcceptError;
      }
      var packet := found.value;
      if packet.taskID != taskID {
        return AcceptError;
      }
      var acceptedBy := acceptor;
      if acceptedBy == Unset {
        acceptedBy := packet.targetWorker;
      }
      if packet.status == PacketAccepted {
        if packet.acceptedBy != Unset && acceptedBy != Unset && packet.acceptedBy != acceptedBy {
          return AcceptError;
        }
        return AlreadyAccepted;
      }
      if packet.status != PacketCreated || taskID !in capsules {
        return AcceptError;
      }
      packets := UpdateAccepted(packets, handoffID, acceptedBy, notes, now);
      result := NewlyAccepted;
    }

    /** tryReusePriorLaunchOutcome: an earlier attempt that settles the request. */
    method PriorLaunchOutcome(packet: Packet) returns (reply: Option<LaunchReply>)
      ensures var last := LatestLaunch(launches, packet.handoffID);
        && (reply.None? <==> !Counts(packet, last) || last.value.status == LaunchFailed)
        && (reply.Some? ==>
              && (reply.value.OutcomePending? || reply.value.CompletedWithoutAck?
                  || reply.value.AlreadyCompleted?)
              && AnswersEarlier(reply.value, packet, last, LatestAck(acks, packet.handoffID)))
    {
      var launch := LatestLaunch(launches, packet.handoffID);
      if launch.None? {
        return None;
      }
      match AssessLaunchControl(Some(packet), launch).state {
        case ControlCompleted =>
          if LatestAck(acks, packet.handoffID).None? {
            return Some(CompletedWithoutAck);
          }
          return Some(AlreadyCompleted(launch.value.launchID));
        case OutcomeUnknown => return Some(OutcomePending);
        case _ => return None;
      }
    }

    /** validateLaunchSafety, in the order of its checks. */
    method LaunchSafety(packet: Packet, a: Assessment) returns (safe: bool)
      ensures safe <==>
        var cp := GetCheckpoint(checkpoints, packet.checkpointID);
        && LatestResolution(resolutions, packet.handoffID).None?
        && a.outcome == Safe && !IsRunning(a.latestRun)
        && packet.isResumable
        && packet.briefID != "" && packet.briefID in briefs
        && packet.checkpointID != "" && cp.Some?
        && cp.value.taskID == a.taskID && cp.value.isResumable
        && (cp.value.briefID == "" || cp.value.briefID == packet.briefID)
    {
      if LatestResolution(resolutions, packet.handoffID).Some? {
        return false;
      }
      if a.outcome != Safe {
        return false;
      }
      if packet.briefID == "" || packet.checkpointID == "" || !packet.isResumable {
        return false;
      }
      var cp := GetCheckpoint(checkpoints, packet.checkpointID);
      if cp.None? {
        return false;
      }
      if cp.value.taskID != a.taskID || !cp.value.isResumable {
        return false;
      }
      if cp.value.briefID != "" && packet.briefID != cp.value.briefID {
        return false;
      }
      if a.latestRun.Some? && a.latestRun.value.status == Running {
        return false;
      }
      safe := packet.briefID in briefs;
    }

    /** The packet a launch request means; an empty id means the active branch. */
    method ResolveLaunchPacket(taskID: Id, handoffID: Id) returns (packet: Option<Packet>)
      ensures packet == LaunchPacket(Store(), taskID, handoffID)
    {
      if handoffID == "" {
        var branch := LoadActiveBranch(taskID);
        return branch.packet;
      }
      packet := GetPacket(packets, handoffID);
    }

    /** The second half of prepareHandoffLaunch, for a packet that passed the target checks. */
    method RequestLaunch(taskID: Id, packet: Packet, obs: Observation, attemptID: Id)
      returns (reply: LaunchReply)
      requires taskID in capsules && packet.taskID == taskID && packet.targetWorker == Claude
      requires packet.status != PacketBlocked
      modifies this`launches
      ensures LaunchPermitted(old(Store()), taskID, packet, Unset, obs) ==>
        && reply == Launchable(PreparedLaunch(taskID, packet.handoffID, attemptID))
        && launches == old(launches) + [RequestedLaunch(taskID, packet, attemptID)]
      ensures !LaunchPermitted(old(Store()), taskID, packet, Unset, obs) ==>
        !reply.Launchable? && reply != LaunchError && launches == old(launches)
      ensures AnswersEarlier(reply, packet, LatestLaunch(old(launches), packet.handoffID),
                             LatestAck(acks, packet.handoffID))
      ensures reply.AlreadyCompleted? ==>
        exists l, a :: l in launches && l.status == LaunchCompleted && l.launchID == reply.launchID
          && a in acks && a.handoffID == l.handoffID
      ensures reply == CompletedWithoutAck ==>
        exists l :: l in launches && l.status == LaunchCompleted && LatestAck(acks, l.handoffID).None?
    {
      var prior := PriorLaunchOutcome(packet);
      if prior.Some? {
        return prior.value;
      }
      var a := AssessContinue(taskID, obs);
      var safe := LaunchSafety(packet, a);
      if !safe {
        return Refused;
      }
      launches := launches + [RequestedLaunch(taskID, packet, attemptID)];
      reply := Launchable(PreparedLaunch(taskID, packet.handoffID, attemptID));
    }

    /** prepareHandoffLaunch: an attempt is written exactly when the launch is permitted, and it
        is the only thing written. A settled earlier attempt is reported, never repeated; a
        completed one without acknowledgment is met only outside the invariant. */
    method PrepareHandoffLaunch(taskID: Id, handoffID: Id, target: Worker, obs: Observation,
                                attemptID: Id) returns (reply: LaunchReply)
      modifies this`launches
      ensures var (r, after) :=
          PrepareLaunchOn(old(Store()), taskID, handoffID, target, obs, attemptID);
        && Store() == after
        && (reply == LaunchError <==> r == PrepareError)
        && (reply.Launchable? <==> r.Prepared?)
        && (reply.Launchable? ==>
              reply.prepared == PreparedLaunch(taskID, r.packet.handoffID, attemptID))
      ensures var found := if handoffID == "" then ActivePacket(old(Store()), taskID)
                           else GetPacket(packets, handoffID);
        if taskID in capsules && found.Some? && found.value.taskID == taskID
          && found.value.targetWorker == Claude && found.value.status != PacketBlocked
          && target in {Unset, Claude}
        then AnswersEarlier(reply, found.value, LatestLaunch(old(launches), found.value.handoffID),
                            LatestAck(acks, found.value.handoffID))
        else reply == LaunchError || reply == Refused
      ensures reply.AlreadyCompleted? ==>
        exists l, a :: l in launches && l.status == LaunchCompleted && l.launchID == reply.launchID
          && a in acks && a.handoffID == l.handoffID
      ensures reply == CompletedWithoutAck ==> !AcksOk(acks, launches)
    {
      if taskID !in capsules {
        return LaunchError;
      }
      var found := ResolveLaunchPacket(taskID, handoffID);
      if found.None? {
        return Refused;
      }
      var packet := found.value;
      if packet.taskID != taskID {
        return Refused;
      }
      if target != Unset && target != packet.targetWorker {
        return Refused;
      }
      if packet.targetWorker != Claude {
        return Refused;
      }
      if packet.status == PacketBlocked {
        return Refused;
      }
      reply := RequestLaunch(taskID, packet, obs, attemptID);
    }

    /** recordContinuityTransitionReceipt */
    method RecordTransition(before: Snapshot, after: Snapshot, receipt: TransitionReceipt)
      modifies this`receipts
      ensures Store() == WithReceipt(old(Store()), before, after, receipt)
    {
      if MaterialTransition(before, after) {
        receipts := receipts + [receipt];
      }
    }

    /** captureContinuityTransitionSnapshot */
    method CaptureSnapshot(taskID: Id) returns (snapshot: Snapshot)
      ensures snapshot == SnapshotAt(Store(), taskID)
    {
      var r := LoadActiveBranch(taskID);
      snapshot := Snapshot(BranchOf(taskID, r), ContinuityOf(r), ControlOf(r));
    }

    /** finalizeHandoffLaunch: the outcome of one REQUESTED attempt, its acknowledgment when the
        launcher succeeded, and the transition receipt. */
    method FinalizeHandoffLaunch(prepared: PreparedLaunch, out: LauncherOutput, ackID: Id,
                                 receiptID: Id) returns (result: Result<Launch>)
      modifies this`launches, this`acks, this`receipts
      ensures (result, Store())
           == FinalizeLaunchOn(old(Store()), prepared, out, ackID, receiptID)
    {
      if prepared.taskID !in capsules {
        return Err;
      }
      var before := CaptureSnapshot(prepared.taskID);
      var found := GetLaunch(launches, prepared.attemptID);
      if found.None? || found.value.status != Requested {
        return Err;
      }
      var record := found.value;
      record := record.(launchID := TrimSpace(out.launchID), endedAt := out.endedAt);
      if out.failed {
        record := record.(status := LaunchFailed);
        launches := UpdateLaunch(launches, record);
      } else {
        record := record.(status := LaunchCompleted);
        launches := UpdateLaunch(launches, record);
        acks := acks + [AckFor(prepared.taskID, prepared.handoffID, out, ackID)];
      }
      var after := CaptureSnapshot(prepared.taskID);
      RecordTransition(before, after,
                       TransitionReceipt(receiptID, prepared.taskID, HandoffLaunchTransition,
                                         prepared.attemptID, prepared.handoffID));
      result := Ok(record);
    }

    /** RecordHandoffFollowThrough; `pre` is what its first assessment saw. */
    method RecordFollowThrough(taskID: Id, pre: BranchRecords, kind: FollowThroughKind,
                               summary: string, recordID: Id)
      returns (result: FollowThroughResult)
      modifies this`followThroughs
      ensures (result, Store())
           == FollowThroughOn(old(Store()), taskID, pre, kind, summary, recordID)
    {
      if taskID !in capsules || !FollowThroughPosture(ContinuityOf(pre)) {
        return FollowThroughError;
      }
      if ReplayableFollowThrough(pre, kind, summary) {
        return FollowThroughReplayed(pre.followThrough.value);
      }
      var current := LoadActiveBranch(taskID);
      if !FollowThroughPosture(ContinuityOf(current)) {
        return FollowThroughError;
      }
      PostureHasLaunch(current);
      var record := FollowThroughRecord(current, taskID, kind, summary, recordID);
      followThroughs := followThroughs + [record];
      result := FollowThroughRecorded(record);
    }

    /** The transaction of RecordHandoffResolution, once its target is accepted. */
    method WriteResolution(taskID: Id, current: BranchRecords, kind: ResolutionKind,
                           summary: string, resolutionID: Id, receiptID: Id)
      returns (record: Resolution)
      requires current == RecordsOf(Store(), taskID) && current.packet.Some?
      modifies this`resolutions, this`receipts
      ensures record == ResolutionRecord(current, taskID, kind, summary, resolutionID)
      ensures var written := old(Store()).(resolutions := old(resolutions) + [record]);
        Store() == WithReceipt(written, SnapshotAt(old(Store()), taskID),
                               SnapshotAt(written, taskID),
                               TransitionReceipt(receiptID, taskID, HandoffResolutionTransition,
                                                 resolutionID, record.handoffID))
    {
      var before := CaptureSnapshot(taskID);
      record := Resolution(resolutionID, current.packet.value.handoffID, "", "", taskID, Claude,
                           kind, ResolutionSummary(kind, summary));
      if current.launch.Some? {
        record := record.(attemptID := current.launch.value.attemptID,
                          launchID := current.launch.value.launchID);
      }
      resolutions := resolutions + [record];
      var after := CaptureSnapshot(taskID);
      RecordTransition(before, after,
                       TransitionReceipt(receiptID, taskID, HandoffResolutionTransition,
                                         resolutionID, record.handoffID));
    }

    /** RecordHandoffResolution; `pre` is what its first assessment saw, `reply` the continuity it
        answers with. */
    method RecordResolution(taskID: Id, pre: BranchRecords, handoffID: Id, kind: ResolutionKind,
                            summary: string, resolutionID: Id, receiptID: Id)
      returns (result: ResolveResult, reply: Option<Continuity>)
      modifies this`resolutions, this`receipts
      ensures reply == match result
                       case ResolveError => None
                       case ResolveReplayed(_) => Some(ContinuityOf(pre))
                       case ResolveRecorded(record) =>
                         Some(RepliedContinuity(old(RecordsOf(Store(), taskID)), record))
      ensures (result, Store()) ==
        ResolveOn(old(Store()), taskID, pre, handoffID, kind, summary, resolutionID, receiptID)
    {
      if taskID !in capsules {
        return ResolveError, None;
      }
      if ReplayableResolution(pre, handoffID, kind, summary) {
        return ResolveReplayed(pre.resolution.value), Some(ContinuityOf(pre));
      }
      if pre.resolution.Some? && ContinuityOf(pre).handoffID == ""
        && (handoffID == "" || handoffID == pre.resolution.value.handoffID)
      {
        return ResolveError, None;
      }
      if !ResolutionTarget(ContinuityOf(pre), handoffID) {
        return ResolveError, None;
      }
      var current := LoadActiveBranch(taskID);
      if !ResolutionTarget(ContinuityOf(current), handoffID) {
        return ResolveError, None;
      }
      var record := WriteResolution(taskID, current, kind, summary, resolutionID, receiptID);
      result := ResolveRecorded(record);
      current := current.(resolution := Some(record));
      reply := Some(ContinuityOf(current));
    }
  }
}
