/** The independent validator of the handoff records, continuity.go:373-704. It looks at the
    task's newest packet, that packet's newest launch, acknowledgment and follow-through, and
    the task's newest resolution. */
module ContinuityValidator {
  import opened Wrappers
  import opened Text
  import opened HandoffRecords

  datatype Violation = HandoffTaskMismatch | HandoffBriefMissing | HandoffCheckpointMissing
                     | HandoffCheckpointMismatch | HandoffAcceptedInvalid | LaunchInvalid
                     | AckInvalid | FollowThroughInvalid | ResolutionInvalid

  predicate Differ(a: Id, b: Id) {
    a != "" && b != "" && a != b
  }

  predicate BadCheckpoint(packet: Packet, cp: Checkpoint) {
    || (packet.isResumable && !cp.isResumable)
    || Differ(packet.briefID, cp.briefID)
    || Differ(packet.intentID, cp.intentID)
  }

  predicate BadAcceptance(packet: Packet) {
    if packet.status == PacketAccepted then packet.acceptedBy == Unset || packet.acceptedAt.None?
    else packet.acceptedBy != Unset || packet.acceptedAt.Some?
  }

  predicate BadLaunch(taskID: Id, packet: Packet, launch: Launch) {
    || launch.taskID != taskID
    || launch.handoffID != packet.handoffID
    || launch.targetWorker != packet.targetWorker
    || packet.status == PacketBlocked
    || (launch.status in {LaunchCompleted, LaunchFailed} && launch.endedAt == 0)
    || launch.status == OtherLaunchStatus
  }

  predicate BadAck(taskID: Id, packet: Packet, launch: Option<Launch>, ack: Option<Ack>) {
    || (launch.Some? && launch.value.status == LaunchCompleted && ack.None?)
    || (ack.Some? &&
        var a := ack.value;
        || a.taskID != taskID
        || a.handoffID != packet.handoffID
        || a.targetWorker != packet.targetWorker
        || packet.status == PacketBlocked
        || Blank(a.launchID)
        || (launch.Some? && launch.value.status == LaunchCompleted
            && !Blank(launch.value.launchID) && a.launchID != launch.value.launchID)
        || (launch.Some? && launch.value.status == LaunchFailed && !Blank(a.launchID)
            && (a.launchID == launch.value.launchID || launch.value.launchID == "")))
  }

  predicate BadFollowThrough(taskID: Id, packet: Packet, launch: Option<Launch>, f: FollowThrough) {
    || f.taskID != taskID
    || f.handoffID != packet.handoffID
    || f.targetWorker != packet.targetWorker
    || launch.None?
    || launch.value.status != LaunchCompleted
    || Blank(f.attemptID)
    || f.attemptID != launch.value.attemptID
    || (!Blank(f.launchID) && !Blank(launch.value.launchID) && f.launchID != launch.value.launchID)
  }

  predicate BadResolution(db: Db, taskID: Id, r: Resolution) {
    || r.taskID != taskID
    || (r.taskID == taskID &&
        var packet := GetPacket(db.packets, r.handoffID);
        || packet.None?
        || packet.value.taskID != r.taskID
        || packet.value.targetWorker != r.targetWorker)
    || (r.attemptID == "" && r.launchID != "")
    || (r.attemptID != "" &&
        var launch := GetLaunch(db.launches, r.attemptID);
        || launch.None?
        || launch.value.handoffID != r.handoffID
        || launch.value.taskID != r.taskID
        || Differ(r.launchID, launch.value.launchID))
  }

  /** What each violation code means for the newest records of the task. */
  predicate Flagged(v: Violation, db: Db, taskID: Id, packet: Packet) {
    var cp := GetCheckpoint(db.checkpoints, packet.checkpointID);
    var launch := LatestLaunch(db.launches, packet.handoffID);
    match v
    case HandoffTaskMismatch =>
      packet.taskID != taskID
      || (packet.checkpointID != "" && cp.Some? && cp.value.taskID != taskID)
    case HandoffBriefMissing => packet.briefID == "" || packet.briefID !in db.briefs
    case HandoffCheckpointMissing => packet.checkpointID == "" || cp.None?
    case HandoffCheckpointMismatch =>
      packet.checkpointID != "" && cp.Some? && BadCheckpoint(packet, cp.value)
    case HandoffAcceptedInvalid => BadAcceptance(packet)
    case LaunchInvalid => launch.Some? && BadLaunch(taskID, packet, launch.value)
    case AckInvalid => BadAck(taskID, packet, launch, LatestAck(db.acks, packet.handoffID))
    case FollowThroughInvalid =>
      var f := LatestFollowThrough(db.followThroughs, packet.handoffID);
      f.Some? && BadFollowThrough(taskID, packet, launch, f.value)
    case ResolutionInvalid =>
      var r := LatestResolutionByTask(db.resolutions, taskID);
      r.Some? && BadResolution(db, taskID, r.value)
  }

  /** The task's handoff records give the validator something to report. */
  predicate HasViolation(db: Db, taskID: Id) {
    var packet := LatestPacket(db.packets, taskID);
    packet.Some? && exists v: Violation :: Flagged(v, db, taskID, packet.value)
  }

  /** The validator, one growing list of violations as in the source; codes are listed once per
      failed check. */
  method ValidateHandoffContinuity(db: Db, taskID: Id) returns (violations: seq<Violation>)
    ensures LatestPacket(db.packets, taskID).None? ==> violations == []
    ensures LatestPacket(db.packets, taskID).Some? ==>
      forall v :: v in violations <==> Flagged(v, db, taskID, LatestPacket(db.packets, taskID).value)
    ensures violations == [] <==> !HasViolation(db, taskID)
  {
    violations := [];
    var latest := LatestPacket(db.packets, taskID);
    if latest.None? {
      return;
    }
    var packet := latest.value;
    violations := CheckPacket(db, taskID, packet);
    var launch := LatestLaunch(db.launches, packet.handoffID);
    if launch.Some? {
      var more := CheckLaunch(taskID, packet, launch.value);
      violations := violations + more;
    }
    var ackViolations := CheckAck(taskID, packet, launch, LatestAck(db.acks, packet.handoffID));
    violations := violations + ackViolations;
    var record := LatestFollowThrough(db.followThroughs, packet.handoffID);
    if record.Some? {
      var more := CheckFollowThrough(taskID, packet, launch, record.value);
      violations := violations + more;
    }
    var resolution := LatestResolutionByTask(db.resolutions, taskID);
    if resolution.Some? {
      var more := CheckResolution(db, taskID, resolution.value);
      violations := violations + more;
    }
    assert violations == [] ==> forall v: Violation :: !Flagged(v, db, taskID, packet);
    assert violations != [] ==> violations[0] in violations;
  }

  method CheckPacket(db: Db, taskID: Id, packet: Packet) returns (violations: seq<Violation>)
    ensures forall v :: v in violations <==>
      v in {HandoffTaskMismatch, HandoffBriefMissing, HandoffCheckpointMissing,
            HandoffCheckpointMismatch, HandoffAcceptedInvalid}
      && Flagged(v, db, taskID, packet)
  {
    violations := [];
    if packet.taskID != taskID {
      violations := violations + [HandoffTaskMismatch];
    }
    if packet.briefID == "" {
      violations := violations + [HandoffBriefMissing];
    } else if packet.briefID !in db.briefs {
      violations := violations + [HandoffBriefMissing];
    }
    if packet.checkpointID == "" {
      violations := violations + [HandoffCheckpointMissing];
    } else {
      var cp := GetCheckpoint(db.checkpoints, packet.checkpointID);
      if cp.None? {
        violations := violations + [HandoffCheckpointMissing];
      } else {
        var more := CheckCheckpoint(taskID, packet, cp.value);
        violations := violations + more;
      }
    }
    var acceptance := CheckAcceptance(packet);
    violations := violations + acceptance;
  }

  method CheckCheckpoint(taskID: Id, packet: Packet, cp: Checkpoint)
    returns (violations: seq<Violation>)
    ensures forall v :: v in violations <==>
      || (v == HandoffTaskMismatch && cp.taskID != taskID)
      || (v == HandoffCheckpointMismatch && BadCheckpoint(packet, cp))
  {
    violations := [];
    if cp.taskID != taskID {
      violations := violations + [HandoffTaskMismatch];
    }
    if packet.isResumable && !cp.isResumable {
      violations := violations + [HandoffCheckpointMismatch];
    }
    if Differ(packet.briefID, cp.briefID) {
      violations := violations + [HandoffCheckpointMismatch];
    }
    if Differ(packet.intentID, cp.intentID) {
      violations := violations + [HandoffCheckpointMismatch];
    }
  }

  method CheckAcceptance(packet: Packet) returns (violations: seq<Violation>)
    ensures forall v :: v in violations <==> v == HandoffAcceptedInvalid && BadAcceptance(packet)
  {
    violations := [];
    match packet.status {
      case PacketAccepted =>
        if packet.acceptedBy == Unset || packet.acceptedAt.None? {
          violations := [HandoffAcceptedInvalid];
        }
      case PacketCreated =>
        if packet.acceptedBy != Unset || packet.acceptedAt.Some? {
          violations := [HandoffAcceptedInvalid];
        }
      case PacketBlocked =>
        if packet.acceptedBy != Unset || packet.acceptedAt.Some? {
          violations := [HandoffAcceptedInvalid];
        }
    }
  }

  method CheckLaunch(taskID: Id, packet: Packet, launch: Launch) returns (violations: seq<Violation>)
    ensures forall v :: v in violations <==> v == LaunchInvalid && BadLaunch(taskID, packet, launch)
  {
    violations := [];
    if launch.taskID != taskID {
      violations := violations + [LaunchInvalid];
    }
    if launch.handoffID != packet.handoffID {
      violations := violations + [LaunchInvalid];
    }
    if launch.targetWorker != packet.targetWorker {
      violations := violations + [LaunchInvalid];
    }
    if packet.status == PacketBlocked {
      violations := violations + [LaunchInvalid];
    }
    match launch.status {
      case Requested =>
      case LaunchCompleted =>
        if launch.endedAt == 0 {
          violations := violations + [LaunchInvalid];
        }
      case LaunchFailed =>
        if launch.endedAt == 0 {
          violations := violations + [LaunchInvalid];
        }
      case OtherLaunchStatus =>
        violations := violations + [LaunchInvalid];
    }
  }

  method CheckAck(taskID: Id, packet: Packet, launch: Option<Launch>, ack: Option<Ack>)
    returns (violations: seq<Violation>)
    ensures forall v :: v in violations <==> v == AckInvalid && BadAck(taskID, packet, launch, ack)
  {
    violations := [];
    if launch.Some? && launch.value.status == LaunchCompleted && ack.None? {
      violations := violations + [AckInvalid];
    }
    if ack.Some? {
      var a := ack.value;
      if a.taskID != taskID {
        violations := violations + [AckInvalid];
      }
      if a.handoffID != packet.handoffID {
        violations := violations + [AckInvalid];
      }
      if a.targetWorker != packet.targetWorker {
        violations := violations + [AckInvalid];
      }
      if packet.status == PacketBlocked {
        violations := violations + [AckInvalid];
      }
      if Blank(a.launchID) {
        violations := violations + [AckInvalid];
      }
      if launch.Some? {
        match launch.value.status {
          case LaunchCompleted =>
            if !Blank(launch.value.launchID) && a.launchID != launch.value.launchID {
              violations := violations + [AckInvalid];
            }
          case LaunchFailed =>
            if !Blank(a.launchID)
              && (a.launchID == launch.value.launchID || launch.value.launchID == "")
            {
              violations := violations + [AckInvalid];
            }
          case _ =>
        }
      }
    }
  }

  method CheckFollowThrough(taskID: Id, packet: Packet, launch: Option<Launch>, f: FollowThrough)
    returns (violations: seq<Violation>)
    ensures forall v :: v in violations <==>
      v == FollowThroughInvalid && BadFollowThrough(taskID, packet, launch, f)
  {
    violations := [];
    if f.taskID != taskID {
      violations := violations + [FollowThroughInvalid];
    }
    if f.handoffID != packet.handoffID {
      violations := violations + [FollowThroughInvalid];
    }
    if f.targetWorker != packet.targetWorker {
      violations := violations + [FollowThroughInvalid];
    }
    if launch.None? {
      violations := violations + [FollowThroughInvalid];
    } else {
      if launch.value.status != LaunchCompleted {
        violations := violations + [FollowThroughInvalid];
      }
      if Blank(f.attemptID) {
        violations := violations + [FollowThroughInvalid];
      } else if f.attemptID != launch.value.attemptID {
        violations := violations + [FollowThroughInvalid];
      }
      if !Blank(f.launchID) && !Blank(launch.value.launchID)
        && f.launchID != launch.value.launchID
      {
        violations := violations + [FollowThroughInvalid];
      }
    }
  }

  method CheckResolution(db: Db, taskID: Id, r: Resolution) returns (violations: seq<Violation>)
    ensures forall v :: v in violations <==> v == ResolutionInvalid && BadResolution(db, taskID, r)
  {
    violations := [];
    if r.taskID != taskID {
      violations := violations + [ResolutionInvalid];
    } else {
      var packet := GetPacket(db.packets, r.handoffID);
      if packet.None? {
        violations := violations + [ResolutionInvalid];
      } else {
        if packet.value.taskID != r.taskID {
          violations := violations + [ResolutionInvalid];
        }
        if r.targetWorker != packet.value.targetWorker {
          violations := violations + [ResolutionInvalid];
        }
      }
    }
    if r.attemptID == "" {
      if r.launchID != "" {
        violations := violations + [ResolutionInvalid];
      }
    } else {
      var launch := GetLaunch(db.launches, r.attemptID);
      if launch.None? {
        violations := violations + [ResolutionInvalid];
      } else {
        if launch.value.handoffID != r.handoffID {
          violations := violations + [ResolutionInvalid];
        }
        if launch.value.taskID != r.taskID {
          violations := violations + [ResolutionInvalid];
        }
        if Differ(r.launchID, launch.value.launchID) {
          violations := violations + [ResolutionInvalid];
        }
      }
    }
  }
}
