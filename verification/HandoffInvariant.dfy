/** What every transaction of the handoff protocol keeps true of the tables. */
module HandoffInvariant {
  import opened Wrappers
  import opened Text
  import opened Tables
  import opened HandoffRecords
  import opened HandoffContinuity
  import opened ActiveBranch
  import opened ContinuityValidator
  import opened ContinueAssessment

  // ---- the invariant --------------------------------------------------------------------------

  ghost predicate CheckpointsOk(checkpoints: seq<Checkpoint>) {
    && (forall c :: c in checkpoints ==> c.checkpointID != "")
    && (forall i, j :: 0 <= i < j < |checkpoints| ==>
          checkpoints[i].checkpointID != checkpoints[j].checkpointID)
  }

  /** The checkpoint a packet is anchored to. */
  predicate Anchors(c: Checkpoint, p: Packet) {
    && c.checkpointID == p.checkpointID
    && c.taskID == p.taskID
    && c.isResumable
    && c.briefID == p.briefID
    && !Differ(p.intentID, c.intentID)
  }

  ghost predicate PacketOk(p: Packet, briefs: set<Id>, checkpoints: seq<Checkpoint>) {
    && p.handoffID != ""
    && p.targetWorker == Claude
    && p.status != PacketBlocked
    && p.isResumable
    && !BadAcceptance(p)
    && p.briefID in briefs
    && exists c :: c in checkpoints && Anchors(c, p)
  }

  ghost predicate PacketsOk(packets: seq<Packet>, briefs: set<Id>, checkpoints: seq<Checkpoint>) {
    && (forall p :: p in packets ==> PacketOk(p, briefs, checkpoints))
    && (forall i, j :: 0 <= i < j < |packets| ==> packets[i].handoffID != packets[j].handoffID)
  }

  ghost predicate HasPacket(packets: seq<Packet>, handoffID: Id, taskID: Id) {
    exists p :: p in packets && p.handoffID == handoffID && p.taskID == taskID
  }

  ghost predicate LaunchOk(l: Launch, packets: seq<Packet>) {
    && !Blank(l.attemptID)
    && l.targetWorker == Claude
    && HasPacket(packets, l.handoffID, l.taskID)
    && l.status != OtherLaunchStatus
    && (l.status == Requested ==> l.launchID == "")
    && (l.status != Requested ==> l.endedAt != 0)
    && (l.status == LaunchCompleted ==> !Blank(l.launchID))
  }

  /** Attempt ids are unique, and of one handoff's attempts only the newest is not FAILED. */
  ghost predicate LaunchChain(launches: seq<Launch>) {
    && (forall i, j :: 0 <= i < j < |launches| ==> launches[i].attemptID != launches[j].attemptID)
    && (forall i, j :: 0 <= i < j < |launches| && launches[i].handoffID == launches[j].handoffID ==>
          launches[i].status == LaunchFailed)
  }

  ghost predicate LaunchesOk(launches: seq<Launch>, packets: seq<Packet>) {
    && (forall l :: l in launches ==> LaunchOk(l, packets))
    && LaunchChain(launches)
  }

  /** The launch an acknowledgment answers. */
  predicate Answers(a: Ack, l: Launch) {
    && l.status == LaunchCompleted
    && l.handoffID == a.handoffID && l.taskID == a.taskID && l.launchID == a.launchID
  }

  ghost predicate AcksOk(acks: seq<Ack>, launches: seq<Launch>) {
    && (forall a :: a in acks ==>
          a.targetWorker == Claude && exists l :: l in launches && Answers(a, l))
    && (forall l :: l in launches && l.status == LaunchCompleted ==>
          LatestAck(acks, l.handoffID).Some?)
  }

  predicate Follows(f: FollowThrough, l: Launch) {
    && l.status == LaunchCompleted
    && l.attemptID == f.attemptID && l.handoffID == f.handoffID
    && l.taskID == f.taskID && l.launchID == f.launchID
  }

  ghost predicate FollowThroughsOk(fts: seq<FollowThrough>, launches: seq<Launch>) {
    forall f :: f in fts ==>
      f.targetWorker == Claude && exists l :: l in launches && Follows(f, l)
  }

  predicate Closes(r: Resolution, l: Launch) {
    && l.attemptID == r.attemptID && l.handoffID == r.handoffID && l.taskID == r.taskID
    && (r.launchID == "" || r.launchID == l.launchID)
  }

  ghost predicate ResolutionOk(r: Resolution, packets: seq<Packet>, launches: seq<Launch>) {
    && r.targetWorker == Claude
    && HasPacket(packets, r.handoffID, r.taskID)
    && (r.attemptID == "" ==> r.launchID == "")
    && (r.attemptID != "" ==> exists l :: l in launches && Closes(r, l))
  }

  /** Each handoff is resolved at most once. */
  ghost predicate ResolvedOnce(resolutions: seq<Resolution>) {
    forall i, j :: 0 <= i < j < |resolutions| ==>
      resolutions[i].handoffID != resolutions[j].handoffID
  }

  ghost predicate ResolutionsOk(resolutions: seq<Resolution>, packets: seq<Packet>,
                                launches: seq<Launch>) {
    && (forall r :: r in resolutions ==> ResolutionOk(r, packets, launches))
    && ResolvedOnce(resolutions)
  }

  ghost predicate Inv(db: Db) {
    && "" !in db.briefs
    && (forall t :: t in db.capsules ==> db.capsules[t].taskID == t)
    && CheckpointsOk(db.checkpoints)
    && PacketsOk(db.packets, db.briefs, db.checkpoints)
    && LaunchesOk(db.launches, db.packets)
    && AcksOk(db.acks, db.launches)
    && FollowThroughsOk(db.followThroughs, db.launches)
    && ResolutionsOk(db.resolutions, db.packets, db.launches)
  }

  // ---- what the newest rows look like under the invariant -------------------------------------

  /** A launch that is not FAILED is its handoff's newest attempt. */
  lemma LatestIsTheUnfailed(launches: seq<Launch>, l: Launch)
    requires LaunchChain(launches) && l in launches && l.status != LaunchFailed
    ensures LatestLaunch(launches, l.handoffID) == Some(l)
  {
    var p := (x: Launch) => x.handoffID == l.handoffID;
    var i :| 0 <= i < |launches| && launches[i] == l;
    assert IsNewest(launches, p, i);
    LastWhereIs(launches, p, i);
  }

  lemma GetLaunchIs(launches: seq<Launch>, l: Launch)
    requires LaunchChain(launches) && l in launches
    ensures GetLaunch(launches, l.attemptID) == Some(l)
  {
    var i :| 0 <= i < |launches| && launches[i] == l;
    LastWhereIs(launches, (x: Launch) => x.attemptID == l.attemptID, i);
  }

  lemma GetPacketIs(packets: seq<Packet>, p: Packet)
    requires forall i, j :: 0 <= i < j < |packets| ==> packets[i].handoffID != packets[j].handoffID
    requires p in packets
    ensures GetPacket(packets, p.handoffID) == Some(p)
  {
    var i :| 0 <= i < |packets| && packets[i] == p;
    LastWhereIs(packets, (x: Packet) => x.handoffID == p.handoffID, i);
  }

  lemma GetCheckpointIs(checkpoints: seq<Checkpoint>, c: Checkpoint)
    requires CheckpointsOk(checkpoints) && c in checkpoints
    ensures GetCheckpoint(checkpoints, c.checkpointID) == Some(c)
  {
    var i :| 0 <= i < |checkpoints| && checkpoints[i] == c;
    LastWhereIs(checkpoints, (x: Checkpoint) => x.checkpointID == c.checkpointID, i);
  }

  /** In any invariant state the validator of continuity.go reports nothing about the handoff
      records of any task. */
  lemma NoViolations(db: Db, taskID: Id)
    requires Inv(db)
    ensures !HasViolation(db, taskID)
  {
    var latest := LatestPacket(db.packets, taskID);
    if latest.Some? {
      forall v: Violation ensures !Flagged(v, db, taskID, latest.value) {
        match v {
          case LaunchInvalid =>
            if LatestLaunch(db.launches, latest.value.handoffID).Some? {
              LaunchFine(db.launches, db.packets, latest.value);
            }
          case AckInvalid => AckFine(db.launches, db.packets, db.acks, latest.value);
          case FollowThroughInvalid =>
            if LatestFollowThrough(db.followThroughs, latest.value.handoffID).Some? {
              FollowThroughFine(db.launches, db.packets, db.followThroughs, latest.value);
            }
          case ResolutionInvalid => NoResolutionViolation(db, taskID, latest.value);
          case _ =>
            var c :| c in db.checkpoints && Anchors(c, latest.value);
            GetCheckpointIs(db.checkpoints, c);
        }
      }
    }
  }

  /** A handoff id names one packet, hence one task. */
  lemma TaskOfHandoff(packets: seq<Packet>, packet: Packet, taskID: Id)
    requires forall i, j :: 0 <= i < j < |packets| ==> packets[i].handoffID != packets[j].handoffID
    requires packet in packets && HasPacket(packets, packet.handoffID, taskID)
    ensures taskID == packet.taskID
  {
  }

  lemma LaunchFine(launches: seq<Launch>, packets: seq<Packet>, packet: Packet)
    requires LaunchesOk(launches, packets)
    requires forall i, j :: 0 <= i < j < |packets| ==> packets[i].handoffID != packets[j].handoffID
    requires packet in packets && packet.targetWorker == Claude && packet.status != PacketBlocked
    requires LatestLaunch(launches, packet.handoffID).Some?
    ensures !BadLaunch(packet.taskID, packet, LatestLaunch(launches, packet.handoffID).value)
  {
    var launch := LatestLaunch(launches, packet.handoffID).value;
    assert LaunchOk(launch, packets);
    TaskOfHandoff(packets, packet, launch.taskID);
  }

  lemma AckFine(launches: seq<Launch>, packets: seq<Packet>, acks: seq<Ack>, packet: Packet)
    requires LaunchesOk(launches, packets) && AcksOk(acks, launches)
    requires forall i, j :: 0 <= i < j < |packets| ==> packets[i].handoffID != packets[j].handoffID
    requires packet in packets && packet.targetWorker == Claude && packet.status != PacketBlocked
    ensures !BadAck(packet.taskID, packet, LatestLaunch(launches, packet.handoffID),
                    LatestAck(acks, packet.handoffID))
  {
    var launch := LatestLaunch(launches, packet.handoffID);
    var ack := LatestAck(acks, packet.handoffID);
    if ack.Some? {
      var l :| l in launches && Answers(ack.value, l);
      assert LaunchOk(l, packets);
      TaskOfHandoff(packets, packet, l.taskID);
      LatestIsTheUnfailed(launches, l);
    }
  }

  lemma FollowThroughFine(launches: seq<Launch>, packets: seq<Packet>, fts: seq<FollowThrough>,
                          packet: Packet)
    requires LaunchesOk(launches, packets) && FollowThroughsOk(fts, launches)
    requires forall i, j :: 0 <= i < j < |packets| ==> packets[i].handoffID != packets[j].handoffID
    requires packet in packets && packet.targetWorker == Claude
    requires LatestFollowThrough(fts, packet.handoffID).Some?
    ensures !BadFollowThrough(packet.taskID, packet, LatestLaunch(launches, packet.handoffID),
                              LatestFollowThrough(fts, packet.handoffID).value)
  {
    var f := LatestFollowThrough(fts, packet.handoffID).value;
    var l :| l in launches && Follows(f, l);
    assert LaunchOk(l, packets);
    TaskOfHandoff(packets, packet, l.taskID);
    LatestIsTheUnfailed(launches, l);
  }

  lemma NoResolutionViolation(db: Db, taskID: Id, packet: Packet)
    requires Inv(db)
    ensures !Flagged(ResolutionInvalid, db, taskID, packet)
  {
    var r := LatestResolutionByTask(db.resolutions, taskID);
    if r.Some? {
      var p :| p in db.packets && p.handoffID == r.value.handoffID && p.taskID == r.value.taskID;
      GetPacketIs(db.packets, p);
      if r.value.attemptID != "" {
        var l :| l in db.launches && Closes(r.value, l);
        GetLaunchIs(db.launches, l);
      }
    }
  }
}
