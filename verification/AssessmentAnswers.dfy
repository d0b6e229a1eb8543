/** What an assessment answers, said on the records it looks at: the validator's verdict, the
    outcome, the posture of a handoff and of its launch, the branch, and which transitions leave
    a receipt. */
module AssessmentAnswers {
  import opened Wrappers
  import opened Text
  import opened HandoffRecords
  import opened HandoffContinuity
  import opened ActiveBranch
  import opened ContinuityValidator
  import opened ContinueAssessment

  // ---- the validator --------------------------------------------------------------------------

  /** Two ids agree, or one of them is not given. */
  predicate Agree(a: Id, b: Id) {
    a == "" || b == "" || a == b
  }

  /** The newest packet names an existing brief and a checkpoint of its task that fits it, and its
      acceptance is complete or absent. */
  predicate PacketConsistent(db: Db, taskID: Id, p: Packet) {
    var cp := GetCheckpoint(db.checkpoints, p.checkpointID);
    && p.briefID != "" && p.briefID in db.briefs
    && p.checkpointID != "" && cp.Some? && cp.value.taskID == taskID
    && (p.isResumable ==> cp.value.isResumable)
    && Agree(p.briefID, cp.value.briefID) && Agree(p.intentID, cp.value.intentID)
    && (p.status == PacketAccepted ==> p.acceptedBy != Unset && p.acceptedAt.Some?)
    && (p.status != PacketAccepted ==> p.acceptedBy == Unset && p.acceptedAt.None?)
  }

  predicate LaunchConsistent(taskID: Id, p: Packet, l: Launch) {
    && l.taskID == taskID && l.targetWorker == p.targetWorker
    && p.status != PacketBlocked
    && (l.status == Requested
        || (l.status in {LaunchCompleted, LaunchFailed} && l.endedAt != 0))
  }

  /** An acknowledgment belongs to the newest launch: it names that launch if it completed, and
      another one if it failed. */
  predicate AckConsistent(taskID: Id, p: Packet, launch: Option<Launch>, a: Ack) {
    && a.taskID == taskID && a.targetWorker == p.targetWorker
    && p.status != PacketBlocked
    && !Blank(a.launchID)
    && (launch.Some? && launch.value.status == LaunchCompleted ==>
          Blank(launch.value.launchID) || a.launchID == launch.value.launchID)
    && (launch.Some? && launch.value.status == LaunchFailed ==>
          launch.value.launchID != "" && a.launchID != launch.value.launchID)
  }

  predicate FollowThroughConsistent(taskID: Id, p: Packet, launch: Option<Launch>, f: FollowThrough) {
    && f.taskID == taskID && f.targetWorker == p.targetWorker
    && launch.Some? && launch.value.status == LaunchCompleted
    && !Blank(f.attemptID) && f.attemptID == launch.value.attemptID
    && (Blank(f.launchID) || Blank(launch.value.launchID) || f.launchID == launch.value.launchID)
  }

  predicate ResolutionConsistent(db: Db, taskID: Id, r: Resolution) {
    var p := GetPacket(db.packets, r.handoffID);
    var l := GetLaunch(db.launches, r.attemptID);
    && p.Some? && p.value.taskID == taskID && p.value.targetWorker == r.targetWorker
    && (r.attemptID == "" ==> r.launchID == "")
    && (r.attemptID != "" ==>
          l.Some? && l.value.handoffID == r.handoffID && l.value.taskID == taskID
          && Agree(r.launchID, l.value.launchID))
  }

  /** The validator is silent exactly when the task has no packet, or its newest packet and the
      newest records about it fit together. */
  lemma SilentIff(db: Db, taskID: Id)
    ensures !HasViolation(db, taskID) <==>
      var packet := LatestPacket(db.packets, taskID);
      || packet.None?
      || (var p := packet.value;
          var l := LatestLaunch(db.launches, p.handoffID);
          var a := LatestAck(db.acks, p.handoffID);
          var f := LatestFollowThrough(db.followThroughs, p.handoffID);
          var r := LatestResolutionByTask(db.resolutions, taskID);
          && PacketConsistent(db, taskID, p)
          && (l.Some? ==> LaunchConsistent(taskID, p, l.value))
          && (l.Some? && l.value.status == LaunchCompleted ==> a.Some?)
          && (a.Some? ==> AckConsistent(taskID, p, l, a.value))
          && (f.Some? ==> FollowThroughConsistent(taskID, p, l, f.value))
          && (r.Some? ==> ResolutionConsistent(db, taskID, r.value)))
  {
    var packet := LatestPacket(db.packets, taskID);
    if packet.Some? {
      var p := packet.value;
      PacketSilentIff(db, taskID, p);
      RecordsSilentIff(db, taskID, p);
      if HasViolation(db, taskID) {
        var v :| Flagged(v, db, taskID, p);
        assert v in {HandoffTaskMismatch, HandoffBriefMissing, HandoffCheckpointMissing,
                     HandoffCheckpointMismatch, HandoffAcceptedInvalid, LaunchInvalid, AckInvalid,
                     FollowThroughInvalid, ResolutionInvalid};
      }
    }
  }

  lemma PacketSilentIff(db: Db, taskID: Id, p: Packet)
    requires p.taskID == taskID
    ensures PacketConsistent(db, taskID, p) <==>
      && !Flagged(HandoffTaskMismatch, db, taskID, p)
      && !Flagged(HandoffBriefMissing, db, taskID, p)
      && !Flagged(HandoffCheckpointMissing, db, taskID, p)
      && !Flagged(HandoffCheckpointMismatch, db, taskID, p)
      && !Flagged(HandoffAcceptedInvalid, db, taskID, p)
  {
  }

  lemma RecordsSilentIff(db: Db, taskID: Id, p: Packet)
    ensures var l := LatestLaunch(db.launches, p.handoffID);
      var a := LatestAck(db.acks, p.handoffID);
      var f := LatestFollowThrough(db.followThroughs, p.handoffID);
      var r := LatestResolutionByTask(db.resolutions, taskID);
      && (Flagged(LaunchInvalid, db, taskID, p) <==>
            l.Some? && !LaunchConsistent(taskID, p, l.value))
      && (Flagged(AckInvalid, db, taskID, p) <==>
            || (l.Some? && l.value.status == LaunchCompleted && a.None?)
            || (a.Some? && !AckConsistent(taskID, p, l, a.value)))
      && (Flagged(FollowThroughInvalid, db, taskID, p) <==>
            f.Some? && !FollowThroughConsistent(taskID, p, l, f.value))
      && (Flagged(ResolutionInvalid, db, taskID, p) <==>
            r.Some? && !ResolutionConsistent(db, taskID, r.value))
  {
  }

  // ---- the outcome ----------------------------------------------------------------------------

  /** Each outcome, on issues, the newest run, the phase and the drift. An inconsistency hides
      everything else, a running run hides phase and drift, and major drift hides the phase. */
  lemma OutcomeIff(db: Db, taskID: Id, obs: Observation)
    requires taskID in db.capsules
    ensures var o := Assess(db, taskID, obs).outcome;
      var issue := obs.otherIssues || HasViolation(db, taskID);
      var run := LatestRun(db.runs, taskID);
      var running := run.Some? && run.value.status == Running;
      var waiting := db.capsules[taskID].phase == AwaitingDecision;
      && (o == BlockedInconsistent <==> issue)
      && (o == StaleReconciled <==> !issue && running)
      && (o == BlockedDrift <==> !issue && !running && obs.drift == DriftMajor)
      && (o == NeedsDecision <==>
            !issue && !running && obs.drift != DriftMajor && (waiting || obs.drift == DriftMinor))
      && (o == Safe <==> !issue && !running && !waiting && obs.drift == DriftNone)
  {
  }

  /** What else an assessment holds: the task's newest rows, its capsule, and the drift unless an
      inconsistency or a running run kept the repository from being compared. */
  lemma AssessedRows(db: Db, taskID: Id, obs: Observation)
    requires taskID in db.capsules
    ensures var a := Assess(db, taskID, obs);
      && a.taskID == taskID && a.capsule == db.capsules[taskID]
      && a.latestRun == LatestRun(db.runs, taskID)
      && a.latestCheckpoint == LatestCheckpoint(db.checkpoints, taskID)
      && a.latestAction == LatestAction(db.actions, taskID)
      && (a.drift == if a.outcome == BlockedInconsistent || a.outcome == StaleReconciled
                     then DriftNone else obs.drift)
  {
  }

  /** The branch an assessment looks at: the active packet with the newest rows of that handoff,
      and the newest resolution of the task whatever its handoff. */
  lemma AssessedBranch(db: Db, taskID: Id, obs: Observation)
    requires taskID in db.capsules
    ensures var b := Assess(db, taskID, obs).branch;
      var active := ActivePacket(db, taskID);
      && b.packet == active
      && b.resolution == LatestResolutionByTask(db.resolutions, taskID)
      && (active.None? ==> b.launch.None? && b.ack.None? && b.followThrough.None?)
      && (active.Some? ==>
            && b.launch == LatestLaunch(db.launches, active.value.handoffID)
            && b.ack == LatestAck(db.acks, active.value.handoffID)
            && b.followThrough == LatestFollowThrough(db.followThroughs, active.value.handoffID))
  {
  }

  // ---- the active packet ----------------------------------------------------------------------

  /** The row at position i of the packets is an accepted Claude packet of the task without a
      resolution. */
  predicate OpenAt(db: Db, taskID: Id, i: nat)
    requires i < |db.packets|
  {
    var p := db.packets[i];
    && p.taskID == taskID && p.targetWorker == Claude && p.status == PacketAccepted
    && forall r :: r in db.resolutions ==> r.handoffID != p.handoffID
  }

  lemma {:induction false} NewerCountFalls(packets: seq<Packet>, taskID: Id, i: nat, j: nat)
    requires i <= j < |packets|
    ensures NewerCount(packets, taskID, j) <= NewerCount(packets, taskID, i)
    decreases |packets|
  {
    if j < |packets| - 1 {
      NewerCountFalls(packets[..|packets| - 1], taskID, i, j);
    }
  }

  /** The active packet is the last open one, if fewer than 12 packets of the task follow it. */
  lemma ActiveIs(db: Db, taskID: Id, i: nat)
    requires i < |db.packets| && OpenAt(db, taskID, i)
    requires forall j :: i < j < |db.packets| ==> !OpenAt(db, taskID, j)
    ensures ActivePacket(db, taskID)
         == if NewerCount(db.packets, taskID, i) < 12 then Some(db.packets[i]) else None
  {
    var list := ListPackets(db.packets, taskID, SCAN_LIMIT);
    var k := NewerCount(db.packets, taskID, i);
    forall m | 0 <= m < |list| && Eligible(list[m], db.resolutions) ensures m >= k {
      var j := ListPacketsSource(db.packets, taskID, SCAN_LIMIT, m);
      assert OpenAt(db, taskID, j);
      NewerCountFalls(db.packets, taskID, j, i);
    }
    ListPacketsPosition(db.packets, taskID, SCAN_LIMIT, i);
    if k < 12 {
      FirstEligibleIsFirst(list, db.resolutions, k);
    }
  }

  lemma NoneActive(db: Db, taskID: Id)
    requires forall i :: 0 <= i < |db.packets| ==> !OpenAt(db, taskID, i)
    ensures ActivePacket(db, taskID).None?
  {
    if ActivePacket(db, taskID).Some? {
      var p := ActivePacket(db, taskID).value;
      var i :| 0 <= i < |db.packets| && db.packets[i] == p;
      assert OpenAt(db, taskID, i);
    }
  }

  // ---- the posture of a handoff ---------------------------------------------------------------

  /** The launch of a handoff, on the packet and its newest attempt. */
  lemma ControlIff(packet: Option<Packet>, launch: Option<Launch>)
    ensures var c := AssessLaunchControl(packet, launch);
      var launchable := packet.Some? && packet.value.targetWorker == Claude
                        && packet.value.status != PacketBlocked && packet.value.isResumable;
      && (c.state == ControlNotApplicable <==> !launchable)
      && (c.state == NotRequested <==> launchable && launch.None?)
      && (c.state == ControlCompleted <==>
            launchable && launch.Some? && launch.value.status == LaunchCompleted)
      && (c.state == ControlFailed <==>
            launchable && launch.Some? && launch.value.status == LaunchFailed)
      && (c.retry == RetryNotApplicable <==> !launchable)
      && (c.retry == RetryAllowed <==>
            launchable && (launch.None? || launch.value.status == LaunchFailed))
      && c.handoffID == (if packet.Some? then packet.value.handoffID else "")
      && c.attemptID == (if launchable && launch.Some? then launch.value.attemptID else "")
      && c.launchID == (if launchable && launch.Some? then launch.value.launchID else "")
  {
  }

  /** The posture of an accepted, resumable Claude packet, on its newest records. A recognised
      follow-through of a completed, acknowledged launch comes before everything, a resolution of
      the handoff before the launch. */
  lemma PostureIff(p: Packet, launch: Option<Launch>, ack: Option<Ack>, ft: Option<FollowThrough>,
                   resolution: Option<Resolution>)
    requires p.targetWorker == Claude && p.status == PacketAccepted && p.isResumable
    ensures var s := AssessHandoffContinuity(Some(p), launch, ack, ft, resolution).state;
      var done := launch.Some? && launch.value.status == LaunchCompleted;
      var followed := done && ack.Some? && ft.Some?;
      var open := !(followed && ft.value.kind != OtherFollowThrough)
                  && (resolution.None? || resolution.value.handoffID != p.handoffID);
      && (s == FollowedProofOfLife <==> followed && ft.value.kind == ProofOfLife)
      && (s == FollowedConfirmed <==> followed && ft.value.kind == ContinuationConfirmed)
      && (s == FollowedUnknown <==> followed && ft.value.kind == ContinuationUnknown)
      && (s == FollowedStalled <==> followed && ft.value.kind == StalledReview)
      && (s == AcceptedNotLaunched <==> open && launch.None?)
      && (s == PendingOutcome <==>
            open && launch.Some? && launch.value.status in {Requested, OtherLaunchStatus})
      && (s == FailedRetryable <==> open && launch.Some? && launch.value.status == LaunchFailed)
      && (s == AckLost <==> open && done && ack.None?)
      && (s == AckSeen <==> open && done && ack.Some? && ack.value.status == AckCaptured)
      && (s == AckEmpty <==> open && done && ack.Some? && ack.value.status == AckUnavailable)
  {
  }

  /** The ids a posture reports: the handoff's, its newest attempt's, and the resolution's only if
      it is about this handoff. */
  lemma PostureIds(packet: Option<Packet>, launch: Option<Launch>, ack: Option<Ack>,
                   ft: Option<FollowThrough>, resolution: Option<Resolution>)
    ensures var c := AssessHandoffContinuity(packet, launch, ack, ft, resolution);
      var live := packet.Some? && packet.value.targetWorker == Claude
                  && packet.value.status == PacketAccepted && packet.value.isResumable;
      && c.handoffID == (if packet.Some? then packet.value.handoffID else "")
      && c.targetWorker == (if packet.Some? then packet.value.targetWorker else Unset)
      && c.attemptID == (if live && launch.Some? then launch.value.attemptID else "")
      && c.launchID == (if live && launch.Some? then launch.value.launchID else "")
      && c.resolutionID == (if live && resolution.Some?
                               && resolution.value.handoffID == packet.value.handoffID
                            then resolution.value.resolutionID else "")
  {
  }

  // ---- the branch and its transitions ---------------------------------------------------------

  /** An active packet makes the task a Claude branch, named by its handoff, whatever its posture if
      the handoff has an id; otherwise the branch is the task's own. */
  lemma BranchIff(taskID: Id, r: BranchRecords)
    ensures BranchOf(taskID, r).owner.ClaudeBranch? <==>
      r.packet.Some? && (r.packet.value.handoffID != ""
                         || (ContinuityOf(r).state != NotApplicable
                             && ContinuityOf(r).state != Resolved))
    ensures BranchOf(taskID, r).ref
         == if BranchOf(taskID, r).owner.ClaudeBranch? then r.packet.value.handoffID else taskID
  {
    PostureIds(r.packet, r.launch, r.ack, r.followThrough, r.resolution);
  }

  /** A transition is immaterial exactly when the snapshots before and after agree on everything
      but the target worker, the proof of continuation, the retry disposition and the handoff the
      launch control names. */
  lemma ImmaterialIff(before: Snapshot, after: Snapshot)
    ensures !MaterialTransition(before, after) <==>
      after == before.(continuity := before.continuity.(
                         targetWorker := after.continuity.targetWorker,
                         downstreamProven := after.continuity.downstreamProven),
                       control := before.control.(handoffID := after.control.handoffID,
                                                  retry := after.control.retry))
  {
  }
}
