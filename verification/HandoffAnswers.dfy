/** When each transaction of the handoff protocol accepts a request, and the rows it then writes,
    said on the request, the assessment it acts on and the rows of the tables. */
module HandoffAnswers {
  import opened Wrappers
  import opened Text
  import opened HandoffRecords
  import opened HandoffContinuity
  import opened ActiveBranch
  import opened ContinuityValidator
  import opened ContinueAssessment
  import opened HandoffSteps
  import opened AssessmentAnswers

  // ---- create ---------------------------------------------------------------------------------

  /** A checkpoint from which the capsule, as it is, can be handed over. */
  predicate Fits(capsule: Capsule, cp: Option<Checkpoint>) {
    && cp.Some? && cp.value.isResumable
    && cp.value.taskID == capsule.taskID
    && cp.value.briefID != "" && cp.value.briefID == capsule.briefID
    && Agree(cp.value.intentID, capsule.intentID)
    && cp.value.phase == capsule.phase
  }

  /** An assessment allows a handoff: with a fitting checkpoint also while a decision is pending,
      without one only where a checkpoint may be taken. */
  predicate Allows(briefs: set<Id>, a: Assessment) {
    && a.drift != DriftMajor
    && !(a.latestRun.Some? && a.latestRun.value.status == Running)
    && a.capsule.phase != Executing
    && a.capsule.briefID != "" && a.capsule.briefID in briefs
    && (if Fits(a.capsule, a.latestCheckpoint)
        then a.outcome in {Safe, BlockedDrift, NeedsDecision}
        else a.outcome == Safe && a.capsule.phase != AwaitingDecision && a.capsule.phase != Blocked)
  }

  /** The packet is what the request would create now, and the assessment does not know it as
      resolved. */
  predicate RepeatsRequest(db: Db, p: Packet, capsule: Capsule, a: Assessment, req: CreateRequest) {
    var cp := GetCheckpoint(db.checkpoints, p.checkpointID);
    && p.status != PacketBlocked
    && (a.branch.resolution.None? || a.branch.resolution.value.handoffID != p.handoffID)
    && p.taskID == capsule.taskID && p.targetWorker == Claude
    && (p.mode == req.mode || (p.mode == Resume && req.mode == OtherMode))
    && (p.mode == OtherMode ==> req.mode != OtherMode)
    && TrimSpace(p.reason) == TrimSpace(req.reason) && p.notes == req.notes
    && p.briefID == capsule.briefID && p.intentID == capsule.intentID
    && p.phase == capsule.phase && p.capsuleVersion == capsule.version
    && (a.latestRun.Some? ==> p.latestRunID == a.latestRun.value.runID
                              && p.latestRunStatus == a.latestRun.value.status)
    && (a.latestRun.None? ==> p.latestRunID == "" && p.latestRunStatus == RunUnset)
    && Fits(capsule, cp) && cp.value.anchor == p.anchor
  }

  lemma AllowsIff(briefs: set<Id>, a: Assessment)
    ensures HandoffSafe(briefs, a) <==> Allows(briefs, a)
  {
  }

  lemma RepeatsIff(db: Db, p: Packet, capsule: Capsule, a: Assessment, req: CreateRequest)
    ensures CanReusePacket(db, p, capsule, a, Claude, req)
       <==> RepeatsRequest(db, p, capsule, a, req)
  {
  }

  /** A request for another worker or an unknown task is an error; an assessment that does not
      allow a handoff, or that the capsule has outrun, blocks it; the newest packet is answered
      again if it repeats the request; otherwise a packet is created, unless the checkpoint that
      was assessed is gone. */
  lemma CreateIff(db: Db, taskID: Id, req: CreateRequest, a: Assessment, packetID: Id,
                  checkpointID: Id)
    ensures var r := CreateHandoffOn(db, taskID, req, a, packetID, checkpointID).0;
      var known := req.targetWorker in {Unset, Claude} && taskID in db.capsules;
      var allowed := known && Allows(db.briefs, a)
                     && db.capsules[taskID].version == a.capsule.version
                     && db.capsules[taskID].briefID in db.briefs;
      var latest := LatestPacket(db.packets, taskID);
      var repeated := allowed && latest.Some?
                      && RepeatsRequest(db, latest.value, db.capsules[taskID], a, req);
      var lost := a.latestCheckpoint.Some? && LatestCheckpoint(db.checkpoints, taskID).None?;
      && (r.CreateError? <==> !known || (allowed && !repeated && lost))
      && (r.CreateBlocked? <==> known && !allowed)
      && (r.CreateReused? <==> repeated)
      && (r.CreateReused? ==> r.packet == latest.value)
      && (r.CreateNew? <==> allowed && !repeated && !lost)
  {
    AllowsIff(db.briefs, a);
    var latest := LatestPacket(db.packets, taskID);
    if taskID in db.capsules && latest.Some? {
      RepeatsIff(db, latest.value, db.capsules[taskID], a, req);
    }
  }

  /** The packet a create writes: the request and the capsule as they are, the run as it was
      assessed, and nothing accepted yet. It hangs on the task's newest checkpoint, if that is
      still the assessed one and fits, or on a checkpoint written with it. */
  lemma CreatedRows(db: Db, taskID: Id, req: CreateRequest, a: Assessment, packetID: Id,
                    checkpointID: Id)
    requires CreateHandoffOn(db, taskID, req, a, packetID, checkpointID).0.CreateNew?
    ensures var (r, after) := CreateHandoffOn(db, taskID, req, a, packetID, checkpointID);
      var (p, capsule) := (r.packet, db.capsules[taskID]);
      && after == db.(packets := db.packets + [p], checkpoints := after.checkpoints)
      && p.handoffID == packetID && p.taskID == capsule.taskID
      && p.status == PacketCreated && p.targetWorker == Claude
      && p.mode == (if req.mode == OtherMode then Resume else req.mode)
      && p.reason == TrimSpace(req.reason) && p.notes == req.notes
      && p.phase == capsule.phase && p.briefID == capsule.briefID
      && p.intentID == capsule.intentID && p.capsuleVersion == capsule.version
      && p.isResumable && p.acceptedAt.None? && p.acceptedBy == Unset
      && (a.latestRun.Some? ==> p.latestRunID == a.latestRun.value.runID
                                && p.latestRunStatus == a.latestRun.value.status)
      && (a.latestRun.None? ==> p.latestRunID == "" && p.latestRunStatus == RunUnset)
    ensures var (r, after) := CreateHandoffOn(db, taskID, req, a, packetID, checkpointID);
      var (p, capsule) := (r.packet, db.capsules[taskID]);
      var newest := LatestCheckpoint(db.checkpoints, taskID);
      if newest.Some? && a.latestCheckpoint.Some? && Fits(capsule, newest)
        && newest.value.checkpointID == a.latestCheckpoint.value.checkpointID
      then
        && after.checkpoints == db.checkpoints
        && p.checkpointID == newest.value.checkpointID && p.anchor == newest.value.anchor
      else
        && p.checkpointID == checkpointID && p.anchor == capsule.anchor
        && after.checkpoints == db.checkpoints + [
             Checkpoint(checkpointID, capsule.taskID, p.latestRunID, capsule.phase, capsule.anchor,
                        capsule.intentID, capsule.briefID, true)]
  {
    assert ReusedCheckpoint(db, taskID, db.capsules[taskID], a).Some? ==>
        ReusedCheckpoint(db, taskID, db.capsules[taskID], a).value.isResumable;
  }

  // ---- accept ---------------------------------------------------------------------------------

  /** A created packet of a known task is accepted; an accepted one is confirmed, unless another
      worker accepted it. An unnamed acceptor stands for the packet's target. */
  lemma AcceptIff(db: Db, taskID: Id, handoffID: Id, acceptor: Worker, notes: seq<string>, now: Time)
    ensures var r := AcceptHandoffOn(db, taskID, handoffID, acceptor, notes, now).0;
      var p := GetPacket(db.packets, handoffID);
      var own := p.Some? && p.value.taskID == taskID;
      var acceptedBy := if p.Some? && acceptor == Unset then p.value.targetWorker else acceptor;
      && (r == NewlyAccepted <==> own && p.value.status == PacketCreated && taskID in db.capsules)
      && (r == AlreadyAccepted <==>
            own && p.value.status == PacketAccepted
            && (p.value.acceptedBy == Unset || acceptedBy == Unset || p.value.acceptedBy == acceptedBy))
  {
  }

  /** What an acceptance writes: status, time, acceptor and the added notes of that packet. */
  lemma AcceptedRow(db: Db, taskID: Id, handoffID: Id, acceptor: Worker, notes: seq<string>,
                    now: Time)
    ensures var (r, after) := AcceptHandoffOn(db, taskID, handoffID, acceptor, notes, now);
      && after == db.(packets := after.packets)
      && (r != NewlyAccepted ==> after == db)
      && |after.packets| == |db.packets|
      && forall i :: 0 <= i < |db.packets| ==>
           var (before, p) := (db.packets[i], after.packets[i]);
           if r == NewlyAccepted && before.handoffID == handoffID then
             && p.status == PacketAccepted && p.acceptedAt == Some(now)
             && (acceptor != Unset ==> p.acceptedBy == acceptor)
             && (acceptor == Unset ==>
                   p.acceptedBy == GetPacket(db.packets, handoffID).value.targetWorker)
             && p == before.(status := p.status, acceptedAt := p.acceptedAt,
                             acceptedBy := p.acceptedBy, notes := before.notes + notes)
           else p == before
  {
  }

  // ---- prepare launch -------------------------------------------------------------------------

  /** When an attempt may be launched, on the rows alone. */
  lemma PreparedIff(db: Db, taskID: Id, handoffID: Id, target: Worker, obs: Observation,
                    attemptID: Id)
    ensures PrepareLaunchOn(db, taskID, handoffID, target, obs, attemptID).0.Prepared? <==>
      && taskID in db.capsules
      && (var packet := if handoffID == "" then ActivePacket(db, taskID)
                        else GetPacket(db.packets, handoffID);
          && packet.Some?
          && var p := packet.value;
             var newest := LatestLaunch(db.launches, p.handoffID);
             var run := LatestRun(db.runs, taskID);
             var cp := GetCheckpoint(db.checkpoints, p.checkpointID);
             && p.taskID == taskID && p.targetWorker == Claude && target in {Unset, Claude}
             && p.status != PacketBlocked && p.isResumable
             && (newest.None? || newest.value.status == LaunchFailed)
             && (forall r :: r in db.resolutions ==> r.handoffID != p.handoffID)
             && !obs.otherIssues && !HasViolation(db, taskID)
             && (run.None? || run.value.status != Running)
             && db.capsules[taskID].phase != AwaitingDecision
             && obs.drift == DriftNone
             && p.briefID != "" && p.briefID in db.briefs
             && p.checkpointID != "" && cp.Some?
             && cp.value.taskID == taskID && cp.value.isResumable
             && (cp.value.briefID == "" || cp.value.briefID == p.briefID))
  {
    if taskID in db.capsules {
      OutcomeIff(db, taskID, obs);
    }
  }

  /** A permitted launch writes one attempt of that packet, REQUESTED and without a launch id. */
  lemma PreparedRow(db: Db, taskID: Id, handoffID: Id, target: Worker, obs: Observation,
                    attemptID: Id)
    ensures var (r, after) := PrepareLaunchOn(db, taskID, handoffID, target, obs, attemptID);
      && (r == PrepareError <==> taskID !in db.capsules)
      && (!r.Prepared? ==> after == db)
      && (r.Prepared? ==>
            && after == db.(launches := db.launches + [r.launch])
            && (handoffID != "" ==> r.packet.handoffID == handoffID)
            && (handoffID == "" ==> ActivePacket(db, taskID) == Some(r.packet))
            && r.launch.attemptID == attemptID && r.launch.handoffID == r.packet.handoffID
            && r.launch.taskID == taskID && r.launch.targetWorker == r.packet.targetWorker
            && r.launch.status == Requested && r.launch.launchID == "" && r.launch.endedAt == 0)
  {
  }

  // ---- finalize launch ------------------------------------------------------------------------

  /** The outcome of a recorded attempt is written once, while it is REQUESTED. A success is
      acknowledged, with text or without; only a material transition leaves a receipt. */
  lemma FinalizedRows(db: Db, prepared: PreparedLaunch, out: LauncherOutput, ackID: Id,
                      receiptID: Id)
    ensures var (r, after) := FinalizeLaunchOn(db, prepared, out, ackID, receiptID);
      var found := GetLaunch(db.launches, prepared.attemptID);
      && (r.Ok? <==> prepared.taskID in db.capsules && found.Some?
                     && found.value.status == Requested)
      && (r.Err? ==> after == db)
      && (r.Ok? ==>
            && after == db.(launches := after.launches, acks := after.acks,
                            receipts := after.receipts)
            && r.value == found.value.(
                 status := if out.failed then LaunchFailed else LaunchCompleted,
                 launchID := TrimSpace(out.launchID), endedAt := out.endedAt)
            && |after.launches| == |db.launches|
            && (forall i :: 0 <= i < |db.launches| ==>
                  after.launches[i] == if db.launches[i].attemptID == prepared.attemptID
                                       then r.value else db.launches[i])
            && (out.failed ==> after.acks == db.acks)
            && (!out.failed ==>
                  after.acks == db.acks + [
                    Ack(ackID, prepared.handoffID, TrimSpace(out.launchID), prepared.taskID, Claude,
                        if Blank(out.summary) && Blank(out.stdout)
                        then AckUnavailable else AckCaptured)]))
  {
  }

  /** The receipt of an outcome names the attempt and its handoff. */
  lemma FinalizedReceipt(db: Db, prepared: PreparedLaunch, out: LauncherOutput, ackID: Id,
                         receiptID: Id)
    ensures var after := FinalizeLaunchOn(db, prepared, out, ackID, receiptID).1;
      || after.receipts == db.receipts
      || after.receipts == db.receipts + [
           TransitionReceipt(receiptID, prepared.taskID, HandoffLaunchTransition,
                             prepared.attemptID, prepared.handoffID)]
  {
  }

  // ---- follow-through -------------------------------------------------------------------------

  /** The branch was launched and acknowledged, whatever followed. */
  predicate Launched(r: BranchRecords) {
    var s := ContinuityOf(r).state;
    || s == AckSeen || s == AckEmpty
    || s == FollowedProofOfLife || s == FollowedConfirmed || s == FollowedUnknown
    || s == FollowedStalled
  }

  /** A follow-through is recorded for a branch that is launched and acknowledged, when assessed
      and when recorded. The newest record is answered again if it is about the same attempt, of
      the same kind, and the request names no other summary. */
  lemma FollowThroughIff(db: Db, taskID: Id, pre: BranchRecords, kind: FollowThroughKind,
                         summary: string, recordID: Id)
    ensures var r := FollowThroughOn(db, taskID, pre, kind, summary, recordID).0;
      var ready := taskID in db.capsules && Launched(pre);
      var newest := pre.followThrough;
      var repeated := ready && newest.Some? && newest.value.kind == kind
                      && pre.packet.Some? && newest.value.handoffID == pre.packet.value.handoffID
                      && pre.launch.Some? && newest.value.attemptID == pre.launch.value.attemptID
                      && (Blank(summary) || TrimSpace(summary) == TrimSpace(newest.value.summary));
      && (r.FollowThroughReplayed? <==> repeated)
      && (r.FollowThroughReplayed? ==> r.record == newest.value)
      && (r.FollowThroughRecorded? <==> ready && !repeated && Launched(RecordsOf(db, taskID)))
  {
    LaunchedIff(pre);
    LaunchedIff(RecordsOf(db, taskID));
    if Launched(pre) {
      FollowThroughRepeatedIff(pre, kind, summary);
    }
  }

  lemma LaunchedIff(r: BranchRecords)
    ensures FollowThroughPosture(ContinuityOf(r)) <==> Launched(r)
    ensures Launched(r) ==> r.packet.Some? && r.launch.Some?
    ensures Launched(r) ==> ContinuityOf(r).handoffID == r.packet.value.handoffID
                            && ContinuityOf(r).attemptID == r.launch.value.attemptID
  {
    NotApplicableIff(r.packet, r.launch, r.ack, r.followThrough, r.resolution);
    PostureIds(r.packet, r.launch, r.ack, r.followThrough, r.resolution);
    if FollowThroughPosture(ContinuityOf(r)) {
      PostureHasLaunch(r);
    }
    if Launched(r) {
      assert r.launch.Some?;
    }
  }

  lemma FollowThroughRepeatedIff(r: BranchRecords, kind: FollowThroughKind, summary: string)
    requires Launched(r)
    ensures r.packet.Some? && r.launch.Some?
    ensures var newest := r.followThrough;
      ReplayableFollowThrough(r, kind, summary) <==>
        && newest.Some? && newest.value.kind == kind
        && newest.value.handoffID == r.packet.value.handoffID
        && newest.value.attemptID == r.launch.value.attemptID
        && (Blank(summary) || TrimSpace(summary) == TrimSpace(newest.value.summary))
  {
    LaunchedIff(r);
  }

  /** The record names the active packet and its newest launch; it is the one row written. */
  lemma FollowThroughRow(db: Db, taskID: Id, pre: BranchRecords, kind: FollowThroughKind,
                         summary: string, recordID: Id)
    ensures var (r, after) := FollowThroughOn(db, taskID, pre, kind, summary, recordID);
      && (!r.FollowThroughRecorded? ==> after == db)
      && (r.FollowThroughRecorded? ==>
            var now := RecordsOf(db, taskID);
            && after == db.(followThroughs := db.followThroughs + [r.record])
            && now.packet.Some? && now.launch.Some?
            && r.record.recordID == recordID && r.record.taskID == taskID
            && r.record.handoffID == now.packet.value.handoffID
            && r.record.attemptID == now.launch.value.attemptID
            && r.record.launchID == now.launch.value.launchID
            && r.record.targetWorker == Claude && r.record.kind == kind
            && (!Blank(summary) ==> r.record.summary == TrimSpace(summary)))
  {
  }

  // ---- resolution -----------------------------------------------------------------------------

  /** The branch is open, and the request means it. */
  predicate Resolvable(r: BranchRecords, handoffID: Id) {
    && r.packet.Some? && r.packet.value.handoffID != ""
    && ContinuityOf(r).state != NotApplicable && ContinuityOf(r).state != Resolved
    && (handoffID == "" || handoffID == r.packet.value.handoffID)
  }

  /** Without an active branch, the newest resolution is answered again if it is the requested one
      and the request names no other summary. Otherwise the branch must be resolvable, when
      assessed and when recorded. */
  lemma ResolveIff(db: Db, taskID: Id, pre: BranchRecords, handoffID: Id, kind: ResolutionKind,
                   summary: string, resolutionID: Id, receiptID: Id)
    ensures
      var r := ResolveOn(db, taskID, pre, handoffID, kind, summary, resolutionID, receiptID).0;
      var newest := pre.resolution;
      var repeated := taskID in db.capsules && newest.Some?
                      && (pre.packet.None? || pre.packet.value.handoffID == "")
                      && (handoffID == "" || handoffID == newest.value.handoffID)
                      && newest.value.kind == kind
                      && (Blank(summary) || TrimSpace(summary) == TrimSpace(newest.value.summary));
      && (r.ResolveReplayed? <==> repeated)
      && (r.ResolveReplayed? ==> r.record == newest.value)
      && (r.ResolveRecorded? <==>
            taskID in db.capsules && !repeated
            && Resolvable(pre, handoffID) && Resolvable(RecordsOf(db, taskID), handoffID))
  {
    var now := RecordsOf(db, taskID);
    PostureIds(pre.packet, pre.launch, pre.ack, pre.followThrough, pre.resolution);
    ResolvableIff(pre, handoffID);
    ResolvableIff(now, handoffID);
  }

  lemma ResolvableIff(r: BranchRecords, handoffID: Id)
    ensures ResolutionTarget(ContinuityOf(r), handoffID) <==> Resolvable(r, handoffID)
  {
    NotApplicableIff(r.packet, r.launch, r.ack, r.followThrough, r.resolution);
    PostureIds(r.packet, r.launch, r.ack, r.followThrough, r.resolution);
  }

  /** The resolution names the active packet and its newest attempt, if it has one. */
  lemma ResolutionRow(db: Db, taskID: Id, pre: BranchRecords, handoffID: Id, kind: ResolutionKind,
                      summary: string, resolutionID: Id, receiptID: Id)
    ensures var (r, after) :=
        ResolveOn(db, taskID, pre, handoffID, kind, summary, resolutionID, receiptID);
      && (!r.ResolveRecorded? ==> after == db)
      && (r.ResolveRecorded? ==>
            var now := RecordsOf(db, taskID);
            && after == db.(resolutions := db.resolutions + [r.record], receipts := after.receipts)
            && (|| after.receipts == db.receipts
                || after.receipts == db.receipts + [
                     TransitionReceipt(receiptID, taskID, HandoffResolutionTransition, resolutionID,
                                       r.record.handoffID)])
            && now.packet.Some?
            && r.record.resolutionID == resolutionID && r.record.taskID == taskID
            && r.record.handoffID == now.packet.value.handoffID
            && (now.launch.Some? ==> r.record.attemptID == now.launch.value.attemptID
                                     && r.record.launchID == now.launch.value.launchID)
            && (now.launch.None? ==> r.record.attemptID == "" && r.record.launchID == "")
            && r.record.targetWorker == Claude && r.record.kind == kind
            && (!Blank(summary) ==> r.record.summary == TrimSpace(summary)))
  {
  }
}
