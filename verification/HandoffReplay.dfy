/** Repeated and late requests: retried creation, repeated resolution, and which launch outcomes
    leave a transition receipt. */
module HandoffReplay {
  import opened Wrappers
  import opened Text
  import opened Tables
  import opened HandoffRecords
  import opened HandoffContinuity
  import opened ActiveBranch
  import opened ContinueAssessment
  import opened HandoffInvariant
  import opened HandoffSteps
  import opened HandoffPreservation
  import opened HandoffProtocol
  import opened HandoffTheorems

  // ---- retried creation -----------------------------------------------------------------------

  /** The outcome does not depend on the tables of a violation-free state beyond the capsule and
      the newest run. */
  lemma OutcomeUnchanged(db: Db, after: Db, taskID: Id, obs: Observation)
    requires Inv(db) && Inv(after) && taskID in db.capsules
    requires after.capsules == db.capsules && after.runs == db.runs
    ensures Assess(after, taskID, obs).outcome == Assess(db, taskID, obs).outcome
  {
    NoViolations(db, taskID);
    NoViolations(after, taskID);
  }

  lemma NewPacketIsLatest(db: Db, after: Db, packet: Packet)
    requires after.packets == db.packets + [packet]
    ensures LatestPacket(after.packets, packet.taskID) == Some(packet)
  {
    LastWhereAppend(db.packets, (p: Packet) => p.taskID == packet.taskID, packet);
  }

  /** The checkpoint a new packet stands on: the task's newest one, reused, or a new row. */
  lemma CreatedOn(db: Db, taskID: Id, req: CreateRequest, a: Assessment, packetID: Id,
                  checkpointID: Id) returns (cp: Checkpoint)
    requires "" !in db.briefs && taskID in db.capsules && db.capsules[taskID].taskID == taskID
    requires FreshId(db, checkpointID)
    requires CreateHandoffOn(db, taskID, req, a, packetID, checkpointID).0.CreateNew?
    ensures var (r, after) := CreateHandoffOn(db, taskID, req, a, packetID, checkpointID);
      && r.packet == BuildPacket(db.capsules[taskID], cp, a.latestRun, Claude, req, packetID)
      && ValidResumable(db.capsules[taskID], Some(cp))
      && (if LatestCheckpoint(db.checkpoints, taskID) == Some(cp)
          then after == db.(packets := db.packets + [r.packet])
          else after == db.(packets := db.packets + [r.packet],
                            checkpoints := db.checkpoints + [cp]))
      && (LatestCheckpoint(db.checkpoints, taskID) == Some(cp) || cp.checkpointID == checkpointID)
    ensures HandoffSafe(db.briefs, a) && a.capsule.version == db.capsules[taskID].version
    ensures Target(req) == Claude && db.capsules[taskID].briefID in db.briefs
  {
    var capsule := db.capsules[taskID];
    var reused := ReusedCheckpoint(db, taskID, capsule, a);
    cp := if reused.Some? then reused.value
          else HandoffCheckpoint(capsule, a.latestRun, checkpointID);
  }

  /** The new packet's checkpoint is found by its id, and it is the task's newest one. */
  lemma CreatedFound(checkpoints: seq<Checkpoint>, after: seq<Checkpoint>, taskID: Id,
                     cp: Checkpoint)
    requires CheckpointsOk(checkpoints) && cp.taskID == taskID
    requires if LatestCheckpoint(checkpoints, taskID) == Some(cp) then after == checkpoints
             else after == checkpoints + [cp]
    ensures GetCheckpoint(after, cp.checkpointID) == Some(cp)
    ensures LatestCheckpoint(after, taskID) == Some(cp)
  {
    if LatestCheckpoint(checkpoints, taskID) == Some(cp) {
      GetCheckpointIs(checkpoints, cp);
    } else {
      LastWhereAppend(checkpoints, (c: Checkpoint) => c.checkpointID == cp.checkpointID, cp);
      LastWhereAppend(checkpoints, (c: Checkpoint) => c.taskID == taskID, cp);
    }
  }

  /** What makes the second call reuse the packet, table by table. */
  lemma ReuseOn(after: Db, taskID: Id, req: CreateRequest, a: Assessment, first: Assessment,
                cp: Checkpoint, packet: Packet, packetID: Id, packetID2: Id, checkpointID2: Id)
    requires taskID in after.capsules && after.capsules[taskID] == a.capsule == first.capsule
    requires after.capsules[taskID].taskID == taskID
    requires HandoffSafe(after.briefs, first) && Target(req) == Claude
    requires after.capsules[taskID].briefID in after.briefs
    requires a.outcome == first.outcome && a.drift == first.drift && a.latestRun == first.latestRun
    requires packet == BuildPacket(a.capsule, cp, a.latestRun, Claude, req, packetID)
    requires ValidResumable(a.capsule, Some(cp)) && a.latestCheckpoint == Some(cp)
    requires GetCheckpoint(after.checkpoints, cp.checkpointID) == Some(cp)
    requires LatestPacket(after.packets, taskID) == Some(packet)
    requires a.branch.resolution.Some? ==> a.branch.resolution.value.handoffID != packetID
    ensures CreateHandoffOn(after, taskID, req, a, packetID2, checkpointID2)
         == (CreateReused(packet), after)
  {
    TrimSpaceIdempotent(req.reason);
    assert CanReusePacket(after, packet, a.capsule, a, Claude, req);
  }

  /** Retrying a successful creation, with nothing changed in between, returns the packet that
      was created and writes nothing. */
  lemma CreateRetryReuses(db: Db, taskID: Id, req: CreateRequest, obs: Observation, packetID: Id,
                          checkpointID: Id, packetID2: Id, checkpointID2: Id)
    requires Inv(db) && taskID in db.capsules
    requires FreshId(db, packetID) && FreshId(db, checkpointID)
    requires CreateHandoffOn(db, taskID, req, Assess(db, taskID, obs), packetID, checkpointID).0
               .CreateNew?
    ensures var (result, after) :=
        CreateHandoffOn(db, taskID, req, Assess(db, taskID, obs), packetID, checkpointID);
      CreateHandoffOn(after, taskID, req, Assess(after, taskID, obs), packetID2, checkpointID2)
        == (CreateReused(result.packet), after)
  {
    var a := Assess(db, taskID, obs);
    var (result, after) := CreateHandoffOn(db, taskID, req, a, packetID, checkpointID);
    var cp := CreatedOn(db, taskID, req, a, packetID, checkpointID);
    CreateKeepsInv(db, taskID, req, a, packetID, checkpointID);
    OutcomeUnchanged(db, after, taskID, obs);
    NewPacketIsLatest(db, after, result.packet);
    CreatedFound(db.checkpoints, after.checkpoints, taskID, cp);
    CreatedUnresolved(db, taskID, packetID);
    ReuseOn(after, taskID, req, Assess(after, taskID, obs), a, cp, result.packet, packetID,
            packetID2, checkpointID2);
  }

  lemma CreatedUnresolved(db: Db, taskID: Id, packetID: Id)
    requires ResolutionsOk(db.resolutions, db.packets, db.launches) && FreshId(db, packetID)
    ensures var latest := LatestResolutionByTask(db.resolutions, taskID);
      latest.Some? ==> latest.value.handoffID != packetID
  {
    var latest := LatestResolutionByTask(db.resolutions, taskID);
    if latest.Some? {
      assert ResolutionOk(latest.value, db.packets, db.launches);
    }
  }

  // ---- repeated resolution --------------------------------------------------------------------

  /** A recorded resolution matches the request that recorded it. */
  lemma OwnSummaryMatches(kind: ResolutionKind, summary: string)
    ensures SameSummary(summary, ResolutionSummary(kind, summary))
  {
    TrimSpaceIdempotent(summary);
  }

  lemma AfterResolution(db: Db, taskID: Id, handoffID: Id, kind: ResolutionKind, summary: string,
                        resolutionID: Id, receiptID: Id)
    requires Inv(db)
    requires ResolveOn(db, taskID, RecordsOf(db, taskID), handoffID, kind, summary, resolutionID,
                       receiptID).0.ResolveRecorded?
    ensures var (r, after) := ResolveOn(db, taskID, RecordsOf(db, taskID), handoffID, kind, summary,
                                        resolutionID, receiptID);
      && Inv(after) && RepeatsRequest(after, taskID, r.record, handoffID, kind, summary)
  {
    var pre := RecordsOf(db, taskID);
    var (r, after) := ResolveOn(db, taskID, pre, handoffID, kind, summary, resolutionID, receiptID);
    ResolvedWrites(db, taskID, pre, handoffID, kind, summary, resolutionID, receiptID);
    ResolvedFacts(db, taskID, pre, handoffID, kind, summary, resolutionID, receiptID);
    AppendResolution(db, after, r.record);
    OwnSummaryMatches(kind, summary);
    LastWhereAppend(db.resolutions, (x: Resolution) => x.taskID == taskID, r.record);
    assert r.record in after.resolutions;
  }

  /** The record is the task's newest resolution and answers the request. */
  predicate RepeatsRequest(db: Db, taskID: Id, record: Resolution, handoffID: Id,
                           kind: ResolutionKind, summary: string)
  {
    && taskID in db.capsules
    && record in db.resolutions
    && LatestResolutionByTask(db.resolutions, taskID) == Some(record)
    && record.kind == kind && SameSummary(summary, record.summary)
    && (handoffID == "" || handoffID == record.handoffID)
  }

  lemma ReplayedWhenLocal(db: Db, taskID: Id, record: Resolution, handoffID: Id,
                          kind: ResolutionKind, summary: string, resolutionID: Id, receiptID: Id)
    requires RepeatsRequest(db, taskID, record, handoffID, kind, summary)
    requires ActivePacket(db, taskID).None?
    ensures ResolveOn(db, taskID, RecordsOf(db, taskID), handoffID, kind, summary, resolutionID,
                      receiptID) == (ResolveReplayed(record), db)
  {
  }

  lemma RefusedWhenNamed(db: Db, taskID: Id, record: Resolution, handoffID: Id,
                         kind: ResolutionKind, summary: string, resolutionID: Id, receiptID: Id)
    requires RepeatsRequest(db, taskID, record, handoffID, kind, summary) && handoffID != ""
    requires ContinuityOf(RecordsOf(db, taskID)).handoffID !in {"", record.handoffID}
    ensures ResolveOn(db, taskID, RecordsOf(db, taskID), handoffID, kind, summary, resolutionID,
                      receiptID) == (ResolveError, db)
  {
  }

  lemma OtherWhenUnnamed(db: Db, taskID: Id, kind: ResolutionKind, summary: string,
                         resolutionID: Id, receiptID: Id)
    requires taskID in db.capsules && ActivePacket(db, taskID).Some?
    requires ResolutionTarget(ContinuityOf(RecordsOf(db, taskID)), "")
    ensures var (r, after) := ResolveOn(db, taskID, RecordsOf(db, taskID), "", kind, summary,
                                        resolutionID, receiptID);
      && r.ResolveRecorded? && after != db
      && r.record.handoffID == ActivePacket(db, taskID).value.handoffID
  {
    var pre := RecordsOf(db, taskID);
    var (r, after) := ResolveOn(db, taskID, pre, "", kind, summary, resolutionID, receiptID);
    ResolvedWrites(db, taskID, pre, "", kind, summary, resolutionID, receiptID);
    assert |after.resolutions| == |db.resolutions| + 1;
  }

  /** Repeating a resolve request replays the record exactly when the task has no other active
      branch. If it has one, a request that names its handoff is refused, and one that does not
      resolves the other branch. */
  lemma ResolveRepeated(db: Db, taskID: Id, handoffID: Id, kind: ResolutionKind, summary: string,
                        resolutionID: Id, receiptID: Id, resolutionID2: Id, receiptID2: Id)
    requires Inv(db)
    requires ResolveOn(db, taskID, RecordsOf(db, taskID), handoffID, kind, summary, resolutionID,
                       receiptID).0.ResolveRecorded?
    ensures var (r, after) := ResolveOn(db, taskID, RecordsOf(db, taskID), handoffID, kind, summary,
                                        resolutionID, receiptID);
      var (again, after2) := ResolveOn(after, taskID, RecordsOf(after, taskID), handoffID, kind,
                                       summary, resolutionID2, receiptID2);
      var other := ActivePacket(after, taskID);
      && (again == ResolveReplayed(r.record) <==> other.None?)
      && (after2 == after <==> handoffID != "" || other.None?)
      && (again.ResolveRecorded? ==> other.Some? && again.record.handoffID == other.value.handoffID)
  {
    AfterResolution(db, taskID, handoffID, kind, summary, resolutionID, receiptID);
    var (r, after) := ResolveOn(db, taskID, RecordsOf(db, taskID), handoffID, kind, summary,
                                resolutionID, receiptID);
    ActiveContinuity(after, taskID);
    var other := ActivePacket(after, taskID);
    if other.None? {
      ReplayedWhenLocal(after, taskID, r.record, handoffID, kind, summary, resolutionID2, receiptID2);
    } else if handoffID != "" {
      assert other.value.handoffID != r.record.handoffID;
      RefusedWhenNamed(after, taskID, r.record, handoffID, kind, summary, resolutionID2, receiptID2);
    } else {
      OtherWhenUnnamed(after, taskID, kind, summary, resolutionID2, receiptID2);
    }
  }

  // ---- what the resolving call answers --------------------------------------------------------

  /** The states a recognised follow-through leads to. */
  predicate Followed(state: State) {
    state in {FollowedProofOfLife, FollowedConfirmed, FollowedUnknown, FollowedStalled}
  }

  /** The call that records a resolution answers RESOLVED exactly when the branch had no recognised
      follow-through; otherwise it answers with the state the branch had before. The next
      assessment never says RESOLVED: the branch is no longer selected. */
  lemma ReplyResolvedIff(db: Db, taskID: Id, pre: BranchRecords, handoffID: Id,
                         kind: ResolutionKind, summary: string, resolutionID: Id, receiptID: Id)
    requires Inv(db)
    requires ResolveOn(db, taskID, pre, handoffID, kind, summary, resolutionID, receiptID).0
               .ResolveRecorded?
    ensures var (r, after) :=
        ResolveOn(db, taskID, pre, handoffID, kind, summary, resolutionID, receiptID);
      var before := ContinuityOf(RecordsOf(db, taskID));
      var reply := RepliedContinuity(RecordsOf(db, taskID), r.record);
      && reply.state == (if Followed(before.state) then before.state else Resolved)
      && ContinuityOf(RecordsOf(after, taskID)).state != Resolved
  {
    var (r, after) := ResolveOn(db, taskID, pre, handoffID, kind, summary, resolutionID, receiptID);
    ResolvedWrites(db, taskID, pre, handoffID, kind, summary, resolutionID, receiptID);
    ResolveKeepsInv(db, taskID, pre, handoffID, kind, summary, resolutionID, receiptID);
    ActiveContinuity(db, taskID);
    ActiveContinuity(after, taskID);
    ResolvedAnswer(RecordsOf(db, taskID), r.record);
  }

  lemma ResolvedAnswer(a: BranchRecords, record: Resolution)
    requires a.packet.Some? && record.handoffID == a.packet.value.handoffID
    requires ActiveState(ContinuityOf(a).state)
    ensures RepliedContinuity(a, record).state
         == if Followed(ContinuityOf(a).state) then ContinuityOf(a).state else Resolved
  {
  }

  // ---- receipts of launch outcomes ------------------------------------------------------------

  /** The REQUESTED attempt is its handoff's newest one and stays so when its outcome is written. */
  lemma OutcomeIsLatest(launches: seq<Launch>, l: Launch, out: LauncherOutput)
    requires LaunchChain(launches) && l in launches && l.status == Requested
    ensures LatestLaunch(launches, l.handoffID) == Some(l)
    ensures LatestLaunch(UpdateLaunch(launches, FinalLaunch(l, out)), l.handoffID)
         == Some(FinalLaunch(l, out))
  {
    var i := OutcomeRow(launches, l, out);
    var p := (x: Launch) => x.handoffID == l.handoffID;
    var after := launches[i := FinalLaunch(l, out)];
    forall j | i < j < |launches| ensures !p(launches[j]) {
    }
    assert IsNewest(launches, p, i) && IsNewest(after, p, i);
    LastWhereIs(launches, p, i);
    LastWhereIs(after, p, i);
  }

  /** Other handoffs' newest records do not change. */
  lemma OutcomeOfAnother(db: Db, prepared: PreparedLaunch, l: Launch, out: LauncherOutput,
                         ackID: Id, other: Id)
    requires LaunchChain(db.launches) && l in db.launches && l.status == Requested
    requires Wrote(prepared, l) && other != l.handoffID
    ensures var written := Outcomes(db, prepared, l, out, ackID);
      && LatestLaunch(written.launches, other) == LatestLaunch(db.launches, other)
      && LatestAck(written.acks, other) == LatestAck(db.acks, other)
  {
    var i := OutcomeRow(db.launches, l, out);
    LastWhereRewrite(db.launches, db.launches[i := FinalLaunch(l, out)],
                     (x: Launch) => x.handoffID == other);
    LastWhereAppend(db.acks, (a: Ack) => a.handoffID == other,
                    AckFor(prepared.taskID, prepared.handoffID, out, ackID));
  }

  lemma ControlChanges(p: Packet, l: Launch, out: LauncherOutput)
    requires p.targetWorker == Claude && p.status == PacketAccepted && p.isResumable
    requires l.status == Requested
    ensures AssessLaunchControl(Some(p), Some(l)).state
         != AssessLaunchControl(Some(p), Some(FinalLaunch(l, out))).state
  {
  }

  lemma OutcomeOfActive(db: Db, prepared: PreparedLaunch, l: Launch, out: LauncherOutput,
                        ackID: Id, p: Packet)
    requires LaunchChain(db.launches)
    requires l in db.launches && l.status == Requested && Wrote(prepared, l)
    requires ActivePacket(db, prepared.taskID) == Some(p)
    requires p.isResumable && p.handoffID == prepared.handoffID
    ensures SnapshotAt(db, prepared.taskID).control.state
         != SnapshotAt(Outcomes(db, prepared, l, out, ackID), prepared.taskID).control.state
  {
    OutcomeIsLatest(db.launches, l, out);
    ControlChanges(p, l, out);
  }

  lemma OutcomeOfInactive(db: Db, prepared: PreparedLaunch, l: Launch, out: LauncherOutput,
                          ackID: Id)
    requires LaunchChain(db.launches)
    requires l in db.launches && l.status == Requested && Wrote(prepared, l)
    requires var active := ActivePacket(db, prepared.taskID);
      active.None? || active.value.handoffID != prepared.handoffID
    ensures RecordsOf(Outcomes(db, prepared, l, out, ackID), prepared.taskID)
         == RecordsOf(db, prepared.taskID)
  {
    var active := ActivePacket(db, prepared.taskID);
    if active.Some? {
      OutcomeOfAnother(db, prepared, l, out, ackID, active.value.handoffID);
    }
  }

  /** A launch outcome leaves a receipt exactly when its handoff is the task's active branch. */
  lemma OutcomeReceiptIffActive(db: Db, prepared: PreparedLaunch, l: Launch, out: LauncherOutput,
                                ackID: Id, receiptID: Id)
    requires LaunchChain(db.launches) && PacketsOk(db.packets, db.briefs, db.checkpoints)
    requires prepared.taskID in db.capsules
    requires l in db.launches && l.status == Requested && Wrote(prepared, l)
    ensures var active := ActivePacket(db, prepared.taskID);
      FinalizeLaunchOn(db, prepared, out, ackID, receiptID).1.receipts == db.receipts +
        if active.Some? && active.value.handoffID == prepared.handoffID
        then [TransitionReceipt(receiptID, prepared.taskID, HandoffLaunchTransition,
                                prepared.attemptID, prepared.handoffID)]
        else []
  {
    GetLaunchIs(db.launches, l);
    var active := ActivePacket(db, prepared.taskID);
    if active.Some? && active.value.handoffID == prepared.handoffID {
      assert active.value.isResumable by {
        assert PacketOk(active.value, db.briefs, db.checkpoints);
      }
      OutcomeOfActive(db, prepared, l, out, ackID, active.value);
    } else {
      OutcomeOfInactive(db, prepared, l, out, ackID);
    }
  }

  /** Finalizing leaves a receipt exactly when the launch belongs to the active branch: a CREATED
      packet launched by id, or a branch resolved while its launch was in flight, leaves none. */
  lemma FinalizeLeavesReceiptIffActive(s: Sys, e: Event)
    requires Reachable(s) && Enabled(s, e) && e.Finalize?
    requires s.live[e.attemptID].prepared.taskID in s.db.capsules
    ensures var prepared := s.live[e.attemptID].prepared;
      var active := ActivePacket(s.db, prepared.taskID);
      Apply(s, e).db.receipts == s.db.receipts +
        if active.Some? && active.value.handoffID == prepared.handoffID
        then [TransitionReceipt(e.receiptID, prepared.taskID, HandoffLaunchTransition, e.attemptID,
                                prepared.handoffID)]
        else []
  {
    ReachableInv(s);
    var call := s.live[e.attemptID];
    var l := LiveRow(s.db, s.live, s.invocations, e.attemptID);
    OutcomeReceiptIffActive(s.db, call.prepared, l, call.output.value, e.ackID, e.receiptID);
  }
}
