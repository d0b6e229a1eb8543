/** What an operator can rely on in every reachable state of the handoff protocol. */
module HandoffTheorems {
  import opened Wrappers
  import opened Text
  import opened Tables
  import opened HandoffRecords
  import opened HandoffContinuity
  import opened ActiveBranch
  import opened ContinuityValidator
  import opened ContinueAssessment
  import opened HandoffInvariant
  import opened HandoffSteps
  import opened HandoffPreservation
  import opened HandoffProtocol

  // ---- writers and checkers agree -------------------------------------------------------------

  /** In every reachable state the independent validator is silent, a completed launch always has
      its acknowledgment, the selected branch is never reported resolved, and continuity is
      undetermined only where no branch is active. */
  lemma WritersAndCheckersAgree(s: Sys, taskID: Id)
    requires Reachable(s)
    ensures !HasViolation(s.db, taskID)
    ensures var state := ContinuityOf(RecordsOf(s.db, taskID)).state;
      && state != AckLost && state != Resolved
      && (state == NotApplicable <==> ActivePacket(s.db, taskID).None?)
  {
    ReachableInv(s);
    NoViolations(s.db, taskID);
    ActiveContinuity(s.db, taskID);
  }

  /** The posture of an accepted, unresolved, resumable Claude packet whose completed launch has
      an acknowledgment. */
  lemma PostureOfActive(p: Packet, launch: Option<Launch>, ack: Option<Ack>,
                        ft: Option<FollowThrough>, resolution: Option<Resolution>)
    requires p.targetWorker == Claude && p.status == PacketAccepted && p.isResumable
    requires launch.Some? && launch.value.status == LaunchCompleted ==> ack.Some?
    requires resolution.Some? ==> resolution.value.handoffID != p.handoffID
    ensures var c := AssessHandoffContinuity(Some(p), launch, ack, ft, resolution);
      && c.state != AckLost && ActiveState(c.state) && c.targetWorker == Claude
      && c.handoffID == p.handoffID && c.resolutionID == ""
  {
    NotApplicableIff(Some(p), launch, ack, ft, resolution);
  }

  /** The active branch has an active posture. */
  lemma ActiveContinuity(db: Db, taskID: Id)
    requires Inv(db)
    ensures var c := ContinuityOf(RecordsOf(db, taskID));
      && c.state != AckLost
      && (ActivePacket(db, taskID).None? ==> c.state == NotApplicable && c.handoffID == "")
      && (ActivePacket(db, taskID).Some? ==>
            && ActiveState(c.state) && c.targetWorker == Claude
            && c.handoffID == ActivePacket(db, taskID).value.handoffID && c.handoffID != ""
            && c.resolutionID == "")
  {
    var active := ActivePacket(db, taskID);
    if active.Some? {
      var p := active.value;
      ActiveFacts(db.packets, db.briefs, db.checkpoints, db.resolutions, db.launches, db.acks, p,
                  taskID);
      PostureOfActive(p, LatestLaunch(db.launches, p.handoffID), LatestAck(db.acks, p.handoffID),
                      LatestFollowThrough(db.followThroughs, p.handoffID),
                      LatestResolutionByTask(db.resolutions, taskID));
    }
  }

  lemma ActiveFacts(packets: seq<Packet>, briefs: set<Id>, checkpoints: seq<Checkpoint>,
                    resolutions: seq<Resolution>, launches: seq<Launch>, acks: seq<Ack>,
                    packet: Packet, taskID: Id)
    requires PacketsOk(packets, briefs, checkpoints) && AcksOk(acks, launches)
    requires packet in packets && Eligible(packet, resolutions)
    ensures packet.handoffID != "" && packet.isResumable
    ensures var launch := LatestLaunch(launches, packet.handoffID);
      launch.Some? && launch.value.status == LaunchCompleted ==>
        LatestAck(acks, packet.handoffID).Some?
    ensures var latest := LatestResolutionByTask(resolutions, taskID);
      latest.Some? ==> latest.value.handoffID != packet.handoffID
  {
    assert PacketOk(packet, briefs, checkpoints);
  }

  // ---- resolution is terminal -----------------------------------------------------------------

  function ResolutionsFor(resolutions: seq<Resolution>, handoffID: Id): seq<Resolution> {
    Where(resolutions, (r: Resolution) => r.handoffID == handoffID)
  }

  function FollowThroughsFor(fts: seq<FollowThrough>, handoffID: Id): seq<FollowThrough> {
    Where(fts, (f: FollowThrough) => f.handoffID == handoffID)
  }

  /** The ids of a handoff's attempts, oldest first. */
  function AttemptIds(launches: seq<Launch>, handoffID: Id): seq<Id> {
    if launches == [] then []
    else
      var last := launches[|launches| - 1];
      AttemptIds(launches[..|launches| - 1], handoffID)
      + (if last.handoffID == handoffID then [last.attemptID] else [])
  }

  lemma {:induction false} AttemptIdsUpdate(launches: seq<Launch>, i: nat, l: Launch, handoffID: Id)
    requires i < |launches|
    requires l.attemptID == launches[i].attemptID && l.handoffID == launches[i].handoffID
    ensures AttemptIds(launches[i := l], handoffID) == AttemptIds(launches, handoffID)
  {
    var n := |launches| - 1;
    if i < n {
      assert launches[i := l][..n] == launches[..n][i := l];
      AttemptIdsUpdate(launches[..n], i, l, handoffID);
    } else {
      assert launches[i := l][..n] == launches[..n];
    }
  }

  lemma AttemptIdsAppend(launches: seq<Launch>, l: Launch, handoffID: Id)
    requires l.handoffID != handoffID
    ensures AttemptIds(launches + [l], handoffID) == AttemptIds(launches, handoffID)
  {
    assert (launches + [l])[..|launches|] == launches;
  }

  lemma {:induction false} AtMostOneResolution(resolutions: seq<Resolution>, handoffID: Id)
    requires ResolvedOnce(resolutions)
    ensures |ResolutionsFor(resolutions, handoffID)| <= 1
  {
    if resolutions != [] {
      var n := |resolutions| - 1;
      AtMostOneResolution(resolutions[..n], handoffID);
      var init := ResolutionsFor(resolutions[..n], handoffID);
      WhereMembers(resolutions[..n], (r: Resolution) => r.handoffID == handoffID);
      assert |init| > 0 ==> init[0] in resolutions[..n];
    }
  }

  /** What a handoff's resolution, attempts and follow-through look like. */
  datatype Footprint = Footprint(resolutions: seq<Resolution>, attempts: seq<Id>,
                                 followThroughs: seq<FollowThrough>)

  function FootprintOf(db: Db, handoffID: Id): Footprint {
    Footprint(ResolutionsFor(db.resolutions, handoffID), AttemptIds(db.launches, handoffID),
              FollowThroughsFor(db.followThroughs, handoffID))
  }

  lemma PrepareSkipsResolved(s: Sys, e: Event, handoffID: Id)
    requires LaunchChain(s.db.launches) && Enabled(s, e) && e.Prepare?
    requires LatestResolution(s.db.resolutions, handoffID).Some?
    ensures FootprintOf(Apply(s, e).db, handoffID) == FootprintOf(s.db, handoffID)
  {
    var r := PrepareLaunchOn(s.db, e.taskID, e.handoffID, e.target, e.obs, e.attemptID).0;
    if r.Prepared? {
      PreparedFacts(s.db, e.taskID, e.handoffID, e.target, e.obs, e.attemptID);
      AttemptIdsAppend(s.db.launches, r.launch, handoffID);
    }
  }

  lemma FinalizeKeepsFootprint(db: Db, prepared: PreparedLaunch, out: LauncherOutput, ackID: Id,
                               receiptID: Id, l: Launch, handoffID: Id)
    requires LaunchChain(db.launches)
    requires l in db.launches && l.status == Requested && Wrote(prepared, l)
    ensures FootprintOf(FinalizeLaunchOn(db, prepared, out, ackID, receiptID).1, handoffID)
         == FootprintOf(db, handoffID)
  {
    var i := FinalizeWrites(db, prepared, out, ackID, receiptID, l);
    AttemptIdsUpdate(db.launches, i, FinalLaunch(l, out), handoffID);
  }

  lemma FinalizeSkipsResolved(s: Sys, e: Event, handoffID: Id)
    requires SysInv(s) && Enabled(s, e) && e.Finalize?
    ensures FootprintOf(Apply(s, e).db, handoffID) == FootprintOf(s.db, handoffID)
  {
    var call := s.live[e.attemptID];
    var l := LiveRow(s.db, s.live, s.invocations, e.attemptID);
    FinalizeKeepsFootprint(s.db, call.prepared, call.output.value, e.ackID, e.receiptID, l, handoffID);
  }

  lemma FollowThroughSkipsResolved(db: Db, taskID: Id, pre: BranchRecords,
                                   kind: FollowThroughKind, summary: string, recordID: Id,
                                   handoffID: Id)
    requires LatestResolution(db.resolutions, handoffID).Some?
    ensures FootprintOf(FollowThroughOn(db, taskID, pre, kind, summary, recordID).1, handoffID)
         == FootprintOf(db, handoffID)
  {
    var r := FollowThroughOn(db, taskID, pre, kind, summary, recordID).0;
    if r.FollowThroughRecorded? {
      WhereAppend(db.followThroughs, (f: FollowThrough) => f.handoffID == handoffID, r.record);
    }
  }

  lemma ResolveSkipsResolved(db: Db, taskID: Id, pre: BranchRecords, target: Id,
                             kind: ResolutionKind, summary: string, resolutionID: Id,
                             receiptID: Id, handoffID: Id)
    requires LatestResolution(db.resolutions, handoffID).Some?
    ensures FootprintOf(ResolveOn(db, taskID, pre, target, kind, summary, resolutionID,
                                  receiptID).1, handoffID)
         == FootprintOf(db, handoffID)
  {
    var r := ResolveOn(db, taskID, pre, target, kind, summary, resolutionID, receiptID).0;
    if r.ResolveRecorded? {
      ResolvedWrites(db, taskID, pre, target, kind, summary, resolutionID, receiptID);
      WhereAppend(db.resolutions, (x: Resolution) => x.handoffID == handoffID, r.record);
    }
  }

  lemma OthersKeepFootprint(s: Sys, e: Event, handoffID: Id)
    requires Enabled(s, e)
    requires e.Create? || e.Accept? || e.Invoke? || e.Crash? || e.Elsewhere?
    ensures FootprintOf(Apply(s, e).db, handoffID) == FootprintOf(s.db, handoffID)
  {
  }

  lemma StepSkipsResolved(s: Sys, e: Event, handoffID: Id)
    requires SysInv(s) && Enabled(s, e)
    requires LatestResolution(s.db.resolutions, handoffID).Some?
    ensures FootprintOf(Apply(s, e).db, handoffID) == FootprintOf(s.db, handoffID)
  {
    match e {
      case Prepare(_, _, _, _, _) => PrepareSkipsResolved(s, e, handoffID);
      case Finalize(_, _, _) => FinalizeSkipsResolved(s, e, handoffID);
      case RecordFollowThrough(taskID, pre, kind, summary, recordID) =>
        FollowThroughSkipsResolved(s.db, taskID, pre, kind, summary, recordID, handoffID);
      case Resolve(taskID, pre, target, kind, summary, resolutionID, receiptID) =>
        ResolveSkipsResolved(s.db, taskID, pre, target, kind, summary, resolutionID, receiptID,
                             handoffID);
      case _ => OthersKeepFootprint(s, e, handoffID);
    }
  }

  lemma ResolvedIffListed(resolutions: seq<Resolution>, handoffID: Id)
    ensures LatestResolution(resolutions, handoffID).Some? <==>
            ResolutionsFor(resolutions, handoffID) != []
  {
    WhereMembers(resolutions, (r: Resolution) => r.handoffID == handoffID);
    if ResolutionsFor(resolutions, handoffID) != [] {
      assert ResolutionsFor(resolutions, handoffID)[0] in resolutions;
    }
    if LatestResolution(resolutions, handoffID).Some? {
      assert LatestResolution(resolutions, handoffID).value in ResolutionsFor(resolutions, handoffID);
    }
  }

  /** Resolution is terminal: whatever happens afterwards, the handoff keeps exactly its one
      resolution, gets no further attempt and no further follow-through, and is never again the
      active branch of any task. */
  lemma {:induction false} ResolutionIsTerminal(s: Sys, events: seq<Event>, handoffID: Id,
                                                taskID: Id)
    requires SysInv(s) && Runs(s, events)
    requires LatestResolution(s.db.resolutions, handoffID).Some?
    ensures FootprintOf(After(s, events).db, handoffID) == FootprintOf(s.db, handoffID)
    ensures |FootprintOf(After(s, events).db, handoffID).resolutions| == 1
    ensures var active := ActivePacket(After(s, events).db, taskID);
      active.None? || active.value.handoffID != handoffID
    decreases |events|
  {
    if events == [] {
      AtMostOneResolution(s.db.resolutions, handoffID);
      ResolvedIffListed(s.db.resolutions, handoffID);
    } else {
      var t := Apply(s, events[0]);
      StepSkipsResolved(s, events[0], handoffID);
      StepKeepsSysInv(s, events[0]);
      ResolvedIffListed(s.db.resolutions, handoffID);
      ResolvedIffListed(t.db.resolutions, handoffID);
      ResolutionIsTerminal(t, events[1..], handoffID, taskID);
    }
  }

  // ---- receipts -------------------------------------------------------------------------------

  /** The branch of a snapshot is the active packet's, or the local one. */
  lemma BranchOfActive(db: Db, taskID: Id)
    requires PacketsOk(db.packets, db.briefs, db.checkpoints)
    ensures var active := ActivePacket(db, taskID);
      SnapshotAt(db, taskID).branch ==
        if active.Some? then Branch(ClaudeBranch, active.value.handoffID)
        else Branch(LocalBranch, taskID)
  {
    if ActivePacket(db, taskID).Some? {
      assert PacketOk(ActivePacket(db, taskID).value, db.briefs, db.checkpoints);
    }
  }

  lemma BranchLeaves(db: Db, written: Db, taskID: Id, r: Resolution)
    requires PacketsOk(db.packets, db.briefs, db.checkpoints)
    requires written == db.(resolutions := db.resolutions + [r])
    requires ActivePacket(db, taskID).Some? && r.handoffID == ActivePacket(db, taskID).value.handoffID
    ensures SnapshotAt(written, taskID).branch != SnapshotAt(db, taskID).branch
  {
    BranchOfActive(db, taskID);
    BranchOfActive(written, taskID);
    assert r in written.resolutions;
  }

  /** Every resolution that is not a replay moves the branch elsewhere and leaves one receipt. */
  lemma ResolutionLeavesReceipt(db: Db, taskID: Id, pre: BranchRecords, handoffID: Id,
                                kind: ResolutionKind, summary: string, resolutionID: Id,
                                receiptID: Id)
    requires Inv(db)
    requires ResolveOn(db, taskID, pre, handoffID, kind, summary, resolutionID, receiptID).0
               .ResolveRecorded?
    ensures var (r, after) :=
        ResolveOn(db, taskID, pre, handoffID, kind, summary, resolutionID, receiptID);
      && after.receipts == db.receipts + [TransitionReceipt(receiptID, taskID,
           HandoffResolutionTransition, resolutionID, r.record.handoffID)]
      && SnapshotAt(after, taskID).branch != SnapshotAt(db, taskID).branch
  {
    var (r, after) := ResolveOn(db, taskID, pre, handoffID, kind, summary, resolutionID, receiptID);
    ResolvedWrites(db, taskID, pre, handoffID, kind, summary, resolutionID, receiptID);
    var written := db.(resolutions := db.resolutions + [r.record]);
    BranchLeaves(db, written, taskID, r.record);
    ReceiptsDoNotMatter(written, after, taskID);
  }

  lemma ReceiptsDoNotMatter(db: Db, after: Db, taskID: Id)
    requires after == db.(receipts := after.receipts)
    ensures SnapshotAt(after, taskID) == SnapshotAt(db, taskID)
  {
  }
}
