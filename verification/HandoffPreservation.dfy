/** Every transaction of the handoff protocol keeps the invariant of HandoffInvariant. */
module HandoffPreservation {
  import opened Wrappers
  import opened Text
  import opened Tables
  import opened HandoffRecords
  import opened HandoffContinuity
  import opened ActiveBranch
  import opened ContinuityValidator
  import opened ContinueAssessment
  import opened HandoffInvariant
  import opened HandoffSteps

  // ---- growing tables -------------------------------------------------------------------------

  lemma MorePackets(db: Db, packets: seq<Packet>)
    requires LaunchesOk(db.launches, db.packets)
    requires ResolutionsOk(db.resolutions, db.packets, db.launches)
    requires forall h, t :: HasPacket(db.packets, h, t) ==> HasPacket(packets, h, t)
    ensures LaunchesOk(db.launches, packets)
    ensures ResolutionsOk(db.resolutions, packets, db.launches)
  {
    forall l | l in db.launches ensures LaunchOk(l, packets) {
      assert LaunchOk(l, db.packets);
    }
    forall r | r in db.resolutions ensures ResolutionOk(r, packets, db.launches) {
      assert ResolutionOk(r, db.packets, db.launches);
    }
  }

  lemma MoreCheckpoints(packets: seq<Packet>, briefs: set<Id>, checkpoints: seq<Checkpoint>,
                        moreBriefs: set<Id>, moreCheckpoints: seq<Checkpoint>)
    requires PacketsOk(packets, briefs, checkpoints)
    requires briefs <= moreBriefs && forall c :: c in checkpoints ==> c in moreCheckpoints
    ensures PacketsOk(packets, moreBriefs, moreCheckpoints)
  {
    forall p | p in packets ensures PacketOk(p, moreBriefs, moreCheckpoints) {
      assert PacketOk(p, briefs, checkpoints);
    }
  }

  // ---- create ---------------------------------------------------------------------------------

  /** A packet is created on a checkpoint it fits, however stale the assessment was. */
  lemma CreateKeepsInv(db: Db, taskID: Id, req: CreateRequest, a: Assessment, packetID: Id,
                       checkpointID: Id)
    requires Inv(db) && FreshId(db, packetID) && FreshId(db, checkpointID)
    ensures Inv(CreateHandoffOn(db, taskID, req, a, packetID, checkpointID).1)
  {
    var (result, after) := CreateHandoffOn(db, taskID, req, a, packetID, checkpointID);
    if result.CreateNew? {
      var capsule := db.capsules[taskID];
      var reused := ReusedCheckpoint(db, taskID, capsule, a);
      var cp := if reused.Some? then reused.value
                else HandoffCheckpoint(capsule, a.latestRun, checkpointID);
      var packet := result.packet;
      assert cp in after.checkpoints && Anchors(cp, packet);
      assert capsule.briefID in db.briefs;
      MoreCheckpoints(db.packets, db.briefs, db.checkpoints, db.briefs, after.checkpoints);
      assert PacketOk(packet, after.briefs, after.checkpoints);
      forall h, t | HasPacket(db.packets, h, t) ensures HasPacket(after.packets, h, t) {
        var p :| p in db.packets && p.handoffID == h && p.taskID == t;
        assert p in after.packets;
      }
      MorePackets(db, after.packets);
    }
  }

  // ---- accept ---------------------------------------------------------------------------------

  lemma AcceptedPackets(packets: seq<Packet>, briefs: set<Id>, checkpoints: seq<Checkpoint>,
                        handoffID: Id, acceptedBy: Worker, notes: seq<string>, now: Time)
    requires PacketsOk(packets, briefs, checkpoints) && acceptedBy != Unset
    ensures var after := UpdateAccepted(packets, handoffID, acceptedBy, notes, now);
      && PacketsOk(after, briefs, checkpoints)
      && forall h, t :: HasPacket(packets, h, t) ==> HasPacket(after, h, t)
  {
    var after := UpdateAccepted(packets, handoffID, acceptedBy, notes, now);
    forall i | 0 <= i < |after| ensures PacketOk(after[i], briefs, checkpoints) {
      assert PacketOk(packets[i], briefs, checkpoints);
      var c :| c in checkpoints && Anchors(c, packets[i]);
      assert Anchors(c, after[i]);
    }
    forall h, t | HasPacket(packets, h, t) ensures HasPacket(after, h, t) {
      var i :| 0 <= i < |packets| && packets[i].handoffID == h && packets[i].taskID == t;
      assert after[i] in after;
    }
  }

  lemma AcceptKeepsInv(db: Db, taskID: Id, handoffID: Id, acceptor: Worker, notes: seq<string>,
                       now: Time)
    requires Inv(db)
    ensures Inv(AcceptHandoffOn(db, taskID, handoffID, acceptor, notes, now).1)
  {
    var (result, after) := AcceptHandoffOn(db, taskID, handoffID, acceptor, notes, now);
    if result.NewlyAccepted? {
      var packet := GetPacket(db.packets, handoffID).value;
      assert packet.targetWorker == Claude by {
        assert PacketOk(packet, db.briefs, db.checkpoints);
      }
      var acceptedBy := if acceptor == Unset then packet.targetWorker else acceptor;
      AcceptedPackets(db.packets, db.briefs, db.checkpoints, handoffID, acceptedBy, notes, now);
      MorePackets(db, after.packets);
    }
  }

  // ---- prepare launch -------------------------------------------------------------------------

  /** Without a newest attempt that still counts, every attempt of the handoff has FAILED. */
  lemma AllAttemptsFailed(launches: seq<Launch>, handoffID: Id)
    requires LaunchChain(launches)
    requires LatestLaunch(launches, handoffID).Some? ==>
               LatestLaunch(launches, handoffID).value.status == LaunchFailed
    ensures forall l :: l in launches && l.handoffID == handoffID ==> l.status == LaunchFailed
  {
    forall l | l in launches && l.handoffID == handoffID ensures l.status == LaunchFailed {
      if l.status != LaunchFailed {
        LatestIsTheUnfailed(launches, l);
      }
    }
  }

  lemma RequestExtendsChain(launches: seq<Launch>, packets: seq<Packet>, l: Launch)
    requires LaunchesOk(launches, packets) && LaunchOk(l, packets)
    requires forall k :: k in launches ==> k.attemptID != l.attemptID
    requires forall k :: k in launches && k.handoffID == l.handoffID ==> k.status == LaunchFailed
    ensures LaunchesOk(launches + [l], packets)
  {
  }

  lemma RequestKeepsAcks(acks: seq<Ack>, launches: seq<Launch>, l: Launch)
    requires AcksOk(acks, launches) && l.status == Requested
    ensures AcksOk(acks, launches + [l])
  {
    forall a | a in acks ensures exists k :: k in launches + [l] && Answers(a, k) {
      var k :| k in launches && Answers(a, k);
      assert k in launches + [l];
    }
  }

  /** What a prepared launch tells about the tables it was prepared on. */
  lemma PreparedFacts(db: Db, taskID: Id, handoffID: Id, target: Worker, obs: Observation,
                      attemptID: Id)
    requires LaunchChain(db.launches) && !Blank(attemptID)
    requires PrepareLaunchOn(db, taskID, handoffID, target, obs, attemptID).0.Prepared?
    ensures var (r, after) := PrepareLaunchOn(db, taskID, handoffID, target, obs, attemptID);
      && r.packet in db.packets && r.packet.taskID == taskID
      && after == db.(launches := db.launches + [r.launch])
      && r.launch.handoffID == r.packet.handoffID && r.launch.attemptID == attemptID
      && r.launch.status == Requested
      && LaunchOk(r.launch, db.packets)
      && LatestResolution(db.resolutions, r.packet.handoffID).None?
      && (forall k :: k in db.launches && k.handoffID == r.packet.handoffID ==>
            k.status == LaunchFailed)
  {
    var r := PrepareLaunchOn(db, taskID, handoffID, target, obs, attemptID).0;
    AllAttemptsFailed(db.launches, r.packet.handoffID);
    assert HasPacket(db.packets, r.packet.handoffID, taskID);
  }

  lemma PrepareKeepsInv(db: Db, taskID: Id, handoffID: Id, target: Worker, obs: Observation,
                        attemptID: Id)
    requires Inv(db) && FreshId(db, attemptID)
    ensures Inv(PrepareLaunchOn(db, taskID, handoffID, target, obs, attemptID).1)
  {
    var (result, after) := PrepareLaunchOn(db, taskID, handoffID, target, obs, attemptID);
    if result.Prepared? {
      PreparedFacts(db, taskID, handoffID, target, obs, attemptID);
      RequestExtendsChain(db.launches, db.packets, result.launch);
      RequestKeepsAcks(db.acks, db.launches, result.launch);
      KeptByMoreLaunches(db, after.launches);
    }
  }

  /** Everything that refers to attempts survives when attempts are added or a REQUESTED one is
      given its outcome. */
  lemma KeptByMoreLaunches(db: Db, launches: seq<Launch>)
    requires AcksOk(db.acks, db.launches)
    requires FollowThroughsOk(db.followThroughs, db.launches)
    requires ResolutionsOk(db.resolutions, db.packets, db.launches)
    requires forall l :: l in db.launches ==> LaunchOk(l, db.packets)
    requires forall l :: l in db.launches && l.status != Requested ==> l in launches
    requires forall l :: l in db.launches && l.status == Requested ==>
      exists k :: k in launches && k.attemptID == l.attemptID && k.handoffID == l.handoffID
                  && k.taskID == l.taskID
    ensures forall a :: a in db.acks ==>
      a.targetWorker == Claude && exists l :: l in launches && Answers(a, l)
    ensures FollowThroughsOk(db.followThroughs, launches)
    ensures ResolutionsOk(db.resolutions, db.packets, launches)
  {
    forall a | a in db.acks ensures exists l :: l in launches && Answers(a, l) {
      var l :| l in db.launches && Answers(a, l);
      assert l in launches;
    }
    forall f | f in db.followThroughs ensures exists l :: l in launches && Follows(f, l) {
      var l :| l in db.launches && Follows(f, l);
      assert l in launches;
    }
    forall r | r in db.resolutions ensures ResolutionOk(r, db.packets, launches) {
      assert ResolutionOk(r, db.packets, db.launches);
      if r.attemptID != "" {
        var l :| l in db.launches && Closes(r, l);
        assert LaunchOk(l, db.packets);
        if l.status == Requested {
          var k :| k in launches && k.attemptID == l.attemptID && k.handoffID == l.handoffID
                   && k.taskID == l.taskID;
          assert Closes(r, k);
        }
      }
    }
  }

  // ---- finalize launch ------------------------------------------------------------------------

  lemma TrimmedIsNotBlank(s: string)
    requires !Blank(s)
    ensures !Blank(TrimSpace(s))
  {
    TrimSpaceIdempotent(s);
  }

  /** Writing an outcome changes one row and keeps its id, handoff and task. */
  lemma OutcomeRow(launches: seq<Launch>, launch: Launch, out: LauncherOutput) returns (i: nat)
    requires LaunchChain(launches) && launch in launches && launch.status == Requested
    ensures i < |launches| && launches[i] == launch
    ensures UpdateLaunch(launches, FinalLaunch(launch, out)) == launches[i := FinalLaunch(launch, out)]
    ensures var after := UpdateLaunch(launches, FinalLaunch(launch, out));
      && (forall l :: l in launches && l.status != Requested ==> l in after)
      && (forall l :: l in launches && l.status == Requested ==>
            exists k :: k in after && k.attemptID == l.attemptID && k.handoffID == l.handoffID
                        && k.taskID == l.taskID)
  {
    i :| 0 <= i < |launches| && launches[i] == launch;
    var after := UpdateLaunch(launches, FinalLaunch(launch, out));
    assert after == launches[i := FinalLaunch(launch, out)];
    forall j | 0 <= j < |launches| && launches[j].status == Requested
      ensures exists k :: k in after && k.attemptID == launches[j].attemptID
                          && k.handoffID == launches[j].handoffID && k.taskID == launches[j].taskID
    {
      assert after[j] in after;
    }
    forall j | 0 <= j < |launches| && launches[j].status != Requested
      ensures launches[j] in after
    {
      assert after[j] == launches[j];
    }
  }

  lemma OutcomeKeepsLaunches(launches: seq<Launch>, packets: seq<Packet>, launch: Launch,
                             out: LauncherOutput)
    requires LaunchesOk(launches, packets) && launch in launches && launch.status == Requested
    requires LauncherKeepsItsContract(out)
    ensures LaunchesOk(UpdateLaunch(launches, FinalLaunch(launch, out)), packets)
  {
    TrimmedIsNotBlank(out.launchID);
    var i := OutcomeRow(launches, launch, out);
    assert LaunchOk(launch, packets);
    var final := FinalLaunch(launch, out);
    assert LaunchOk(final, packets);
    var after := launches[i := final];
    forall k, j | 0 <= k < j < |after| && after[k].handoffID == after[j].handoffID
      ensures after[k].status == LaunchFailed
    {
      assert launches[k].handoffID == launches[j].handoffID;
    }
  }

  /** The attempt row is the one the prepare transaction wrote. */
  predicate Wrote(prepared: PreparedLaunch, launch: Launch) {
    && launch.attemptID == prepared.attemptID
    && launch.handoffID == prepared.handoffID
    && launch.taskID == prepared.taskID
  }

  lemma OutcomeKeepsInv(db: Db, prepared: PreparedLaunch, launch: Launch, out: LauncherOutput,
                        ackID: Id, after: Db)
    requires Inv(db) && LauncherKeepsItsContract(out)
    requires launch in db.launches && launch.status == Requested && Wrote(prepared, launch)
    requires after == Outcomes(db, prepared, launch, out, ackID).(receipts := after.receipts)
    ensures Inv(after)
  {
    assert launch.targetWorker == Claude by {
      assert LaunchOk(launch, db.packets);
    }
    OutcomeKeepsLaunches(db.launches, db.packets, launch, out);
    var i := OutcomeRow(db.launches, launch, out);
    KeptByMoreLaunches(db, after.launches);
    AcksAfterFinalize(db, prepared, launch, out, ackID, after);
  }

  lemma FinalizeKeepsInv(db: Db, prepared: PreparedLaunch, out: LauncherOutput, ackID: Id,
                         receiptID: Id)
    requires Inv(db) && LauncherKeepsItsContract(out)
    requires exists l :: l in db.launches && Wrote(prepared, l)
    ensures Inv(FinalizeLaunchOn(db, prepared, out, ackID, receiptID).1)
  {
    var (result, after) := FinalizeLaunchOn(db, prepared, out, ackID, receiptID);
    if result.Ok? {
      var launch :| launch in db.launches && Wrote(prepared, launch);
      GetLaunchIs(db.launches, launch);
      OutcomeKeepsInv(db, prepared, launch, out, ackID, after);
    }
  }

  lemma AcksAfterFinalize(db: Db, prepared: PreparedLaunch, launch: Launch, out: LauncherOutput,
                          ackID: Id, after: Db)
    requires AcksOk(db.acks, db.launches)
    requires after.launches == UpdateLaunch(db.launches, FinalLaunch(launch, out))
    requires after.acks == Outcomes(db, prepared, launch, out, ackID).acks
    requires launch in db.launches && launch.targetWorker == Claude && Wrote(prepared, launch)
    requires forall a :: a in db.acks ==>
      a.targetWorker == Claude && exists l :: l in after.launches && Answers(a, l)
    ensures AcksOk(after.acks, after.launches)
  {
    var final := FinalLaunch(launch, out);
    var i :| 0 <= i < |db.launches| && db.launches[i] == launch;
    assert after.launches[i] == final;
    if !out.failed {
      var ack := AckFor(prepared.taskID, prepared.handoffID, out, ackID);
      assert Answers(ack, final);
      assert after.acks == db.acks + [ack];
    }
    forall l | l in after.launches && l.status == LaunchCompleted
      ensures LatestAck(after.acks, l.handoffID).Some?
    {
      if l == final {
        assert after.acks[|after.acks| - 1].handoffID == l.handoffID;
      } else {
        assert l in db.launches;
        var a := LatestAck(db.acks, l.handoffID).value;
        assert a in after.acks;
      }
    }
  }

  // ---- follow-through, resolution, environment ------------------------------------------------

  lemma AppendFollowThrough(fts: seq<FollowThrough>, launches: seq<Launch>, f: FollowThrough,
                            l: Launch)
    requires FollowThroughsOk(fts, launches)
    requires f.targetWorker == Claude && l in launches && Follows(f, l)
    ensures FollowThroughsOk(fts + [f], launches)
  {
  }

  /** A recorded follow-through refers to the active branch's completed launch. */
  lemma FollowThroughFacts(db: Db, taskID: Id, pre: BranchRecords, kind: FollowThroughKind,
                           summary: string, recordID: Id) returns (l: Launch)
    requires forall k :: k in db.launches ==> LaunchOk(k, db.packets)
    requires forall i, j :: 0 <= i < j < |db.packets| ==>
      db.packets[i].handoffID != db.packets[j].handoffID
    requires FollowThroughOn(db, taskID, pre, kind, summary, recordID).0.FollowThroughRecorded?
    ensures var (r, after) := FollowThroughOn(db, taskID, pre, kind, summary, recordID);
      && r.record.targetWorker == Claude && l in db.launches && Follows(r.record, l)
      && ActivePacket(db, taskID).Some?
      && r.record.handoffID == ActivePacket(db, taskID).value.handoffID
      && after == db.(followThroughs := db.followThroughs + [r.record])
  {
    var packet := ActivePacket(db, taskID).value;
    l := LatestLaunch(db.launches, packet.handoffID).value;
    assert LaunchOk(l, db.packets);
    TaskOfHandoff(db.packets, packet, l.taskID);
  }

  lemma FollowThroughKeepsInv(db: Db, taskID: Id, pre: BranchRecords, kind: FollowThroughKind,
                              summary: string, recordID: Id)
    requires Inv(db)
    ensures Inv(FollowThroughOn(db, taskID, pre, kind, summary, recordID).1)
  {
    var result := FollowThroughOn(db, taskID, pre, kind, summary, recordID).0;
    if result.FollowThroughRecorded? {
      var l := FollowThroughFacts(db, taskID, pre, kind, summary, recordID);
      AppendFollowThrough(db.followThroughs, db.launches, result.record, l);
    }
  }

  lemma AppendResolution(db: Db, after: Db, r: Resolution)
    requires Inv(db) && ResolutionOk(r, db.packets, db.launches)
    requires LatestResolution(db.resolutions, r.handoffID).None?
    requires after == db.(resolutions := db.resolutions + [r], receipts := after.receipts)
    ensures Inv(after)
  {
  }

  lemma ContinuityNamesPacket(r: BranchRecords)
    ensures r.packet.Some? ==> ContinuityOf(r).handoffID == r.packet.value.handoffID
  {
  }

  /** A recorded resolution is about the active branch and is the one row written. */
  lemma ResolvedWrites(db: Db, taskID: Id, pre: BranchRecords, handoffID: Id,
                       kind: ResolutionKind, summary: string, resolutionID: Id, receiptID: Id)
    requires ResolveOn(db, taskID, pre, handoffID, kind, summary, resolutionID, receiptID).0
               .ResolveRecorded?
    ensures var (result, after) :=
        ResolveOn(db, taskID, pre, handoffID, kind, summary, resolutionID, receiptID);
      var r := result.record;
      && ActivePacket(db, taskID).Some?
      && r.handoffID == ActivePacket(db, taskID).value.handoffID && r.taskID == taskID
      && r.resolutionID == resolutionID
      && r.kind == kind && r.summary == ResolutionSummary(kind, summary)
      && (handoffID == "" || handoffID == r.handoffID)
      && LatestResolution(db.resolutions, r.handoffID).None?
      && after == db.(resolutions := db.resolutions + [r], receipts := after.receipts)
  {
    var records := RecordsOf(db, taskID);
    assert records.packet == ActivePacket(db, taskID);
    ContinuityNamesPacket(records);
  }

  /** It refers to the active packet and to that packet's newest attempt. */
  lemma ResolvedFacts(db: Db, taskID: Id, pre: BranchRecords, handoffID: Id, kind: ResolutionKind,
                      summary: string, resolutionID: Id, receiptID: Id)
    requires forall l :: l in db.launches ==> LaunchOk(l, db.packets)
    requires forall i, j :: 0 <= i < j < |db.packets| ==>
      db.packets[i].handoffID != db.packets[j].handoffID
    requires ResolveOn(db, taskID, pre, handoffID, kind, summary, resolutionID, receiptID).0
               .ResolveRecorded?
    ensures ResolutionOk(ResolveOn(db, taskID, pre, handoffID, kind, summary, resolutionID,
                                   receiptID).0.record, db.packets, db.launches)
  {
    var r := ResolveOn(db, taskID, pre, handoffID, kind, summary, resolutionID, receiptID).0.record;
    var packet := ActivePacket(db, taskID).value;
    var launch := LatestLaunch(db.launches, packet.handoffID);
    assert HasPacket(db.packets, packet.handoffID, taskID);
    if launch.Some? {
      assert !Blank(launch.value.attemptID) && launch.value.taskID == taskID by {
        assert LaunchOk(launch.value, db.packets);
        TaskOfHandoff(db.packets, packet, launch.value.taskID);
      }
      assert Closes(r, launch.value);
    }
  }

  lemma ResolveKeepsInv(db: Db, taskID: Id, pre: BranchRecords, handoffID: Id, kind: ResolutionKind,
                        summary: string, resolutionID: Id, receiptID: Id)
    requires Inv(db)
    ensures Inv(ResolveOn(db, taskID, pre, handoffID, kind, summary, resolutionID, receiptID).1)
  {
    var (result, after) :=
      ResolveOn(db, taskID, pre, handoffID, kind, summary, resolutionID, receiptID);
    if result.ResolveRecorded? {
      ResolvedWrites(db, taskID, pre, handoffID, kind, summary, resolutionID, receiptID);
      ResolvedFacts(db, taskID, pre, handoffID, kind, summary, resolutionID, receiptID);
      AppendResolution(db, after, result.record);
    }
  }

  /** What the rest of the orchestrator may do to the tables the protocol reads: capsules, runs,
      actions and receipts change freely, briefs and checkpoints are only added. */
  ghost predicate Environment(db: Db, after: Db) {
    && (forall t :: t in after.capsules ==> after.capsules[t].taskID == t)
    && "" !in after.briefs && db.briefs <= after.briefs
    && db.checkpoints <= after.checkpoints && CheckpointsOk(after.checkpoints)
    && after.packets == db.packets && after.launches == db.launches && after.acks == db.acks
    && after.followThroughs == db.followThroughs && after.resolutions == db.resolutions
  }

  lemma EnvironmentKeepsInv(db: Db, after: Db)
    requires Inv(db) && Environment(db, after)
    ensures Inv(after)
  {
    MoreCheckpoints(db.packets, db.briefs, db.checkpoints, after.briefs, after.checkpoints);
  }
}
