/** Reachable states in which the handoff protocol does what one might not expect of it. */
module HandoffDetours {
  import opened Wrappers
  import opened Text
  import opened Tables
  import opened HandoffRecords
  import opened HandoffContinuity
  import opened ActiveBranch
  import opened ContinuityValidator
  import opened ContinueAssessment
  import opened HandoffInvariant
  import opened HandoffSteps
  import opened HandoffPreservation
  import opened HandoffProtocol
  import opened HandoffTheorems
  import opened HandoffReplay
  import opened HandoffWalkthrough

  // ---- a resolution that is not answered with RESOLVED ----------------------------------------

  /** The posture of a completed launch without follow-through. */
  lemma CompletedPosture(db: Db, taskID: Id)
    requires Inv(db)
    requires ActivePacket(db, taskID).Some? && db.followThroughs == []
    requires var l := LatestLaunch(db.launches, ActivePacket(db, taskID).value.handoffID);
      l.Some? && l.value.status == LaunchCompleted
    ensures ContinuityOf(RecordsOf(db, taskID)).state in {AckSeen, AckEmpty}
    ensures RecordsOf(db, taskID).followThrough.None?
  {
    ActiveContinuity(db, taskID);
    assert LatestFollowThrough(db.followThroughs, ActivePacket(db, taskID).value.handoffID).None?;
  }

  /** Recording an unknown follow-through of a completed launch. */
  lemma FollowedUp(db: Db, taskID: Id)
    requires Inv(db) && taskID in db.capsules
    requires ActivePacket(db, taskID).Some? && RecordsOf(db, taskID).followThrough.None?
    requires ContinuityOf(RecordsOf(db, taskID)).state in {AckSeen, AckEmpty}
    ensures var (r, after) := FollowThroughOn(db, taskID, RecordsOf(db, taskID),
                                              ContinuationUnknown, "", "ft");
      && taskID in after.capsules && ActivePacket(after, taskID).Some?
      && ContinuityOf(RecordsOf(after, taskID)).state == FollowedUnknown
  {
    var pre := RecordsOf(db, taskID);
    ActiveContinuity(db, taskID);
    PostureHasLaunch(pre);
    var (r, after) := FollowThroughOn(db, taskID, pre, ContinuationUnknown, "", "ft");
    assert after == db.(followThroughs := db.followThroughs + [r.record]);
    SameBranch(db, after, taskID);
    LastWhereAppend(db.followThroughs,
                    (f: FollowThrough) => f.handoffID == pre.packet.value.handoffID, r.record);
    assert RecordsOf(after, taskID) == pre.(followThrough := Some(r.record));
    UnknownFollows(pre, r.record);
  }

  lemma UnknownFollows(a: BranchRecords, f: FollowThrough)
    requires ContinuityOf(a).state in {AckSeen, AckEmpty} && f.kind == ContinuationUnknown
    ensures ContinuityOf(a.(followThrough := Some(f))).state == FollowedUnknown
  {
  }

  lemma ReachFollowed() returns (s: Sys)
    ensures Reachable(s) && "task" in s.db.capsules && ActivePacket(s.db, "task").Some?
    ensures ContinuityOf(RecordsOf(s.db, "task")).state == FollowedUnknown
  {
    var before := ReachCompleted();
    ReachableInv(before);
    assert LatestLaunch(before.db.launches, "hnd") == Some(FinalLaunch(LAUNCH, OUTPUT));
    CompletedPosture(before.db, "task");
    FollowedUp(before.db, "task");
    var e := RecordFollowThrough("task", RecordsOf(before.db, "task"), ContinuationUnknown, "", "ft");
    s := Apply(before, e);
    ReachableStep(before, e);
  }

  /** A launched, acknowledged and followed-through branch is resolved, and the call answers that
      its follow-through is unknown. */
  lemma ReplyHidesResolution() returns (s: Sys)
    ensures Reachable(s)
    ensures var pre := RecordsOf(s.db, "task");
      var r := ResolveOn(s.db, "task", pre, "", Abandoned, "", "res", "rcp").0;
      r.ResolveRecorded? && RepliedContinuity(pre, r.record).state == FollowedUnknown
  {
    s := ReachFollowed();
    ReachableInv(s);
    ActiveContinuity(s.db, "task");
    OtherWhenUnnamed(s.db, "task", Abandoned, "", "res", "rcp");
    ReplyResolvedIff(s.db, "task", RecordsOf(s.db, "task"), "", Abandoned, "", "res", "rcp");
  }

  // ---- a launch outcome without a receipt -----------------------------------------------------

  const CREATED_LAUNCH := RequestedLaunch("task", PACKET, "att")
  const UNACCEPTED := CREATED.(launches := [CREATED_LAUNCH])

  lemma CreatedSafe()
    requires !HasViolation(CREATED, "task")
    ensures Assess(CREATED, "task", CALM).outcome == Safe
  {
    assert LatestRun(CREATED.runs, "task").None?;
  }

  lemma CreatedPermitted()
    requires Assess(CREATED, "task", CALM).outcome == Safe
    ensures LaunchPermitted(CREATED, "task", PACKET, Unset, CALM)
  {
    assert GetCheckpoint(CREATED.checkpoints, "chk") == Some(CHECKPOINT);
    assert LatestLaunch(CREATED.launches, "hnd").None?;
    assert LatestResolution(CREATED.resolutions, "hnd").None?;
  }

  /** A launch by handoff id needs no acceptance. */
  lemma PrepareNamed(db: Db, taskID: Id, p: Packet, obs: Observation, attemptID: Id)
    requires taskID in db.capsules && p.handoffID != "" && GetPacket(db.packets, p.handoffID) == Some(p)
    requires LaunchPermitted(db, taskID, p, Unset, obs) && FreshId(db, attemptID)
    ensures var s := Sys(db, map[], []);
      var e := Prepare(taskID, p.handoffID, Unset, obs, attemptID);
      && Enabled(s, e)
      && Apply(s, e)
           == Sys(db.(launches := db.launches + [RequestedLaunch(taskID, p, attemptID)]),
                  map[attemptID := Call(PreparedLaunch(taskID, p.handoffID, attemptID), None)], [])
  {
  }

  lemma ReachUnaccepted()
    ensures Reachable(Sys(UNACCEPTED, map["att" := Call(PREPARED, None)], []))
  {
    ReachCreated();
    ReachableInv(Sys(CREATED, map[], []));
    NoViolations(CREATED, "task");
    CreatedSafe();
    CreatedPermitted();
    CreatedIsFresh();
    assert GetPacket(CREATED.packets, "hnd") == Some(PACKET);
    PrepareNamed(CREATED, "task", PACKET, CALM, "att");
    assert CREATED.launches + [CREATED_LAUNCH] == [CREATED_LAUNCH];
    ReachableStep(Sys(CREATED, map[], []), Prepare("task", "hnd", Unset, CALM, "att"));
  }

  lemma CreatedIsFresh()
    ensures FreshId(CREATED, "att")
  {
    Names();
    assert "hnd"[0] != "att"[0] && "chk"[0] != "att"[0];
  }

  lemma NoBranchCreated()
    ensures ActivePacket(UNACCEPTED, "task").None?
  {
    assert UNACCEPTED.packets[..0] == [];
    assert ListPackets(UNACCEPTED.packets, "task", SCAN_LIMIT) == [PACKET];
  }

  lemma ReachReturned()
    ensures Reachable(Sys(UNACCEPTED, map["att" := Call(PREPARED, Some(OUTPUT))], [PREPARED]))
  {
    ReachUnaccepted();
    Names();
    InvokeStep(UNACCEPTED, PREPARED, OUTPUT);
    ReachableStep(Sys(UNACCEPTED, map["att" := Call(PREPARED, None)], []), Invoke("att", OUTPUT));
  }

  /** Finalizing the only attempt of a task without an active branch. */
  lemma FinalizeSilently(db: Db, prepared: PreparedLaunch, l: Launch, output: LauncherOutput)
    requires LaunchChain(db.launches) && PacketsOk(db.packets, db.briefs, db.checkpoints)
    requires prepared.taskID in db.capsules && db.launches == [l] && l.status == Requested
    requires Wrote(prepared, l) && ActivePacket(db, prepared.taskID).None?
    ensures var after := FinalizeLaunchOn(db, prepared, output, "ack", "rcp").1;
      after.launches == [FinalLaunch(l, output)] && after.receipts == db.receipts
  {
    assert l in db.launches;
    var i := FinalizeWrites(db, prepared, output, "ack", "rcp", l);
    OutcomeReceiptIffActive(db, prepared, l, output, "ack", "rcp");
  }

  /** A created packet is launched by its id. Its outcome is written, without a receipt. */
  lemma OutcomeWithoutReceipt() returns (s: Sys, e: Event)
    ensures Reachable(s) && Enabled(s, e) && e.Finalize?
    ensures s.db.launches == [CREATED_LAUNCH]
    ensures Apply(s, e).db.launches == [FinalLaunch(CREATED_LAUNCH, OUTPUT)]
    ensures Apply(s, e).db.receipts == s.db.receipts
  {
    ReachReturned();
    s := Sys(UNACCEPTED, map["att" := Call(PREPARED, Some(OUTPUT))], [PREPARED]);
    e := Finalize("att", "ack", "rcp");
    ReachableInv(s);
    NoBranchCreated();
    FinalizeSilently(UNACCEPTED, PREPARED, CREATED_LAUNCH, OUTPUT);
    FinalizeStep(s, "att", "ack", "rcp");
  }

  // ---- a repeated request that resolves another branch ----------------------------------------

  const ASK_AGAIN := CreateRequest(Claude, "again", Resume, [])
  const PACKET2 := BuildPacket(CAPSULE, CHECKPOINT, None, Claude, ASK_AGAIN, "second")
  const ACCEPTED2 := AcceptPacket(PACKET2, Claude, [], 1)
  const CREATED2 := READY.(packets := [ACCEPTED, PACKET2])
  const BOTH := READY.(packets := [ACCEPTED, ACCEPTED2])

  lemma Assessed2()
    requires !HasViolation(READY, "task")
    ensures var a := Assess(READY, "task", CALM);
      && a.outcome == Safe && a.drift == DriftNone && a.capsule == CAPSULE && a.latestRun.None?
      && a.latestCheckpoint == Some(CHECKPOINT)
  {
    ReadySafe();
    assert LatestRun(READY.runs, "task").None?;
    assert LatestCheckpoint(READY.checkpoints, "task") == Some(CHECKPOINT);
  }

  lemma Create2As(a: Assessment)
    requires a.outcome == Safe && a.drift == DriftNone && a.capsule == CAPSULE
    requires a.latestRun.None? && a.latestCheckpoint == Some(CHECKPOINT)
    ensures CreateHandoffOn(READY, "task", ASK_AGAIN, a, "second", "chk2")
         == (CreateNew(PACKET2), CREATED2)
  {
    assert HandoffSafe(READY.briefs, a);
    assert LatestPacket(READY.packets, "task") == Some(ACCEPTED);
    assert TrimSpace("again") == "again" && TrimSpace("") == "";
    assert LatestCheckpoint(READY.checkpoints, "task") == Some(CHECKPOINT);
    assert READY.packets + [PACKET2] == [ACCEPTED, PACKET2];
  }

  lemma Ids2()
    ensures FreshId(READY, "second") && FreshId(READY, "chk2")
  {
    assert "hnd"[0] != "second"[0] && "chk"[0] != "second"[0];
    assert |"chk"| != |"chk2"| && |"hnd"| != |"chk2"|;
  }

  lemma CreateStep(db: Db, after: Db, taskID: Id, req: CreateRequest, a: Assessment, p: Packet,
                   packetID: Id, checkpointID: Id)
    requires CreateHandoffOn(db, taskID, req, a, packetID, checkpointID) == (CreateNew(p), after)
    requires FreshId(db, packetID) && FreshId(db, checkpointID)
    ensures var s := Sys(db, map[], []);
      var e := Create(taskID, req, a, packetID, checkpointID);
      Enabled(s, e) && Apply(s, e) == Sys(after, map[], [])
  {
  }

  lemma ReachCreated2()
    ensures Reachable(Sys(CREATED2, map[], []))
  {
    ReachReady();
    ReachableInv(Sys(READY, map[], []));
    NoViolations(READY, "task");
    Assessed2();
    var a := Assess(READY, "task", CALM);
    Create2As(a);
    Ids2();
    CreateStep(READY, CREATED2, "task", ASK_AGAIN, a, PACKET2, "second", "chk2");
    ReachableStep(Sys(READY, map[], []), Create("task", ASK_AGAIN, a, "second", "chk2"));
  }

  lemma Accept2Runs()
    ensures AcceptHandoffOn(CREATED2, "task", "second", Claude, [], 1) == (NewlyAccepted, BOTH)
  {
    assert "hnd" != "second";
    assert GetPacket(CREATED2.packets, "second") == Some(PACKET2);
    assert UpdateAccepted(CREATED2.packets, "second", Claude, [], 1) == [ACCEPTED, ACCEPTED2];
  }

  lemma AcceptStep(db: Db, after: Db, taskID: Id, handoffID: Id)
    requires AcceptHandoffOn(db, taskID, handoffID, Claude, [], 1) == (NewlyAccepted, after)
    ensures var s := Sys(db, map[], []);
      var e := Accept(taskID, handoffID, Claude, [], 1);
      Enabled(s, e) && Apply(s, e) == Sys(after, map[], [])
  {
  }

  /** Two packets of one task are accepted. */
  lemma ReachBoth()
    ensures Reachable(Sys(BOTH, map[], []))
  {
    ReachCreated2();
    Accept2Runs();
    AcceptStep(CREATED2, BOTH, "task", "second");
    ReachableStep(Sys(CREATED2, map[], []), Accept("task", "second", Claude, [], 1));
  }

  lemma BothListed()
    ensures ListPackets(BOTH.packets, "task", SCAN_LIMIT) == [ACCEPTED2, ACCEPTED]
  {
    ListTwo(ACCEPTED, ACCEPTED2);
  }

  lemma ListTwo(p: Packet, q: Packet)
    requires p.taskID == q.taskID == "task"
    ensures ListPackets([p, q], "task", SCAN_LIMIT) == [q, p]
  {
    assert [p, q][..1] == [p] && [p][..0] == [];
    assert ListPackets([p], "task", 11) == [p];
  }

  /** With neither resolved the newer one is active; once it is resolved, the other one is. */
  lemma BothActive(after: Db, r: Resolution)
    requires after.packets == BOTH.packets && after.resolutions == [r] && r.handoffID == "second"
    ensures ActivePacket(BOTH, "task") == Some(ACCEPTED2)
    ensures ActivePacket(after, "task") == Some(ACCEPTED)
  {
    BothListed();
    assert "hnd" != "second";
    assert LatestResolution(BOTH.resolutions, "second").None?;
    assert r in after.resolutions;
    assert LatestResolution(after.resolutions, "second").Some?;
    assert LatestResolution(after.resolutions, "hnd").None?;
    FirstEligibleIsFirst([ACCEPTED2, ACCEPTED], after.resolutions, 1);
  }

  /** An operator resolves the active branch, and sends the same request again: it resolves the
      other branch. */
  lemma RepeatResolvesAnother() returns (s: Sys)
    ensures Reachable(s)
    ensures var (r, after) := ResolveOn(s.db, "task", RecordsOf(s.db, "task"), "", Abandoned, "",
                                        "res", "rcp");
      var again := ResolveOn(after, "task", RecordsOf(after, "task"), "", Abandoned, "", "res2",
                             "rcp2").0;
      && r.ResolveRecorded? && again.ResolveRecorded?
      && r.record.handoffID == "second" && again.record.handoffID == "hnd"
  {
    ReachBoth();
    s := Sys(BOTH, map[], []);
    ReachableInv(s);
    BothActive(BOTH.(resolutions := [Resolution("", "second", "", "", "", Claude, Abandoned, "")]),
               Resolution("", "second", "", "", "", Claude, Abandoned, ""));
    ActiveContinuity(BOTH, "task");
    RepeatFrom(BOTH);
  }

  lemma RepeatFrom(db: Db)
    requires Inv(db) && "task" in db.capsules && db.packets == BOTH.packets && db.resolutions == []
    requires ActivePacket(db, "task") == Some(ACCEPTED2)
    ensures var (r, after) := ResolveOn(db, "task", RecordsOf(db, "task"), "", Abandoned, "",
                                        "res", "rcp");
      var again := ResolveOn(after, "task", RecordsOf(after, "task"), "", Abandoned, "", "res2",
                             "rcp2").0;
      && r.ResolveRecorded? && again.ResolveRecorded?
      && r.record.handoffID == "second" && again.record.handoffID == "hnd"
  {
    var pre := RecordsOf(db, "task");
    ActiveContinuity(db, "task");
    OtherWhenUnnamed(db, "task", Abandoned, "", "res", "rcp");
    ResolvedWrites(db, "task", pre, "", Abandoned, "", "res", "rcp");
    ResolveKeepsInv(db, "task", pre, "", Abandoned, "", "res", "rcp");
    var (r, after) := ResolveOn(db, "task", pre, "", Abandoned, "", "res", "rcp");
    BothActive(after, r.record);
    ActiveContinuity(after, "task");
    OtherWhenUnnamed(after, "task", Abandoned, "", "res2", "rcp2");
  }
}
