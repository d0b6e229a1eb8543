/** One run of the protocol from an empty handoff store to a resolved branch. It shows that the
    states the theorems are about are reached, and that the bound on launcher invocations is met. */
module HandoffWalkthrough {
  import opened Wrappers
  import opened Text
  import opened Tables
  import opened HandoffRecords
  import opened HandoffContinuity
  import opened ActiveBranch
  import opened ContinuityValidator
  import opened ContinueAssessment
  import opened HandoffInvariant
  import opened HandoffSteps
  import opened HandoffPreservation
  import opened HandoffProtocol
  import opened HandoffTheorems
  import opened LaunchSafety
  import opened HandoffReplay
  import ExecutionPlan

  const CALM := Observation(false, DriftNone)
  const CAPSULE := Capsule("task", 1, BriefReady, "", "brief", RepoAnchor("", "", "", "", "", ""))
  const EMPTY := Db(map["task" := CAPSULE], {"brief"}, [], [], [], [], [], [], [], [], [])
  const ASK := CreateRequest(Claude, "", Resume, [])
  const CHECKPOINT := HandoffCheckpoint(CAPSULE, None, "chk")
  const PACKET := BuildPacket(CAPSULE, CHECKPOINT, None, Claude, ASK, "hnd")
  const ACCEPTED := AcceptPacket(PACKET, Claude, [], 1)
  const LAUNCH := RequestedLaunch("task", ACCEPTED, "att")
  const OUTPUT := LauncherOutput("ext", 2, "", "", false)

  const CREATED := EMPTY.(packets := [PACKET], checkpoints := [CHECKPOINT])
  const READY := CREATED.(packets := [ACCEPTED])
  const REQUESTED := READY.(launches := [LAUNCH])

  lemma Names()
    ensures !Blank("hnd") && !Blank("chk") && !Blank("att") && !Blank("ext")
  {
  }

  lemma EmptyAssessed()
    ensures var a := Assess(EMPTY, "task", CALM);
      && a.outcome == Safe && a.drift == DriftNone && a.capsule == CAPSULE && a.latestRun.None?
      && a.latestCheckpoint.None?
  {
    assert LatestPacket(EMPTY.packets, "task").None?;
    assert LatestRun(EMPTY.runs, "task").None?;
  }

  lemma CreateRuns()
    ensures CreateHandoffOn(EMPTY, "task", ASK, Assess(EMPTY, "task", CALM), "hnd", "chk")
         == (CreateNew(PACKET), CREATED)
  {
    EmptyAssessed();
    CreateAs(Assess(EMPTY, "task", CALM));
  }

  lemma CreateAs(a: Assessment)
    requires a.outcome == Safe && a.drift == DriftNone && a.capsule == CAPSULE
    requires a.latestRun.None? && a.latestCheckpoint.None?
    ensures CreateHandoffOn(EMPTY, "task", ASK, a, "hnd", "chk") == (CreateNew(PACKET), CREATED)
  {
    assert HandoffSafe(EMPTY.briefs, a);
    assert LatestPacket(EMPTY.packets, "task").None?;
    assert EMPTY.packets + [PACKET] == [PACKET];
    assert EMPTY.checkpoints + [CHECKPOINT] == [CHECKPOINT];
  }

  lemma AcceptRuns()
    ensures AcceptHandoffOn(CREATED, "task", "hnd", Claude, [], 1) == (NewlyAccepted, READY)
  {
    assert GetPacket(CREATED.packets, "hnd") == Some(PACKET);
    assert UpdateAccepted([PACKET], "hnd", Claude, [], 1) == [ACCEPTED];
  }

  lemma ReadyActive()
    ensures ActivePacket(READY, "task") == Some(ACCEPTED)
    ensures ContinuityOf(RecordsOf(READY, "task")).state == AcceptedNotLaunched
  {
    assert READY.packets[..0] == [];
    assert ListPackets(READY.packets, "task", SCAN_LIMIT) == [ACCEPTED];
    assert LatestResolution(READY.resolutions, "hnd").None?;
    assert LatestLaunch(READY.launches, "hnd").None?;
    assert LatestResolutionByTask(READY.resolutions, "task").None?;
  }

  lemma ReadySafe()
    requires !HasViolation(READY, "task")
    ensures Assess(READY, "task", CALM).outcome == Safe
  {
    assert LatestRun(READY.runs, "task").None?;
  }

  /** An empty handoff id launches the active packet, if its launch is permitted. */
  lemma PrepareActive(db: Db, taskID: Id, p: Packet, obs: Observation, attemptID: Id)
    requires taskID in db.capsules && ActivePacket(db, taskID) == Some(p)
    requires LaunchPermitted(db, taskID, p, Unset, obs)
    ensures PrepareLaunchOn(db, taskID, "", Unset, obs, attemptID)
         == (Prepared(p, RequestedLaunch(taskID, p, attemptID)),
             db.(launches := db.launches + [RequestedLaunch(taskID, p, attemptID)]))
  {
  }

  lemma PrepareRuns()
    requires Inv(READY)
    ensures PrepareLaunchOn(READY, "task", "", Unset, CALM, "att")
         == (Prepared(ACCEPTED, LAUNCH), REQUESTED)
  {
    NoViolations(READY, "task");
    ReadySafe();
    ReadyActive();
    ExecutionPlan.ActivePermitted(READY, "task", CALM);
    PrepareActive(READY, "task", ACCEPTED, CALM, "att");
    assert READY.launches + [LAUNCH] == [LAUNCH];
  }

  // ---- the run, one reachable state after the other -------------------------------------------

  lemma {:induction false} RunsAppend(s: Sys, events: seq<Event>, e: Event)
    requires Runs(s, events) && Enabled(After(s, events), e)
    ensures Runs(s, events + [e]) && After(s, events + [e]) == Apply(After(s, events), e)
    decreases |events|
  {
    if events == [] {
      assert [] + [e] == [e];
    } else {
      assert (events + [e])[1..] == events[1..] + [e];
      RunsAppend(Apply(s, events[0]), events[1..], e);
    }
  }

  lemma ReachableStep(s: Sys, e: Event)
    requires Reachable(s) && Enabled(s, e)
    ensures Reachable(Apply(s, e))
  {
    var start, events :| Initial(start) && Runs(start, events) && After(start, events) == s;
    RunsAppend(start, events, e);
  }

  const PREPARED := PreparedLaunch("task", "hnd", "att")

  lemma ReachCreated()
    ensures Reachable(Sys(CREATED, map[], []))
  {
    var s := Sys(EMPTY, map[], []);
    assert Initial(s) && Runs(s, []) && After(s, []) == s;
    var e := Create("task", ASK, Assess(EMPTY, "task", CALM), "hnd", "chk");
    Names();
    CreateRuns();
    assert Apply(s, e) == Sys(CREATED, map[], []);
    ReachableStep(s, e);
  }

  lemma ReachReady()
    ensures Reachable(Sys(READY, map[], []))
  {
    ReachCreated();
    AcceptRuns();
    var s := Sys(CREATED, map[], []);
    var e := Accept("task", "hnd", Claude, [], 1);
    assert Apply(s, e) == Sys(READY, map[], []);
    ReachableStep(s, e);
  }

  lemma PrepareStep(db: Db, after: Db, taskID: Id, p: Packet, l: Launch, attemptID: Id)
    requires PrepareLaunchOn(db, taskID, "", Unset, CALM, attemptID) == (Prepared(p, l), after)
    requires FreshId(db, attemptID)
    ensures var s := Sys(db, map[], []);
      var e := Prepare(taskID, "", Unset, CALM, attemptID);
      var prepared := PreparedLaunch(taskID, p.handoffID, attemptID);
      Enabled(s, e) && Apply(s, e) == Sys(after, map[attemptID := Call(prepared, None)], [])
  {
  }

  lemma AttemptIsFresh()
    ensures FreshId(READY, "att")
  {
    Names();
    assert "hnd" != "att" && "chk" != "att" by {
      assert "hnd"[0] != "att"[0] && "chk"[0] != "att"[0];
    }
  }

  lemma ReachRequested()
    ensures Reachable(Sys(REQUESTED, map["att" := Call(PREPARED, None)], []))
  {
    ReachReady();
    ReachableInv(Sys(READY, map[], []));
    PrepareRuns();
    AttemptIsFresh();
    PrepareStep(READY, REQUESTED, "task", ACCEPTED, LAUNCH, "att");
    ReachableStep(Sys(READY, map[], []), Prepare("task", "", Unset, CALM, "att"));
  }

  lemma ReachInvoked()
    ensures Reachable(Sys(REQUESTED, map["att" := Call(PREPARED, Some(OUTPUT))], [PREPARED]))
  {
    ReachRequested();
    Names();
    InvokeStep(REQUESTED, PREPARED, OUTPUT);
    ReachableStep(Sys(REQUESTED, map["att" := Call(PREPARED, None)], []), Invoke("att", OUTPUT));
  }

  lemma InvokeStep(db: Db, prepared: PreparedLaunch, output: LauncherOutput)
    requires LauncherKeepsItsContract(output)
    ensures var s := Sys(db, map[prepared.attemptID := Call(prepared, None)], []);
      var e := Invoke(prepared.attemptID, output);
      && Enabled(s, e)
      && Apply(s, e) == Sys(db, map[prepared.attemptID := Call(prepared, Some(output))], [prepared])
  {
  }

  lemma RequestedActive()
    ensures ActivePacket(REQUESTED, "task") == Some(ACCEPTED)
  {
    ReadyActive();
  }

  /** The completed launch: one attempt, not failed, one receipt, the branch still active. */
  lemma ReachCompleted() returns (s: Sys)
    ensures Reachable(s) && s.invocations == [PREPARED]
    ensures s.db.launches == [FinalLaunch(LAUNCH, OUTPUT)] && |s.db.receipts| == 1
    ensures "task" in s.db.capsules && ActivePacket(s.db, "task") == Some(ACCEPTED)
    ensures s.db.followThroughs == []
  {
    ReachInvoked();
    var before := Sys(REQUESTED, map["att" := Call(PREPARED, Some(OUTPUT))], [PREPARED]);
    ReachableInv(before);
    RequestedActive();
    FinalizeRuns(REQUESTED, PREPARED, LAUNCH, OUTPUT, ACCEPTED);
    FinalizeStep(before, "att", "ack", "rcp");
    s := Apply(before, Finalize("att", "ack", "rcp"));
    ReachableStep(before, Finalize("att", "ack", "rcp"));
  }

  lemma FinalizeStep(s: Sys, id: Id, ackID: Id, receiptID: Id)
    requires id in s.live && s.live[id].output.Some?
    ensures Enabled(s, Finalize(id, ackID, receiptID))
    ensures Apply(s, Finalize(id, ackID, receiptID))
         == Sys(FinalizeLaunchOn(s.db, s.live[id].prepared, s.live[id].output.value, ackID,
                                 receiptID).1, s.live - {id}, s.invocations)
  {
  }

  /** Finalizing the only attempt of the active branch. */
  lemma FinalizeRuns(db: Db, prepared: PreparedLaunch, l: Launch, output: LauncherOutput, p: Packet)
    requires LaunchChain(db.launches) && PacketsOk(db.packets, db.briefs, db.checkpoints)
    requires prepared.taskID in db.capsules && db.launches == [l] && l.status == Requested
    requires Wrote(prepared, l) && db.receipts == []
    requires ActivePacket(db, prepared.taskID) == Some(p) && p.handoffID == prepared.handoffID
    ensures var after := FinalizeLaunchOn(db, prepared, output, "ack", "rcp").1;
      && after.launches == [FinalLaunch(l, output)] && |after.receipts| == 1
      && prepared.taskID in after.capsules && ActivePacket(after, prepared.taskID) == Some(p)
      && after.followThroughs == db.followThroughs
  {
    FinalizeTables(db, prepared, output, "ack", "rcp");
    SameBranch(db, FinalizeLaunchOn(db, prepared, output, "ack", "rcp").1, prepared.taskID);
    assert l in db.launches;
    var i := FinalizeWrites(db, prepared, output, "ack", "rcp", l);
    OutcomeReceiptIffActive(db, prepared, l, output, "ack", "rcp");
  }

  lemma FinalizeTables(db: Db, prepared: PreparedLaunch, output: LauncherOutput, ackID: Id,
                       receiptID: Id)
    ensures var after := FinalizeLaunchOn(db, prepared, output, ackID, receiptID).1;
      && after.packets == db.packets && after.resolutions == db.resolutions
      && after.capsules == db.capsules && after.followThroughs == db.followThroughs
  {
  }

  lemma SameBranch(db: Db, after: Db, taskID: Id)
    requires after.packets == db.packets && after.resolutions == db.resolutions
    ensures ActivePacket(after, taskID) == ActivePacket(db, taskID)
  {
  }

  lemma WhereOne<T(!new)>(x: T, p: T -> bool)
    ensures Where([x], p) == if p(x) then [x] else []
  {
    assert [x][..0] == [];
  }

  lemma OneAttempt(s: Sys)
    requires s.invocations == [PREPARED] && s.db.launches == [FinalLaunch(LAUNCH, OUTPUT)]
    ensures |CallsFor(s.invocations, "hnd")| == 1
    ensures Failures(Attempts(s.db.launches, "hnd")) == 0 && Settled(s, "hnd")
  {
    WhereOne(PREPARED, (p: PreparedLaunch) => p.handoffID == "hnd");
    WhereOne(FinalLaunch(LAUNCH, OUTPUT), (l: Launch) => l.handoffID == "hnd");
    WhereOne(FinalLaunch(LAUNCH, OUTPUT), (l: Launch) => l.status == LaunchFailed);
    assert s.db.launches[0] in s.db.launches;
  }

  /** A reachable state in which a launch was invoked once and never failed, is completed, and its
      branch is resolved; the two transitions each left a receipt. */
  lemma ResolvedIsReached() returns (s: Sys)
    ensures Reachable(s) && Settled(s, "hnd")
    ensures LatestResolution(s.db.resolutions, "hnd").Some? && |s.db.receipts| == 2
    ensures |CallsFor(s.invocations, "hnd")| == Failures(Attempts(s.db.launches, "hnd")) + 1
  {
    var before := ReachCompleted();
    ReachableInv(before);
    ActiveContinuity(before.db, "task");
    var pre := RecordsOf(before.db, "task");
    OtherWhenUnnamed(before.db, "task", Abandoned, "", "res", "rcp2");
    ResolvedWrites(before.db, "task", pre, "", Abandoned, "", "res", "rcp2");
    ResolutionLeavesReceipt(before.db, "task", pre, "", Abandoned, "", "res", "rcp2");
    var e := Resolve("task", pre, "", Abandoned, "", "res", "rcp2");
    s := Apply(before, e);
    ReachableStep(before, e);
    OneAttempt(s);
    var r := ResolveOn(before.db, "task", pre, "", Abandoned, "", "res", "rcp2").0.record;
    LastWhereAppend(before.db.resolutions, (x: Resolution) => x.handoffID == "hnd", r);
  }
}
