/** The launcher is called at most once more than it is known to have failed, and never again
    once a launch is completed or its outcome is lost: handoff_launch.go over all runs. */
module LaunchSafety {
  import opened Wrappers
  import opened Text
  import opened Tables
  import opened FiniteSets
  import opened HandoffRecords
  import opened HandoffInvariant
  import opened HandoffSteps
  import opened HandoffPreservation
  import opened HandoffProtocol

  // ---- the shape of one handoff's history -----------------------------------------------------

  /** The attempts of a handoff, oldest first. */
  function Attempts(launches: seq<Launch>, handoffID: Id): seq<Launch> {
    Where(launches, (l: Launch) => l.handoffID == handoffID)
  }

  /** FAILED attempts followed by at most one REQUESTED or COMPLETED attempt. */
  ghost predicate FailuresThenAtMostOne(attempts: seq<Launch>) {
    && (forall i :: 0 <= i < |attempts| ==>
          attempts[i].status in {Requested, LaunchCompleted, LaunchFailed})
    && (forall i :: 0 <= i < |attempts| - 1 ==> attempts[i].status == LaunchFailed)
  }

  lemma {:induction false} ChainShape(launches: seq<Launch>, handoffID: Id)
    requires LaunchChain(launches) && forall l :: l in launches ==> l.status != OtherLaunchStatus
    ensures FailuresThenAtMostOne(Attempts(launches, handoffID))
    decreases |launches|
  {
    if launches != [] {
      var n := |launches| - 1;
      ChainShape(launches[..n], handoffID);
      var init := Attempts(launches[..n], handoffID);
      WhereMembers(launches[..n], (l: Launch) => l.handoffID == handoffID);
      if launches[n].handoffID == handoffID {
        forall i | 0 <= i < |init| ensures init[i].status == LaunchFailed {
          assert init[i] in launches[..n];
        }
      }
    }
  }

  /** In every reachable state, every handoff's attempts are failures followed by at most one
      attempt that is pending, lost or completed. */
  lemma AttemptHistoryShape(s: Sys, handoffID: Id)
    requires Reachable(s)
    ensures FailuresThenAtMostOne(Attempts(s.db.launches, handoffID))
  {
    ReachableInv(s);
    forall l | l in s.db.launches ensures l.status != OtherLaunchStatus {
      assert LaunchOk(l, s.db.packets);
    }
    ChainShape(s.db.launches, handoffID);
  }

  // ---- counting launcher invocations ----------------------------------------------------------

  function Failures(attempts: seq<Launch>): nat {
    |Where(attempts, (l: Launch) => l.status == LaunchFailed)|
  }

  /** The launcher invocations made for a handoff. */
  function CallsFor(invocations: seq<PreparedLaunch>, handoffID: Id): seq<PreparedLaunch> {
    Where(invocations, (p: PreparedLaunch) => p.handoffID == handoffID)
  }

  lemma {:induction false} FailuresOfShape(attempts: seq<Launch>)
    requires forall i :: 0 <= i < |attempts| ==> attempts[i].status == LaunchFailed
    ensures Failures(attempts) == |attempts|
  {
    if attempts != [] {
      FailuresOfShape(attempts[..|attempts| - 1]);
    }
  }

  lemma AttemptsBoundedByFailures(attempts: seq<Launch>)
    requires FailuresThenAtMostOne(attempts)
    ensures |attempts| <= Failures(attempts) + 1
    ensures |attempts| > 0 && attempts[|attempts| - 1].status != LaunchFailed ==>
              |attempts| == Failures(attempts) + 1
  {
    if attempts != [] {
      FailuresOfShape(attempts[..|attempts| - 1]);
    }
  }

  function CalledIds(calls: seq<PreparedLaunch>): set<Id> {
    set p | p in calls :: p.attemptID
  }

  lemma {:induction false} DistinctCalls(calls: seq<PreparedLaunch>)
    requires forall i, j :: 0 <= i < j < |calls| ==> calls[i].attemptID != calls[j].attemptID
    ensures |CalledIds(calls)| == |calls|
  {
    if calls != [] {
      var n := |calls| - 1;
      DistinctCalls(calls[..n]);
      assert calls == calls[..n] + [calls[n]];
      assert CalledIds(calls) == CalledIds(calls[..n]) + {calls[n].attemptID};
    }
  }

  lemma {:induction false} IdsOfAttempts(attempts: seq<Launch>)
    ensures |set l | l in attempts :: l.attemptID| <= |attempts|
  {
    if attempts != [] {
      var n := |attempts| - 1;
      IdsOfAttempts(attempts[..n]);
      assert attempts == attempts[..n] + [attempts[n]];
      assert (set l | l in attempts :: l.attemptID)
          == (set l | l in attempts[..n] :: l.attemptID) + {attempts[n].attemptID};
    }
  }

  lemma {:induction false} WhereDistinct(invocations: seq<PreparedLaunch>, handoffID: Id)
    requires forall i, j :: 0 <= i < j < |invocations| ==>
      invocations[i].attemptID != invocations[j].attemptID
    ensures var calls := CallsFor(invocations, handoffID);
      forall i, j :: 0 <= i < j < |calls| ==> calls[i].attemptID != calls[j].attemptID
  {
    if invocations != [] {
      var n := |invocations| - 1;
      WhereDistinct(invocations[..n], handoffID);
      var init := CallsFor(invocations[..n], handoffID);
      WhereMembers(invocations[..n], (p: PreparedLaunch) => p.handoffID == handoffID);
      forall i | 0 <= i < |init| ensures init[i].attemptID != invocations[n].attemptID {
        assert init[i] in invocations[..n];
      }
    }
  }

  /** One call per attempt: two invocations never share an attempt. */
  lemma CallsNeverShareAttempts(invocations: seq<PreparedLaunch>, launches: seq<Launch>)
    requires LaunchChain(launches) && InvocationsOk(invocations, launches)
    ensures forall i, j :: 0 <= i < j < |invocations| ==>
      invocations[i].attemptID != invocations[j].attemptID
  {
    forall i, j | 0 <= i < j < |invocations|
      ensures invocations[i].attemptID != invocations[j].attemptID
    {
      assert invocations[i] in invocations && invocations[j] in invocations;
      var k :| k in launches && Wrote(invocations[i], k);
      var l :| l in launches && Wrote(invocations[j], l);
    }
  }

  /** The launcher is invoked for a handoff at most once more than it has durably failed, however
      many launch calls overlap and wherever they crash. */
  lemma InvocationsBoundedByFailures(s: Sys, handoffID: Id)
    requires Reachable(s)
    ensures |CallsFor(s.invocations, handoffID)|
         <= Failures(Attempts(s.db.launches, handoffID)) + 1
  {
    ReachableInv(s);
    AttemptHistoryShape(s, handoffID);
    var attempts := Attempts(s.db.launches, handoffID);
    AttemptsBoundedByFailures(attempts);
    CallsWithinAttempts(s.invocations, s.db.launches, handoffID);
  }

  lemma CallsWithinAttempts(invocations: seq<PreparedLaunch>, launches: seq<Launch>, handoffID: Id)
    requires LaunchChain(launches) && InvocationsOk(invocations, launches)
    ensures |CallsFor(invocations, handoffID)| <= |Attempts(launches, handoffID)|
  {
    var calls := CallsFor(invocations, handoffID);
    var attempts := Attempts(launches, handoffID);
    CallsNeverShareAttempts(invocations, launches);
    WhereDistinct(invocations, handoffID);
    DistinctCalls(calls);
    IdsOfAttempts(attempts);
    WhereMembers(invocations, (p: PreparedLaunch) => p.handoffID == handoffID);
    WhereMembers(launches, (l: Launch) => l.handoffID == handoffID);
    forall id | id in CalledIds(calls) ensures id in (set l | l in attempts :: l.attemptID) {
      var p :| p in calls && p.attemptID == id;
      var l :| l in launches && Wrote(p, l);
      assert l in attempts;
    }
    SubsetSize(CalledIds(calls), set l | l in attempts :: l.attemptID);
  }

  // ---- never again after a completion or a lost outcome ---------------------------------------

  /** An attempt that is completed, or REQUESTED with no call left to write its outcome. */
  predicate Settles(l: Launch, live: map<Id, Call>) {
    l.status == LaunchCompleted || (l.status == Requested && l.attemptID !in live)
  }

  ghost predicate Settled(s: Sys, handoffID: Id) {
    exists l :: l in s.db.launches && l.handoffID == handoffID && Settles(l, s.live)
  }

  lemma AttemptsAppend(launches: seq<Launch>, l: Launch, handoffID: Id)
    ensures Attempts(launches + [l], handoffID)
         == Attempts(launches, handoffID) + (if l.handoffID == handoffID then [l] else [])
  {
    WhereAppend(launches, (x: Launch) => x.handoffID == handoffID, l);
  }

  lemma CallsAppend(invocations: seq<PreparedLaunch>, p: PreparedLaunch, handoffID: Id)
    ensures CallsFor(invocations + [p], handoffID)
         == CallsFor(invocations, handoffID) + (if p.handoffID == handoffID then [p] else [])
  {
    WhereAppend(invocations, (x: PreparedLaunch) => x.handoffID == handoffID, p);
  }

  /** A call in flight belongs to no settled handoff. */
  lemma LiveIsNotSettled(db: Db, live: map<Id, Call>, invocations: seq<PreparedLaunch>, id: Id,
                         l: Launch)
    requires LaunchChain(db.launches)
    requires id in live && LiveOk(id, live[id], db.launches, invocations)
    requires l in db.launches && Settles(l, live)
    ensures live[id].prepared.handoffID != l.handoffID
  {
    var k := LiveRow(db, live, invocations, id);
    LatestIsTheUnfailed(db.launches, k);
    LatestIsTheUnfailed(db.launches, l);
  }

  lemma PrepareLeavesSettled(s: Sys, e: Event, l: Launch)
    requires SysInv(s) && Enabled(s, e) && e.Prepare?
    requires l in s.db.launches && Settles(l, s.live)
    ensures var t := Apply(s, e);
      && Attempts(t.db.launches, l.handoffID) == Attempts(s.db.launches, l.handoffID)
      && t.invocations == s.invocations && l in t.db.launches && Settles(l, t.live)
  {
    var r := PrepareLaunchOn(s.db, e.taskID, e.handoffID, e.target, e.obs, e.attemptID).0;
    if r.Prepared? {
      PreparedFacts(s.db, e.taskID, e.handoffID, e.target, e.obs, e.attemptID);
      AttemptsAppend(s.db.launches, r.launch, l.handoffID);
    }
  }

  lemma OutcomeLeavesSettled(launches: seq<Launch>, i: nat, final: Launch, l: Launch)
    requires i < |launches| && l in launches
    requires launches[i].handoffID == final.handoffID != l.handoffID
    ensures Attempts(launches[i := final], l.handoffID) == Attempts(launches, l.handoffID)
    ensures l in launches[i := final]
  {
    WhereUpdate(launches, (x: Launch) => x.handoffID == l.handoffID, i, final);
    var j :| 0 <= j < |launches| && launches[j] == l;
    assert launches[i := final][j] == l;
  }

  lemma FinalizeLeavesSettled(s: Sys, e: Event, l: Launch)
    requires SysInv(s) && Enabled(s, e) && e.Finalize?
    requires l in s.db.launches && Settles(l, s.live)
    ensures var t := Apply(s, e);
      && Attempts(t.db.launches, l.handoffID) == Attempts(s.db.launches, l.handoffID)
      && t.invocations == s.invocations && l in t.db.launches && Settles(l, t.live)
  {
    var call := s.live[e.attemptID];
    LiveIsNotSettled(s.db, s.live, s.invocations, e.attemptID, l);
    var k := LiveRow(s.db, s.live, s.invocations, e.attemptID);
    var i := FinalizeWrites(s.db, call.prepared, call.output.value, e.ackID, e.receiptID, k);
    OutcomeLeavesSettled(s.db.launches, i, FinalLaunch(k, call.output.value), l);
  }

  lemma StepLeavesSettled(s: Sys, e: Event, handoffID: Id)
    requires SysInv(s) && Enabled(s, e) && Settled(s, handoffID)
    ensures Settled(Apply(s, e), handoffID)
    ensures Attempts(Apply(s, e).db.launches, handoffID) == Attempts(s.db.launches, handoffID)
    ensures CallsFor(Apply(s, e).invocations, handoffID) == CallsFor(s.invocations, handoffID)
  {
    var l :| l in s.db.launches && l.handoffID == handoffID && Settles(l, s.live);
    match e {
      case Prepare(_, _, _, _, _) => PrepareLeavesSettled(s, e, l);
      case Finalize(_, _, _) => FinalizeLeavesSettled(s, e, l);
      case Invoke(attemptID, _) =>
        LiveIsNotSettled(s.db, s.live, s.invocations, attemptID, l);
        CallsAppend(s.invocations, s.live[attemptID].prepared, handoffID);
      case _ => LaunchesOnlyByLaunchSteps(s, e);
    }
  }

  /** Once a handoff's launch is completed or its outcome is lost, no continuation of the run
      writes another attempt for it, changes one, or invokes the launcher for it again. */
  lemma {:induction false} SettledStaysSettled(s: Sys, events: seq<Event>, handoffID: Id)
    requires SysInv(s) && Runs(s, events) && Settled(s, handoffID)
    ensures Attempts(After(s, events).db.launches, handoffID) == Attempts(s.db.launches, handoffID)
    ensures CallsFor(After(s, events).invocations, handoffID) == CallsFor(s.invocations, handoffID)
    decreases |events|
  {
    if events != [] {
      StepLeavesSettled(s, events[0], handoffID);
      StepKeepsSysInv(s, events[0]);
      SettledStaysSettled(Apply(s, events[0]), events[1..], handoffID);
    }
  }
}
