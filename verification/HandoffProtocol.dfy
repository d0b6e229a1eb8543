/** The handoff protocol as a transition system: transactions are atomic steps over the store,
    the launcher is called between the prepare and the finalize transaction of a launch, any
    number of launch calls are in flight at once, and a crash may drop any of them. */
module HandoffProtocol {
  import opened Wrappers
  import opened Text
  import opened Tables
  import opened HandoffRecords
  import opened HandoffContinuity
  import opened ActiveBranch
  import opened ContinuityValidator
  import opened ContinueAssessment
  import opened HandoffInvariant
  import opened HandoffSteps
  import opened HandoffPreservation

  /** A LaunchHandoff call in flight, keyed by its attempt: prepared, or already invoked with the
      launcher's output in hand. */
  datatype Call = Call(prepared: PreparedLaunch, output: Option<LauncherOutput>)

  /** The store, the calls in flight, and the log of every launcher invocation ever made. */
  datatype Sys = Sys(db: Db, live: map<Id, Call>, invocations: seq<PreparedLaunch>)

  datatype Event =
    | Create(taskID: Id, request: CreateRequest, assessed: Assessment, packetID: Id, checkpointID: Id)
    | Accept(taskID: Id, handoffID: Id, acceptor: Worker, notes: seq<string>, now: Time)
    | Prepare(taskID: Id, handoffID: Id, target: Worker, obs: Observation, attemptID: Id)
    | Invoke(attemptID: Id, output: LauncherOutput)
    | Finalize(attemptID: Id, ackID: Id, receiptID: Id)
    | Crash(lost: set<Id>)
    | RecordFollowThrough(taskID: Id, pre: BranchRecords, kind: FollowThroughKind, summary: string,
                          recordID: Id)
    | Resolve(taskID: Id, pre: BranchRecords, handoffID: Id, resolutionKind: ResolutionKind,
              summary: string, resolutionID: Id, receiptID: Id)
    | Elsewhere(after: Db)

  /** What a step needs from outside the orchestrator: fresh ids, a launcher that keeps its
      contract, a call to work on. The orchestrator's own guards are inside Apply. */
  ghost predicate Enabled(s: Sys, e: Event) {
    match e
    case Create(_, _, _, packetID, checkpointID) =>
      FreshId(s.db, packetID) && FreshId(s.db, checkpointID)
    case Prepare(_, _, _, _, attemptID) => FreshId(s.db, attemptID)
    case Invoke(attemptID, output) =>
      attemptID in s.live && s.live[attemptID].output.None? && LauncherKeepsItsContract(output)
    case Finalize(attemptID, _, _) => attemptID in s.live && s.live[attemptID].output.Some?
    case Elsewhere(after) => Environment(s.db, after)
    case _ => true
  }

  ghost function Apply(s: Sys, e: Event): Sys
    requires Enabled(s, e)
  {
    match e
    case Create(taskID, request, pre, packetID, checkpointID) =>
      s.(db := CreateHandoffOn(s.db, taskID, request, pre, packetID, checkpointID).1)
    case Accept(taskID, handoffID, acceptor, notes, now) =>
      s.(db := AcceptHandoffOn(s.db, taskID, handoffID, acceptor, notes, now).1)
    case Prepare(taskID, handoffID, target, obs, attemptID) =>
      var (result, after) := PrepareLaunchOn(s.db, taskID, handoffID, target, obs, attemptID);
      if result.Prepared? then
        var prepared := PreparedLaunch(taskID, result.packet.handoffID, attemptID);
        s.(db := after, live := s.live[attemptID := Call(prepared, None)])
      else s
    case Invoke(attemptID, output) =>
      var call := s.live[attemptID];
      s.(live := s.live[attemptID := call.(output := Some(output))],
         invocations := s.invocations + [call.prepared])
    case Finalize(attemptID, ackID, receiptID) =>
      var call := s.live[attemptID];
      Sys(FinalizeLaunchOn(s.db, call.prepared, call.output.value, ackID, receiptID).1,
          s.live - {attemptID}, s.invocations)
    case Crash(lost) => s.(live := s.live - lost)
    case RecordFollowThrough(taskID, pre, kind, summary, recordID) =>
      s.(db := FollowThroughOn(s.db, taskID, pre, kind, summary, recordID).1)
    case Resolve(taskID, pre, handoffID, kind, summary, resolutionID, receiptID) =>
      s.(db := ResolveOn(s.db, taskID, pre, handoffID, kind, summary, resolutionID, receiptID).1)
    case Elsewhere(after) => s.(db := after)
  }

  ghost predicate Initial(s: Sys) {
    && s.live == map[] && s.invocations == []
    && "" !in s.db.briefs
    && (forall t :: t in s.db.capsules ==> s.db.capsules[t].taskID == t)
    && CheckpointsOk(s.db.checkpoints)
    && s.db.packets == [] && s.db.launches == [] && s.db.acks == []
    && s.db.followThroughs == [] && s.db.resolutions == []
  }

  /** The events can happen one after the other. */
  ghost predicate Runs(s: Sys, events: seq<Event>)
    decreases |events|
  {
    events == [] || (Enabled(s, events[0]) && Runs(Apply(s, events[0]), events[1..]))
  }

  ghost function After(s: Sys, events: seq<Event>): Sys
    requires Runs(s, events)
    decreases |events|
  {
    if events == [] then s else After(Apply(s, events[0]), events[1..])
  }

  ghost predicate Reachable(s: Sys) {
    exists start: Sys, events: seq<Event> ::
      Initial(start) && Runs(start, events) && After(start, events) == s
  }

  // ---- the invariant of the whole system ------------------------------------------------------

  /** A call in flight owns a REQUESTED attempt, and it has invoked the launcher exactly when its
      output is in hand. */
  ghost predicate LiveOk(id: Id, call: Call, launches: seq<Launch>,
                         invocations: seq<PreparedLaunch>)
  {
    && call.prepared.attemptID == id
    && (exists l :: l in launches && l.status == Requested && Wrote(call.prepared, l))
    && (call.output.None? ==> call.prepared !in invocations)
    && (call.output.Some? ==> LauncherKeepsItsContract(call.output.value))
  }

  ghost predicate InvocationsOk(invocations: seq<PreparedLaunch>, launches: seq<Launch>) {
    && (forall p :: p in invocations ==> exists l :: l in launches && Wrote(p, l))
    && (forall i, j :: 0 <= i < j < |invocations| ==> invocations[i] != invocations[j])
  }

  ghost predicate SysInv(s: Sys) {
    && Inv(s.db)
    && (forall id :: id in s.live ==> LiveOk(id, s.live[id], s.db.launches, s.invocations))
    && InvocationsOk(s.invocations, s.db.launches)
  }

  /** The attempts a step leaves behind: old rows keep their identity, and only the attempt a
      finalize works on changes status. */
  ghost predicate Grown(launches: seq<Launch>, after: seq<Launch>) {
    && |launches| <= |after|
    && forall i :: 0 <= i < |launches| ==>
         && after[i].attemptID == launches[i].attemptID
         && after[i].handoffID == launches[i].handoffID
         && after[i].taskID == launches[i].taskID
  }

  lemma GrownInvocations(invocations: seq<PreparedLaunch>, launches: seq<Launch>,
                         after: seq<Launch>)
    requires InvocationsOk(invocations, launches) && Grown(launches, after)
    ensures InvocationsOk(invocations, after)
  {
    forall p | p in invocations ensures exists l :: l in after && Wrote(p, l) {
      var i :| 0 <= i < |launches| && Wrote(p, launches[i]);
      assert after[i] in after;
    }
  }

  lemma DbStepKeepsInv(s: Sys, e: Event)
    requires SysInv(s) && Enabled(s, e)
    ensures Inv(Apply(s, e).db)
  {
    match e {
      case Create(taskID, request, pre, packetID, checkpointID) =>
        CreateKeepsInv(s.db, taskID, request, pre, packetID, checkpointID);
      case Accept(taskID, handoffID, acceptor, notes, now) =>
        AcceptKeepsInv(s.db, taskID, handoffID, acceptor, notes, now);
      case Prepare(taskID, handoffID, target, obs, attemptID) =>
        PrepareKeepsInv(s.db, taskID, handoffID, target, obs, attemptID);
      case Finalize(attemptID, ackID, receiptID) =>
        assert LiveOk(attemptID, s.live[attemptID], s.db.launches, s.invocations);
        FinalizeKeepsInv(s.db, s.live[attemptID].prepared, s.live[attemptID].output.value, ackID,
                         receiptID);
      case RecordFollowThrough(taskID, pre, kind, summary, recordID) =>
        FollowThroughKeepsInv(s.db, taskID, pre, kind, summary, recordID);
      case Resolve(taskID, pre, handoffID, kind, summary, resolutionID, receiptID) =>
        ResolveKeepsInv(s.db, taskID, pre, handoffID, kind, summary, resolutionID, receiptID);
      case Elsewhere(after) => EnvironmentKeepsInv(s.db, after);
      case _ =>
    }
  }

  /** Only prepare and finalize write attempts. */
  lemma LaunchesOnlyByLaunchSteps(s: Sys, e: Event)
    requires Enabled(s, e) && !e.Prepare? && !e.Finalize?
    ensures Apply(s, e).db.launches == s.db.launches
  {
  }

  lemma PrepareKeepsSys(s: Sys, e: Event)
    requires SysInv(s) && Enabled(s, e) && e.Prepare?
    ensures SysInv(Apply(s, e))
  {
    DbStepKeepsInv(s, e);
    var t := Apply(s, e);
    var (result, after) :=
      PrepareLaunchOn(s.db, e.taskID, e.handoffID, e.target, e.obs, e.attemptID);
    if result.Prepared? {
      PreparedFacts(s.db, e.taskID, e.handoffID, e.target, e.obs, e.attemptID);
      GrownInvocations(s.invocations, s.db.launches, t.db.launches);
      var prepared := PreparedLaunch(e.taskID, result.packet.handoffID, e.attemptID);
      assert result.launch in t.db.launches && Wrote(prepared, result.launch);
      forall id | id in t.live ensures LiveOk(id, t.live[id], t.db.launches, t.invocations) {
        if id != e.attemptID {
          assert LiveOk(id, s.live[id], s.db.launches, s.invocations);
        }
      }
    }
  }

  /** The row a call in flight finalizes is its own, and it finds it still REQUESTED. */
  lemma LiveRow(db: Db, live: map<Id, Call>, invocations: seq<PreparedLaunch>, id: Id)
    returns (l: Launch)
    requires LaunchChain(db.launches)
    requires id in live && LiveOk(id, live[id], db.launches, invocations)
    ensures l in db.launches && l.status == Requested && Wrote(live[id].prepared, l)
    ensures GetLaunch(db.launches, id) == Some(l)
  {
    l :| l in db.launches && l.status == Requested && Wrote(live[id].prepared, l);
    GetLaunchIs(db.launches, l);
  }

  /** Another call's attempt is untouched by the outcome. */
  lemma OtherCallsKept(id: Id, call: Call, launches: seq<Launch>, invocations: seq<PreparedLaunch>,
                       i: nat, final: Launch)
    requires LiveOk(id, call, launches, invocations)
    requires i < |launches| && launches[i].attemptID != id
    ensures LiveOk(id, call, launches[i := final], invocations)
  {
    var j :| 0 <= j < |launches| && launches[j].status == Requested && Wrote(call.prepared, launches[j]);
    assert launches[i := final][j] == launches[j];
  }

  /** A finalize transaction changes at most the row of its own attempt. */
  lemma FinalizeWrites(db: Db, prepared: PreparedLaunch, out: LauncherOutput, ackID: Id,
                       receiptID: Id, l: Launch) returns (i: nat)
    requires LaunchChain(db.launches)
    requires l in db.launches && l.status == Requested && Wrote(prepared, l)
    ensures i < |db.launches| && db.launches[i] == l
    ensures FinalizeLaunchOn(db, prepared, out, ackID, receiptID).1.launches ==
      if prepared.taskID in db.capsules then db.launches[i := FinalLaunch(l, out)] else db.launches
  {
    GetLaunchIs(db.launches, l);
    i := OutcomeRow(db.launches, l, out);
  }

  lemma LivesKept(live: map<Id, Call>, launches: seq<Launch>, invocations: seq<PreparedLaunch>,
                  done: Id, i: nat, final: Launch)
    requires forall id :: id in live ==> LiveOk(id, live[id], launches, invocations)
    requires InvocationsOk(invocations, launches)
    requires i < |launches| && launches[i].attemptID == done
    requires final.attemptID == done && final.handoffID == launches[i].handoffID
             && final.taskID == launches[i].taskID
    ensures forall id :: id in live - {done} ==> LiveOk(id, live[id], launches[i := final], invocations)
    ensures InvocationsOk(invocations, launches[i := final])
  {
    GrownInvocations(invocations, launches, launches[i := final]);
    forall id | id in live && id != done
      ensures LiveOk(id, live[id], launches[i := final], invocations)
    {
      OtherCallsKept(id, live[id], launches, invocations, i, final);
    }
  }

  lemma FinalizeKeepsSys(s: Sys, e: Event)
    requires SysInv(s) && Enabled(s, e) && e.Finalize?
    ensures SysInv(Apply(s, e))
  {
    DbStepKeepsInv(s, e);
    var call := s.live[e.attemptID];
    var l := LiveRow(s.db, s.live, s.invocations, e.attemptID);
    var i := FinalizeWrites(s.db, call.prepared, call.output.value, e.ackID, e.receiptID, l);
    LivesKept(s.live, s.db.launches, s.invocations, e.attemptID, i, FinalLaunch(l, call.output.value));
  }

  lemma InvocationLogged(live: map<Id, Call>, launches: seq<Launch>,
                         invocations: seq<PreparedLaunch>, id: Id, output: LauncherOutput)
    requires forall k :: k in live ==> LiveOk(k, live[k], launches, invocations)
    requires InvocationsOk(invocations, launches)
    requires id in live && live[id].output.None? && LauncherKeepsItsContract(output)
    ensures var after := live[id := live[id].(output := Some(output))];
      var logged := invocations + [live[id].prepared];
      && (forall k :: k in after ==> LiveOk(k, after[k], launches, logged))
      && InvocationsOk(logged, launches)
  {
    assert LiveOk(id, live[id], launches, invocations);
    var after := live[id := live[id].(output := Some(output))];
    var logged := invocations + [live[id].prepared];
    forall p | p in logged ensures exists l :: l in launches && Wrote(p, l) {
    }
    forall k | k in after ensures LiveOk(k, after[k], launches, logged) {
      assert LiveOk(k, live[k], launches, invocations);
    }
  }

  lemma InvokeKeepsSys(s: Sys, e: Event)
    requires SysInv(s) && Enabled(s, e) && e.Invoke?
    ensures SysInv(Apply(s, e))
  {
    InvocationLogged(s.live, s.db.launches, s.invocations, e.attemptID, e.output);
  }

  /** Every step keeps the system invariant. */
  lemma StepKeepsSysInv(s: Sys, e: Event)
    requires SysInv(s) && Enabled(s, e)
    ensures SysInv(Apply(s, e))
  {
    match e {
      case Prepare(_, _, _, _, _) => PrepareKeepsSys(s, e);
      case Finalize(_, _, _) => FinalizeKeepsSys(s, e);
      case Invoke(_, _) => InvokeKeepsSys(s, e);
      case _ =>
        DbStepKeepsInv(s, e);
        LaunchesOnlyByLaunchSteps(s, e);
        var t := Apply(s, e);
        forall id | id in t.live ensures LiveOk(id, t.live[id], t.db.launches, t.invocations) {
          assert LiveOk(id, s.live[id], s.db.launches, s.invocations);
        }
    }
  }

  lemma {:induction false} RunKeepsSysInv(s: Sys, events: seq<Event>)
    requires SysInv(s) && Runs(s, events)
    ensures SysInv(After(s, events))
    decreases |events|
  {
    if events != [] {
      StepKeepsSysInv(s, events[0]);
      RunKeepsSysInv(Apply(s, events[0]), events[1..]);
    }
  }

  lemma InitialInv(s: Sys)
    requires Initial(s)
    ensures SysInv(s)
  {
  }

  lemma ReachableInv(s: Sys)
    requires Reachable(s)
    ensures SysInv(s)
  {
    var start, events :| Initial(start) && Runs(start, events) && After(start, events) == s;
    InitialInv(start);
    RunKeepsSysInv(start, events);
  }
}
