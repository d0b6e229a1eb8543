/** The execution plan (operator_execution_plan.go): the step the operator is told to take next,
    its alternatives, and why the step can be taken. */
module ExecutionPlan {
  import opened Wrappers
  import opened Text
  import opened Tables
  import opened HandoffRecords
  import opened HandoffContinuity
  import opened ActiveBranch
  import opened ContinueAssessment
  import opened HandoffInvariant
  import opened HandoffSteps
  import opened HandoffTheorems
  import opened HandoffProtocol
  import opened Recovery
  import RecoveryMachine
  import opened Authority
  import opened OperatorTruth

  datatype PlanStep = PlanStep(action: OperatorAction, state: AuthorityState)

  const CLAUDE_ORDER: seq<OperatorAction> :=
    [ResolveActiveHandoff, LaunchAcceptedHandoff, ReviewHandoffFollowUp, ResumeLineage,
     FinalizeContinue, StartLocalRun, ReconcileStale, InspectFailed, ExecuteRebrief, LocalMessage,
     CreateCheckpoint]

  const LOCAL_ORDER: seq<OperatorAction> :=
    [ResumeLineage, FinalizeContinue, StartLocalRun, ReconcileStale, InspectFailed,
     ExecuteRebrief, LocalMessage, CreateCheckpoint, LaunchAcceptedHandoff, ResolveActiveHandoff,
     ReviewHandoffFollowUp]

  const SECONDARY_ORDER: seq<OperatorAction> :=
    [ResolveActiveHandoff, LaunchAcceptedHandoff, ResumeLineage, FinalizeContinue, StartLocalRun,
     ReconcileStale, InspectFailed, ExecuteRebrief, LocalMessage, CreateCheckpoint]

  const BLOCKED_ORDER: seq<OperatorAction> :=
    [LocalMessage, CreateCheckpoint, StartLocalRun, ResumeLineage]

  function Order(branch: Branch): seq<OperatorAction> {
    if branch.owner == ClaudeBranch then CLAUDE_ORDER else LOCAL_ORDER
  }

  /** The first action of an order that is allowed. */
  function FirstAllowed(f: OperatorAction -> Entry, order: seq<OperatorAction>)
    : (r: Option<OperatorAction>)
    ensures r.None? <==> forall i :: 0 <= i < |order| ==> f(order[i]).state != Allowed
    ensures r.Some? ==> f(r.value).state == Allowed && r.value in order
  {
    if order == [] then None
    else if f(order[0]).state == Allowed then Some(order[0])
    else
      assert forall i :: 1 <= i < |order| ==> order[i] == order[1..][i - 1];
      FirstAllowed(f, order[1..])
  }

  /** An action is first when it is allowed and nothing before it is. */
  lemma {:induction false} FirstAllowedIs(f: OperatorAction -> Entry, order: seq<OperatorAction>,
                                          i: nat)
    requires i < |order| && f(order[i]).state == Allowed
    requires forall j :: 0 <= j < i ==> f(order[j]).state != Allowed
    ensures FirstAllowed(f, order) == Some(order[i])
  {
    if i > 0 {
      FirstAllowedIs(f, order[1..], i - 1);
    }
  }

  /** The step the plan puts first. */
  function Primary(f: OperatorAction -> Entry, required: OperatorAction, branch: Branch)
    : Option<PlanStep>
  {
    if required != NoAction then Some(PlanStep(required, f(required).state))
    else
      var first := FirstAllowed(f, Order(branch));
      if first.Some? then Some(PlanStep(first.value, Allowed)) else None
  }

  function AtMost<T>(s: seq<T>, n: nat): seq<T> {
    if |s| <= n then s else s[..n]
  }

  function Wanted(f: OperatorAction -> Entry, primary: Option<PlanStep>, state: AuthorityState)
    : OperatorAction -> bool
  {
    action => !(primary.Some? && primary.value.action == action) && f(action).state == state
  }

  /** The first `limit` actions of an order in a given state, the first step excepted. */
  function Picked(f: OperatorAction -> Entry, order: seq<OperatorAction>,
                  primary: Option<PlanStep>, state: AuthorityState, limit: nat)
    : seq<OperatorAction>
  {
    AtMost(Where(order, Wanted(f, primary, state)), limit)
  }

  /** At most two allowed alternatives, in order of preference. */
  function Secondary(f: OperatorAction -> Entry, primary: Option<PlanStep>): seq<OperatorAction> {
    Picked(f, SECONDARY_ORDER, primary, Allowed, 2)
  }

  /** At most three barred basics. */
  function BlockedSteps(f: OperatorAction -> Entry): seq<OperatorAction> {
    Picked(f, BLOCKED_ORDER, None, Barred, 3)
  }

  // ---- the plan, read off the authority set ---------------------------------------------------

  method Lookup(authorities: AuthoritySet, ghost f: OperatorAction -> Entry, action: OperatorAction)
    returns (entry: Option<Entry>)
    requires authorities.Holds(f)
    ensures entry == if action == NoAction then None else Some(f(action))
  {
    entry := authorities.Find(action);
  }

  /** primaryExecutionStep */
  method PrimaryExecutionStep(authorities: AuthoritySet, branch: Branch,
                              ghost f: OperatorAction -> Entry)
    returns (step: Option<PlanStep>)
    requires authorities.Holds(f) && forall action :: f(action).action == action
    ensures step == Primary(f, authorities.requiredNext, branch)
  {
    if authorities.requiredNext != NoAction {
      var entry := Lookup(authorities, f, authorities.requiredNext);
      if entry.Some? {
        return Some(PlanStep(entry.value.action, entry.value.state));
      }
    }
    var order := CLAUDE_ORDER;
    if branch.owner != ClaudeBranch {
      order := LOCAL_ORDER;
    }
    for k := 0 to |order|
      invariant forall j :: 0 <= j < k ==> f(order[j]).state != Allowed
    {
      assert order[k] != NoAction;
      var entry := Lookup(authorities, f, order[k]);
      if entry.None? || entry.value.state != Allowed {
        continue;
      }
      FirstAllowedIs(f, order, k);
      return Some(PlanStep(order[k], entry.value.state));
    }
    step := None;
  }

  /** One more row of a prefix. */
  lemma {:induction false} WhereStep(order: seq<OperatorAction>, wanted: OperatorAction -> bool, k: nat)
    requires k < |order|
    ensures Where(order[..k + 1], wanted)
         == Where(order[..k], wanted) + (if wanted(order[k]) then [order[k]] else [])
    ensures Where(order[..k + 1], wanted) <= Where(order, wanted)
  {
    assert order[..k + 1] == order[..k] + [order[k]];
    WhereAppend(order[..k], wanted, order[k]);
    WherePrefix(order, wanted, k + 1);
  }

  method IsWanted(authorities: AuthoritySet, action: OperatorAction, primary: Option<PlanStep>,
                  state: AuthorityState, ghost f: OperatorAction -> Entry)
    returns (yes: bool)
    requires authorities.Holds(f) && action != NoAction
    ensures yes == Wanted(f, primary, state)(action)
  {
    if primary.Some? && action == primary.value.action {
      return false;
    }
    var entry := Lookup(authorities, f, action);
    yes := entry.Some? && entry.value.state == state;
  }

  /** The scan both lists are built by: it stops at the limit. */
  method Collect(authorities: AuthoritySet, order: seq<OperatorAction>,
                 primary: Option<PlanStep>, state: AuthorityState, limit: nat,
                 ghost f: OperatorAction -> Entry)
    returns (steps: seq<OperatorAction>)
    requires authorities.Holds(f) && NoAction !in order && limit > 0
    ensures steps == Picked(f, order, primary, state, limit)
  {
    ghost var wanted := Wanted(f, primary, state);
    steps := [];
    for k := 0 to |order|
      invariant steps == Where(order[..k], wanted) && |steps| < limit
    {
      WhereStep(order, wanted, k);
      var yes := IsWanted(authorities, order[k], primary, state, f);
      if !yes {
        continue;
      }
      steps := steps + [order[k]];
      if |steps| == limit {
        return;
      }
    }
    assert order[..|order|] == order;
  }

  /** secondaryExecutionSteps */
  method SecondaryExecutionSteps(authorities: AuthoritySet, primary: Option<PlanStep>,
                                 ghost f: OperatorAction -> Entry)
    returns (steps: seq<OperatorAction>)
    requires authorities.Holds(f)
    ensures steps == Secondary(f, primary)
  {
    steps := Collect(authorities, SECONDARY_ORDER, primary, Allowed, 2, f);
  }

  /** blockedExecutionSteps */
  method BlockedExecutionSteps(authorities: AuthoritySet, ghost f: OperatorAction -> Entry)
    returns (steps: seq<OperatorAction>)
    requires authorities.Holds(f)
    ensures steps == BlockedSteps(f)
  {
    steps := Collect(authorities, BLOCKED_ORDER, None, Barred, 3, f);
  }

  /** The entries of a posture's authority set. */
  function Entries(p: Posture): OperatorAction -> Entry {
    action => EntryFor(p, action)
  }

  /** The first step for a posture. */
  function PrimaryOf(p: Posture): Option<PlanStep> {
    Primary(Entries(p), FromAdvice(p.r.advice), p.branch)
  }

  /** Entries as the table gives them. */
  ghost predicate Tabled(f: OperatorAction -> Entry, p: Posture) {
    forall action :: action != NoAction ==> f(action) == Table(p, action)
  }

  lemma EntriesTabled(p: Posture)
    requires Coherent(p.r)
    ensures Tabled(Entries(p), p)
  {
    forall action | action != NoAction ensures Entries(p)(action) == Table(p, action) {
      OverwritesLeaveTable(p, action);
    }
  }

  // ---- there is always advice -----------------------------------------------------------------

  /** All the table ever allows without requiring it. */
  lemma AllowedMeans(p: Posture, action: OperatorAction)
    requires action != NoAction
    ensures Table(p, action).state == Allowed ==>
      || (p.branch.owner != ClaudeBranch && (action == LocalMessage || action == CreateCheckpoint))
      || (p.branch.owner == ClaudeBranch && ActiveState(p.state)
          && (action == ResolveActiveHandoff || action == LaunchAcceptedHandoff))
  {
  }

  lemma InOrder(branch: Branch, action: OperatorAction)
    requires action in Order(branch)
    ensures action != NoAction
  {
  }

  lemma FirstMeans(f: OperatorAction -> Entry, p: Posture)
    requires Tabled(f, p) && FirstAllowed(f, Order(p.branch)).Some?
    ensures var action := FirstAllowed(f, Order(p.branch)).value;
      || (p.branch.owner != ClaudeBranch && (action == LocalMessage || action == CreateCheckpoint))
      || (p.branch.owner == ClaudeBranch && ActiveState(p.state)
          && (action == ResolveActiveHandoff || action == LaunchAcceptedHandoff))
  {
    var action := FirstAllowed(f, Order(p.branch)).value;
    InOrder(p.branch, action);
    AllowedMeans(p, action);
  }

  /** Nothing required: under an active Claude branch resolving comes first, otherwise local work
      is offered, otherwise nothing. */
  lemma FallbackIs(f: OperatorAction -> Entry, p: Posture)
    requires Tabled(f, p) && FromAdvice(p.r.advice) == NoAction
    ensures FirstAllowed(f, Order(p.branch)) ==
      if p.branch.owner == ClaudeBranch then
        if ActiveState(p.state) then Some(ResolveActiveHandoff) else None
      else Some(LocalMessage)
  {
    if p.branch.owner == ClaudeBranch {
      if ActiveState(p.state) {
        assert f(ResolveActiveHandoff) == Table(p, ResolveActiveHandoff);
        FirstAllowedIs(f, CLAUDE_ORDER, 0);
      } else if FirstAllowed(f, Order(p.branch)).Some? {
        FirstMeans(f, p);
      }
    } else {
      assert f(LocalMessage) == Table(p, LocalMessage);
      forall j | 0 <= j < 6 ensures f(LOCAL_ORDER[j]).state != Allowed {
        AllowedMeans(p, LOCAL_ORDER[j]);
      }
      FirstAllowedIs(f, LOCAL_ORDER, 6);
    }
  }

  /** The plan has no first step exactly when a Claude packet is assessed that no longer has an
      active posture, and the class asks for nothing. */
  lemma PrimaryMissingIff(p: Posture)
    requires Coherent(p.r)
    ensures PrimaryOf(p).None? <==>
      && FromAdvice(p.r.advice) == NoAction
      && p.branch.owner == ClaudeBranch && !ActiveState(p.state)
  {
    EntriesTabled(p);
    MissingIff(Entries(p), p);
  }

  lemma MissingIff(f: OperatorAction -> Entry, p: Posture)
    requires Tabled(f, p)
    ensures Primary(f, FromAdvice(p.r.advice), p.branch).None? <==>
      && FromAdvice(p.r.advice) == NoAction
      && p.branch.owner == ClaudeBranch && !ActiveState(p.state)
  {
    if FromAdvice(p.r.advice) == NoAction {
      FallbackIs(f, p);
    }
  }

  /** In a consistent store the assessed branch is Claude's only with an active posture. */
  lemma PostureInStore(db: Db, taskID: Id, obs: Observation)
    requires Inv(db) && taskID in db.capsules
    ensures var p := PostureOf(Assess(db, taskID, obs));
      && Coherent(p.r)
      && (p.branch.owner == ClaudeBranch <==> ActivePacket(db, taskID).Some?)
      && (p.branch.owner == ClaudeBranch ==> ActiveState(p.state))
      && p.state == ContinuityOf(RecordsOf(db, taskID)).state
  {
    ClassDecides(Assess(db, taskID, obs));
    ActiveContinuity(db, taskID);
  }

  /** In every reachable state the operator is told a next step. */
  lemma AlwaysAStep(s: Sys, taskID: Id, obs: Observation)
    requires Reachable(s) && taskID in s.db.capsules
    ensures PrimaryOf(PostureOf(Assess(s.db, taskID, obs))).Some?
  {
    ReachableInv(s);
    PostureInStore(s.db, taskID, obs);
    PrimaryMissingIff(PostureOf(Assess(s.db, taskID, obs)));
  }

  // ---- the advice can be followed -------------------------------------------------------------

  /** The local executions are advised only as the required step, never as a fallback. */
  lemma OnlyWhenRequired(f: OperatorAction -> Entry, p: Posture)
    requires Tabled(f, p)
    requires var step := Primary(f, FromAdvice(p.r.advice), p.branch);
      step.Some? && step.value.action in {ResumeLineage, FinalizeContinue, ExecuteRebrief,
                                          StartLocalRun}
    ensures Primary(f, FromAdvice(p.r.advice), p.branch).value.action == FromAdvice(p.r.advice)
  {
    if FromAdvice(p.r.advice) == NoAction {
      FallbackIs(f, p);
    }
  }

  /** For every assessment: when the plan's first step is an interrupted resume, a continue
      finalization, a rebrief or a run start, the guard of that execution holds. */
  lemma LocalAdviceExecutable(a: Assessment, explained: bool)
    requires PrimaryOf(PostureOf(a)).Some?
    ensures var action := PrimaryOf(PostureOf(a)).value.action;
      var r := Recover(a);
      && (action == ResumeLineage ==> RecoveryMachine.ResumeGuard(r))
      && (action == FinalizeContinue ==> RecoveryMachine.ContinueGuard(a, r))
      && (action == ExecuteRebrief ==> RecoveryMachine.RebriefGuard(a, r))
      && (action == StartLocalRun ==>
            RunStartEligible(r, EntryFor(PostureOf(a), StartLocalRun).state, explained))
  {
    var p := PostureOf(a);
    ClassDecides(a);
    PendingDecisionBehindClass(a);
    EntriesTabled(p);
    if PrimaryOf(p).value.action in {ResumeLineage, FinalizeContinue, ExecuteRebrief,
                                     StartLocalRun}
    {
      OnlyWhenRequired(Entries(p), p);
      AdviceFixesClass(p.r);
      RunStartIffReady(p, explained);
    }
  }

  /** When the execution that is advised commits, on tables whose version has not moved: a resume
      and a continue finalization exactly when the capsule's brief exists, a rebrief exactly when
      the newest intent fits as well. */
  lemma AdvisedCommitsIff(l: RecoveryMachine.Ledger, a: Assessment, summary: string,
                          notes: seq<string>, intent: Option<Id>, newBriefID: Id, id: Id)
    requires PrimaryOf(PostureOf(a)).Some? && RecoveryMachine.Unmoved(l, a)
    ensures var action := PrimaryOf(PostureOf(a)).value.action;
      var r := Recover(a);
      var capsule := l.capsules[a.taskID];
      && (action == ResumeLineage ==>
            (RecoveryMachine.ResumeOn(l, a, r, summary, notes, id).0.Committed? <==>
             capsule.briefID in l.briefs))
      && (action == FinalizeContinue ==>
            (RecoveryMachine.ContinueOn(l, a, r, id).0.Committed? <==> capsule.briefID in l.briefs))
      && (action == ExecuteRebrief ==>
            (RecoveryMachine.RebriefOn(l, a, r, intent, newBriefID).0.Committed? <==>
             capsule.briefID in l.briefs && RecoveryMachine.FitsIntent(intent, capsule)))
  {
    LocalAdviceExecutable(a, true);
    CommitsIff(l, a, Recover(a), summary, notes, intent, newBriefID, id);
  }

  lemma CommitsIff(l: RecoveryMachine.Ledger, a: Assessment, r: Assessed, summary: string,
                   notes: seq<string>, intent: Option<Id>, newBriefID: Id, id: Id)
    requires RecoveryMachine.Unmoved(l, a)
    ensures var capsule := l.capsules[a.taskID];
      && (RecoveryMachine.ResumeOn(l, a, r, summary, notes, id).0.Committed? <==>
            RecoveryMachine.ResumeGuard(r) && capsule.briefID in l.briefs)
      && (RecoveryMachine.ContinueOn(l, a, r, id).0.Committed? <==>
            RecoveryMachine.ContinueGuard(a, r) && capsule.briefID in l.briefs)
      && (RecoveryMachine.RebriefOn(l, a, r, intent, newBriefID).0.Committed? <==>
            RecoveryMachine.RebriefGuard(a, r) && capsule.briefID in l.briefs
            && RecoveryMachine.FitsIntent(intent, capsule))
  {
  }

  /** The observation reports a capsule whose brief is missing, as validateContinuitySnapshot does. */
  predicate ReportsBrief(db: Db, taskID: Id, obs: Observation)
    requires taskID in db.capsules
  {
    !obs.otherIssues ==> db.capsules[taskID].briefID in db.briefs
  }

  lemma InconsistentClass(a: Assessment)
    requires a.outcome == BlockedInconsistent
    ensures Recover(a).cls == RepairRequired || Recover(a).cls == RebriefRequired
  {
  }

  /** With such an observation an advised resume or continue finalization always commits: where the
      brief is missing, neither is advised. */
  lemma AdvisedResumeCommits(db: Db, taskID: Id, obs: Observation, summary: string,
                             notes: seq<string>, id: Id)
    requires taskID in db.capsules && ReportsBrief(db, taskID, obs)
    requires PrimaryOf(PostureOf(Assess(db, taskID, obs))).Some?
    ensures var a := Assess(db, taskID, obs);
      var l := RecoveryMachine.Ledger(db.capsules, db.briefs, db.actions);
      var action := PrimaryOf(PostureOf(a)).value.action;
      && (action == ResumeLineage ==>
            RecoveryMachine.ResumeOn(l, a, Recover(a), summary, notes, id).0.Committed?)
      && (action == FinalizeContinue ==>
            RecoveryMachine.ContinueOn(l, a, Recover(a), id).0.Committed?)
  {
    var a := Assess(db, taskID, obs);
    var l := RecoveryMachine.Ledger(db.capsules, db.briefs, db.actions);
    LocalAdviceExecutable(a, true);
    CommitsIff(l, a, Recover(a), summary, notes, None, "", id);
    if a.outcome == BlockedInconsistent {
      InconsistentClass(a);
    }
  }

  /** A capsule whose brief is gone, under a decision to regenerate it: the plan says rebrief, the
      executor refuses. */
  lemma RebriefAdvisedInVain() returns (db: Db, obs: Observation)
    ensures "task" in db.capsules && ReportsBrief(db, "task", obs)
    ensures var a := Assess(db, "task", obs);
      var l := RecoveryMachine.Ledger(db.capsules, db.briefs, db.actions);
      && PrimaryOf(PostureOf(a)) == Some(PlanStep(ExecuteRebrief, RequiredNext))
      && forall intent, brief :: RecoveryMachine.RebriefOn(l, a, Recover(a), intent, brief).0.Rejected?
  {
    var capsule := Capsule("task", 1, Blocked, "", "gone", RepoAnchor("", "", "", "", "", ""));
    var decision := Action("act", "task", DecisionRegenerateBrief, "", "", "", "", "", []);
    db := Db(map["task" := capsule], {}, [], [], [], [], [], [], [], [decision], []);
    obs := Observation(true, DriftNone);
    var a := Assess(db, "task", obs);
    assert LatestAction(db.actions, "task") == Some(decision);
    RebriefIsFirst(a);
  }

  /** An inconsistent task under a decision to regenerate its brief is told to rebrief. */
  lemma RebriefIsFirst(a: Assessment)
    requires a.outcome == BlockedInconsistent
    requires a.latestAction.Some? && a.latestAction.value.kind == DecisionRegenerateBrief
    ensures PrimaryOf(PostureOf(a)) == Some(PlanStep(ExecuteRebrief, RequiredNext))
  {
    ClassDecides(a);
    InconsistentClass(a);
    RegenerateDecisionPersists(a);
    EntriesTabled(PostureOf(a));
    RequiredIsFirst(Entries(PostureOf(a)), PostureOf(a));
  }

  lemma RequiredIsFirst(f: OperatorAction -> Entry, p: Posture)
    requires Tabled(f, p) && FromAdvice(p.r.advice) != NoAction
    ensures Primary(f, FromAdvice(p.r.advice), p.branch)
         == Some(PlanStep(FromAdvice(p.r.advice), RequiredNext))
  {
    assert f(FromAdvice(p.r.advice)) == Table(p, FromAdvice(p.r.advice));
  }

  lemma AdviceFixesClass(r: Assessed)
    requires Coherent(r)
    ensures FromAdvice(r.advice) == ResumeLineage <==> r.cls == InterruptedRunRecoverable
    ensures FromAdvice(r.advice) == FinalizeContinue <==> r.cls == ContinueExecutionRequired
    ensures FromAdvice(r.advice) == ExecuteRebrief <==> r.cls == RebriefRequired
    ensures FromAdvice(r.advice) == StartLocalRun <==> r.cls == ReadyNextRun
    ensures FromAdvice(r.advice) == LaunchAcceptedHandoff <==> r.cls == AcceptedHandoffLaunchReady
    ensures FromAdvice(r.advice) != ResolveActiveHandoff
  {
  }

  /** Launching is advised only as the required step: as a fallback, resolving comes first. */
  lemma LaunchOnlyWhenRequired(f: OperatorAction -> Entry, p: Posture)
    requires Tabled(f, p)
    requires var step := Primary(f, FromAdvice(p.r.advice), p.branch);
      step.Some? && step.value.action == LaunchAcceptedHandoff
    ensures FromAdvice(p.r.advice) == LaunchAcceptedHandoff
  {
    if FromAdvice(p.r.advice) == NoAction {
      FallbackIs(f, p);
    }
  }

  /** In every reachable state, an advised launch is one the launch transaction accepts. */
  lemma LaunchAdviceExecutable(s: Sys, taskID: Id, obs: Observation)
    requires Reachable(s) && taskID in s.db.capsules
    requires var primary := PrimaryOf(PostureOf(Assess(s.db, taskID, obs)));
      primary.Some? && primary.value.action == LaunchAcceptedHandoff
    ensures ActivePacket(s.db, taskID).Some?
    ensures LaunchPermitted(s.db, taskID, ActivePacket(s.db, taskID).value, Unset, obs)
  {
    ReachableInv(s);
    var a := Assess(s.db, taskID, obs);
    ClassDecides(a);
    EntriesTabled(PostureOf(a));
    LaunchOnlyWhenRequired(Entries(PostureOf(a)), PostureOf(a));
    AdviceFixesClass(Recover(a));
    LaunchReadyMeans(a);
    ActivePermitted(s.db, taskID, obs);
  }

  /** The launch-ready class needs a safe outcome and a branch that waits for its launch. */
  lemma LaunchReadyMeans(a: Assessment)
    requires Recover(a).cls == AcceptedHandoffLaunchReady
    ensures a.outcome == Safe
    ensures ContinuityOf(a.branch).state in {AcceptedNotLaunched, FailedRetryable}
  {
    ProgressKeepsLaunchReady(Base(a));
    VerdictLaunchReady(Opened(a), a.branch);
  }

  lemma ProgressKeepsLaunchReady(r: Assessed)
    requires Progress(r).cls == AcceptedHandoffLaunchReady
    ensures r.cls == AcceptedHandoffLaunchReady
  {
  }

  lemma VerdictLaunchReady(r: Assessed, branch: BranchRecords)
    ensures var v := HandoffVerdict(r, branch);
      v.Some? && v.value.cls == AcceptedHandoffLaunchReady ==>
        ContinuityOf(branch).state in {AcceptedNotLaunched, FailedRetryable}
  {
  }

  lemma ActivePermitted(db: Db, taskID: Id, obs: Observation)
    requires Inv(db) && taskID in db.capsules
    requires Assess(db, taskID, obs).outcome == Safe
    requires ContinuityOf(RecordsOf(db, taskID)).state in {AcceptedNotLaunched, FailedRetryable}
    ensures ActivePacket(db, taskID).Some?
    ensures LaunchPermitted(db, taskID, ActivePacket(db, taskID).value, Unset, obs)
  {
    ActiveContinuity(db, taskID);
    var p := ActivePacket(db, taskID).value;
    assert PacketOk(p, db.briefs, db.checkpoints);
    var c :| c in db.checkpoints && Anchors(c, p);
    GetCheckpointIs(db.checkpoints, c);
    WaitingState(p, LatestLaunch(db.launches, p.handoffID), RecordsOf(db, taskID));
  }

  lemma WaitingState(p: Packet, launch: Option<Launch>, records: BranchRecords)
    requires records.packet == Some(p) && records.launch == launch
    requires ContinuityOf(records).state in {AcceptedNotLaunched, FailedRetryable}
    ensures launch.None? || launch.value.status == LaunchFailed
  {
  }

  /** In every reachable state, an advised resolution is one the resolve transaction accepts. */
  lemma ResolveAdviceExecutable(s: Sys, taskID: Id, obs: Observation)
    requires Reachable(s) && taskID in s.db.capsules
    requires var primary := PrimaryOf(PostureOf(Assess(s.db, taskID, obs)));
      primary.Some? && primary.value.action == ResolveActiveHandoff
    ensures var c := ContinuityOf(RecordsOf(s.db, taskID));
      ResolutionTarget(c, c.handoffID)
  {
    ReachableInv(s);
    var p := PostureOf(Assess(s.db, taskID, obs));
    PostureInStore(s.db, taskID, obs);
    EntriesTabled(p);
    ResolveNeedsBranch(Entries(p), p);
    ActiveContinuity(s.db, taskID);
  }

  lemma ResolveNeedsBranch(f: OperatorAction -> Entry, p: Posture)
    requires Tabled(f, p)
    requires var step := Primary(f, FromAdvice(p.r.advice), p.branch);
      step.Some? && step.value.action == ResolveActiveHandoff
    ensures p.branch.owner == ClaudeBranch && ActiveState(p.state)
  {
    AdviceIsNotResolve(p.r.advice);
    if FromAdvice(p.r.advice) == NoAction {
      FallbackIs(f, p);
    }
  }

  lemma AdviceIsNotResolve(advice: Advice)
    ensures FromAdvice(advice) != ResolveActiveHandoff
  {
  }

  // ---- local work under an accepted handoff ---------------------------------------------------

  /** In every reachable state: while an accepted, unresolved Claude packet is among the task's 12
      newest, local messages, checkpoints, run starts and interrupted resumes are barred, and no
      run is eligible. */
  lemma LocalWorkIsBarred(s: Sys, taskID: Id, obs: Observation, i: nat, action: OperatorAction,
                          explained: bool)
    requires Reachable(s) && taskID in s.db.capsules
    requires i < |s.db.packets| && s.db.packets[i].taskID == taskID
    requires Eligible(s.db.packets[i], s.db.resolutions)
    requires NewerCount(s.db.packets, taskID, i) < SCAN_LIMIT
    requires action in HELD
    ensures var p := PostureOf(Assess(s.db, taskID, obs));
      && EntryFor(p, action).state == Barred
      && !RunStartEligible(p.r, EntryFor(p, StartLocalRun).state, explained)
  {
    ReachableInv(s);
    ActiveIffEligibleAmongNewest(s.db, taskID);
    ActiveBranchBars(s.db, taskID, obs, action, explained);
  }

  // ---- what must be done before anything else -------------------------------------------------

  /** MandatoryBeforeProgress, for a plan that has a first step. */
  predicate Mandatory(f: OperatorAction -> Entry, step: PlanStep) {
    || step.state == RequiredNext
    || (step.action in {ResolveActiveHandoff, LaunchAcceptedHandoff, ReviewHandoffFollowUp}
        && (f(LocalMessage).state == Barred || f(CreateCheckpoint).state == Barred
            || f(StartLocalRun).state == Barred))
  }

  /** In every reachable state the first step is mandatory exactly when the class requires
      something or a Claude branch is active. */
  lemma MandatoryIff(s: Sys, taskID: Id, obs: Observation)
    requires Reachable(s) && taskID in s.db.capsules
    requires PrimaryOf(PostureOf(Assess(s.db, taskID, obs))).Some?
    ensures var p := PostureOf(Assess(s.db, taskID, obs));
      Mandatory(Entries(p), PrimaryOf(p).value) <==>
        FromAdvice(p.r.advice) != NoAction || ActivePacket(s.db, taskID).Some?
  {
    ReachableInv(s);
    PostureInStore(s.db, taskID, obs);
    var p := PostureOf(Assess(s.db, taskID, obs));
    EntriesTabled(p);
    MandatoryForPosture(Entries(p), p);
  }

  lemma MandatoryForPosture(f: OperatorAction -> Entry, p: Posture)
    requires Tabled(f, p) && Primary(f, FromAdvice(p.r.advice), p.branch).Some?
    requires p.branch.owner == ClaudeBranch ==> ActiveState(p.state)
    ensures var step := Primary(f, FromAdvice(p.r.advice), p.branch).value;
      Mandatory(f, step) <==> FromAdvice(p.r.advice) != NoAction || p.branch.owner == ClaudeBranch
  {
    var required := FromAdvice(p.r.advice);
    if required != NoAction {
      assert f(required) == Table(p, required);
    } else {
      FallbackIs(f, p);
      assert f(LocalMessage) == Table(p, LocalMessage);
    }
  }
}
