/** What the operator is told: the authority set of an assessment as one table, the execution
    plan built from it (operator_execution_plan.go), and why its advice can be followed. */
module OperatorTruth {
  import opened Wrappers
  import opened Text
  import opened Tables
  import opened HandoffRecords
  import opened HandoffContinuity
  import opened ActiveBranch
  import opened ContinueAssessment
  import opened HandoffInvariant
  import opened HandoffSteps
  import opened HandoffTheorems
  import opened Recovery
  import opened RecoveryMachine
  import opened Authority

  // ---- the authority set of an assessment -----------------------------------------------------

  /** Everything the authority set is derived from. */
  datatype Posture = Posture(r: Assessed, branch: Branch, state: State, fin: Finalization)

  function PostureOf(a: Assessment): Posture {
    var r := Recover(a);
    Posture(r, BranchOf(a.taskID, a.branch), ContinuityOf(a.branch).state, FinalizationOf(a, r))
  }

  /** The entry for an action after every write. */
  function EntryFor(p: Posture, action: OperatorAction): Entry {
    Layered(action, p.r, p.branch, p.state, p.fin, ResumeOf(p.branch, p.r))
  }

  method DeriveAuthorities(p: Posture) returns (authorities: AuthoritySet)
    ensures fresh(authorities) && fresh(authorities.entries) && authorities.order == ACTIONS
    ensures authorities.Holds(action => EntryFor(p, action))
    ensures authorities.requiredNext == FromAdvice(p.r.advice)
  {
    authorities := new AuthoritySet();
    authorities.Fill(p.r, p.branch, p.state, p.fin, ResumeOf(p.branch, p.r));
  }

  /** The classes under which a Claude branch or nothing at all bars a fresh run. */
  predicate HandoffClass(cls: Class) {
    || cls.AcceptedHandoffLaunchReady? || cls.HandoffLaunchPendingOutcome?
    || cls.HandoffLaunchDone? || cls.HandoffFollowThroughReview?
  }

  function Bar(action: OperatorAction, branch: Branch): Entry {
    if branch.owner.ClaudeBranch? then Entry(action, Barred, TrimSpace(branch.ref))
    else Entry(action, Inapplicable, "")
  }

  /** What is left of all the overwrites: one case per action. */
  function Table(p: Posture, action: OperatorAction): Entry {
    var claude := p.branch.owner.ClaudeBranch?;
    if action == FromAdvice(p.r.advice) then Entry(action, RequiredNext, "")
    else
      match action
      case LocalMessage => if claude then Bar(action, p.branch) else Entry(action, Allowed, "")
      case CreateCheckpoint => if claude then Bar(action, p.branch) else Entry(action, Allowed, "")
      case StartLocalRun =>
        if HandoffClass(p.r.cls) then Bar(action, p.branch)
        else Entry(action, if p.r.cls.CompletedNoAction? then Inapplicable else Barred, "")
      case ResumeLineage =>
        if claude then Bar(action, p.branch)
        else if (!p.r.cls.ContinueExecutionRequired? && !p.r.cls.ReadyNextRun?)
          && (p.fin.StaleReconciliation? || p.fin.FailedReview?)
        then Entry(action, Barred, "")
        else Entry(action, Inapplicable, "")
      case LaunchAcceptedHandoff =>
        Entry(action, if claude && (p.state.AcceptedNotLaunched? || p.state.FailedRetryable?)
                      then Allowed else Inapplicable, "")
      case ResolveActiveHandoff =>
        Entry(action, if claude && ActiveState(p.state) then Allowed else Inapplicable, "")
      case ReviewHandoffFollowUp => Entry(action, Inapplicable, "")
      case RepairNow => Entry(action, Inapplicable, "")
      case _ => Bar(action, p.branch)
  }

  /** What a class allows by itself, its advice requires. */
  lemma AllowedIsAdvised(cls: Class)
    ensures !AllowedByClass(cls).NoAction? ==> AllowedByClass(cls) == FromAdvice(AdviceOf(cls))
    ensures !cls.ContinueExecutionRequired? && !cls.InterruptedRunRecoverable? ==>
      AllowedByClass(cls) == FromAdvice(AdviceOf(cls))
  {
  }

  lemma TableForHandoff(p: Posture, action: OperatorAction)
    requires Coherent(p.r)
    requires action.LaunchAcceptedHandoff? || action.ReviewHandoffFollowUp?
             || action.ResolveActiveHandoff?
    ensures EntryFor(p, action) == Table(p, action)
  {
    AllowedIsAdvised(p.r.cls);
    var e1 := ByBranch(action, p.branch);
    var e2 := ByClass(e1, p.r.cls);
    assert e1 == Entry(action, Inapplicable, "");
    assert ByResume(e2, ResumeOf(p.branch, p.r), p.fin) == e2;
  }

  lemma TableForResume(p: Posture)
    requires Coherent(p.r)
    ensures EntryFor(p, ResumeLineage) == Table(p, ResumeLineage)
  {
    var e1 := ByBranch(ResumeLineage, p.branch);
    assert ByClass(e1, p.r.cls) == e1;
    var e3 := ByResume(e1, ResumeOf(p.branch, p.r), p.fin);
    assert ByHandoff(e3, p.branch, p.state) == e3;
  }

  lemma TableForFinalize(p: Posture)
    requires Coherent(p.r)
    ensures EntryFor(p, FinalizeContinue) == Table(p, FinalizeContinue)
  {
    var e1 := ByBranch(FinalizeContinue, p.branch);
    assert ByClass(e1, p.r.cls) == e1;
    var e3 := ByResume(e1, ResumeOf(p.branch, p.r), p.fin);
    assert ByHandoff(e3, p.branch, p.state) == e3;
  }

  /** The other actions are written by branch, class and advice only. */
  lemma PassThrough(p: Posture, action: OperatorAction)
    requires !action.ResumeLineage? && !action.FinalizeContinue?
    requires !action.LaunchAcceptedHandoff? && !action.ReviewHandoffFollowUp?
    requires !action.ResolveActiveHandoff?
    ensures EntryFor(p, action)
         == Require(ByClass(ByBranch(action, p.branch), p.r.cls), FromAdvice(p.r.advice))
  {
    var e2 := ByClass(ByBranch(action, p.branch), p.r.cls);
    assert ByResume(e2, ResumeOf(p.branch, p.r), p.fin) == e2;
    assert ByHandoff(e2, p.branch, p.state) == e2;
  }

  lemma TableForStart(p: Posture)
    requires Coherent(p.r)
    ensures EntryFor(p, StartLocalRun) == Table(p, StartLocalRun)
  {
    AllowedIsAdvised(p.r.cls);
    PassThrough(p, StartLocalRun);
  }

  /** An action the advice does not name is left as the branch wrote it. */
  lemma LeftAsWritten(p: Posture, action: OperatorAction)
    requires Coherent(p.r) && action != FromAdvice(p.r.advice)
    requires !action.StartLocalRun? && !action.NoAction?
    ensures ByClass(ByBranch(action, p.branch), p.r.cls) == ByBranch(action, p.branch)
  {
    AllowedIsAdvised(p.r.cls);
  }

  /** What the branch writes for the reviews, the executions and repair. */
  lemma BranchIsBar(action: OperatorAction, branch: Branch)
    requires !action.LocalMessage? && !action.CreateCheckpoint? && LocalMutation(action)
    ensures ByBranch(action, branch) == Bar(action, branch)
  {
  }

  lemma TableForOthers(p: Posture, action: OperatorAction)
    requires Coherent(p.r) && !action.NoAction?
    requires !action.StartLocalRun? && !action.ResumeLineage? && !action.FinalizeContinue?
    requires LocalMutation(action) || action.RepairNow?
    ensures EntryFor(p, action) == Table(p, action)
  {
    PassThrough(p, action);
    if action != FromAdvice(p.r.advice) {
      LeftAsWritten(p, action);
      if !action.LocalMessage? && !action.CreateCheckpoint? && LocalMutation(action) {
        BranchIsBar(action, p.branch);
      }
    }
  }

  /** For every posture, every entry is what the table says, whatever was overwritten. */
  lemma OverwritesLeaveTable(p: Posture, action: OperatorAction)
    requires Coherent(p.r) && !action.NoAction?
    ensures EntryFor(p, action) == Table(p, action)
  {
    match action {
      case LaunchAcceptedHandoff => TableForHandoff(p, action);
      case ReviewHandoffFollowUp => TableForHandoff(p, action);
      case ResolveActiveHandoff => TableForHandoff(p, action);
      case ResumeLineage => TableForResume(p);
      case FinalizeContinue => TableForFinalize(p);
      case StartLocalRun => TableForStart(p);
      case _ => TableForOthers(p, action);
    }
  }

  /** At most one action is required next, and it is the one the recovery advice names. */
  lemma OneRequiredNext(p: Posture, action: OperatorAction)
    requires Coherent(p.r) && !action.NoAction?
    ensures EntryFor(p, action).state.RequiredNext? <==> action == FromAdvice(p.r.advice)
  {
    OverwritesLeaveTable(p, action);
  }

  /** Every assessment yields a posture the lemmas above apply to. */
  lemma PostureCoherent(a: Assessment)
    ensures Coherent(PostureOf(a).r)
  {
    ClassDecides(a);
  }

  // ---- starting a local run -------------------------------------------------------------------

  /** runStartEligibility. `explained` is whether a NOT_APPLICABLE entry carries a reason text. */
  predicate RunStartEligible(r: Assessed, state: AuthorityState, explained: bool) {
    match state
    case Allowed => true
    case RequiredNext => true
    case Barred => false
    case Inapplicable =>
      !explained && r.cls.ReadyNextRun? && r.advice.StartNextRun? && r.flags.readyRun
  }

  /** A local run may start exactly when the recovery class is READY_NEXT_RUN. */
  lemma RunStartIffReady(p: Posture, explained: bool)
    requires Coherent(p.r)
    ensures RunStartEligible(p.r, EntryFor(p, StartLocalRun).state, explained)
       <==> p.r.cls.ReadyNextRun?
  {
    OverwritesLeaveTable(p, StartLocalRun);
  }

  /** The four actions that are barred under every active Claude branch. */
  const HELD: set<OperatorAction> := {LocalMessage, CreateCheckpoint, StartLocalRun, ResumeLineage}

  /** While one of the 12 newest packets is an accepted, unresolved Claude packet, local messages,
      checkpoints, run starts and interrupted resumes are all barred, and no run is eligible. */
  lemma ActiveBranchBars(db: Db, taskID: Id, obs: Observation, action: OperatorAction,
                         explained: bool)
    requires Inv(db) && taskID in db.capsules && ActivePacket(db, taskID).Some? && action in HELD
    ensures var p := PostureOf(Assess(db, taskID, obs));
      && EntryFor(p, action).state.Barred?
      && !RunStartEligible(p.r, EntryFor(p, StartLocalRun).state, explained)
  {
    var a := Assess(db, taskID, obs);
    ActiveRecords(db, taskID);
    ActiveContinuity(db, taskID);
    ClassDecides(a);
    ActiveBranchClass(a);
    BarredUnderActive(PostureOf(a), action);
    RunStartIffReady(PostureOf(a), explained);
  }

  /** A local message or checkpoint is barred exactly under a Claude branch. */
  lemma MessageBarredIff(p: Posture)
    requires Coherent(p.r)
    ensures EntryFor(p, LocalMessage).state == Barred <==> p.branch.owner == ClaudeBranch
    ensures EntryFor(p, CreateCheckpoint).state == Barred <==> p.branch.owner == ClaudeBranch
  {
    OverwritesLeaveTable(p, LocalMessage);
    OverwritesLeaveTable(p, CreateCheckpoint);
    AdviceIsNoMessage(p.r.advice);
  }

  lemma AdviceIsNoMessage(advice: Advice)
    ensures FromAdvice(advice) != LocalMessage && FromAdvice(advice) != CreateCheckpoint
  {
  }

  /** The active packet is what the assessment sees: accepted, Claude, resumable. */
  lemma ActiveRecords(db: Db, taskID: Id)
    requires PacketsOk(db.packets, db.briefs, db.checkpoints) && ActivePacket(db, taskID).Some?
    ensures var p := RecordsOf(db, taskID).packet;
      && p.Some? && p.value.status == PacketAccepted && p.value.targetWorker == Claude
      && p.value.isResumable && p.value.handoffID != "" && p.value.taskID == taskID
      && LatestResolution(db.resolutions, p.value.handoffID).None?
  {
    assert PacketOk(ActivePacket(db, taskID).value, db.briefs, db.checkpoints);
  }

  lemma BarredUnderActive(p: Posture, action: OperatorAction)
    requires Coherent(p.r) && !LocalClass(p.r.cls)
    requires p.branch.owner.ClaudeBranch? && action in HELD
    ensures EntryFor(p, action).state.Barred?
  {
    AdviceOffLocal(p.r);
    OverwritesLeaveTable(p, action);
  }

  lemma AdviceOffLocal(r: Assessed)
    requires Coherent(r) && !LocalClass(r.cls)
    ensures FromAdvice(r.advice) !in HELD
  {
  }
}
