/** What the operator may do next: operator_action_authority.go, local_resume_authority.go and
    local_run_finalization.go. The set is filled by overlapping in-place writes, later ones
    winning; the table at the end says what is left of them. */
module Authority {
  import opened Wrappers
  import opened Text
  import opened HandoffRecords
  import opened HandoffContinuity
  import opened ContinueAssessment
  import opened Recovery

  datatype OperatorAction =
    | NoAction | LocalMessage | CreateCheckpoint | StartLocalRun | ReconcileStale | InspectFailed
    | ReviewValidationState | MakeDecision | ResumeLineage | FinalizeContinue | ExecuteRebrief
    | LaunchAcceptedHandoff | ReviewHandoffFollowUp | ResolveActiveHandoff | RepairNow

  datatype AuthorityState = Allowed | Barred | Inapplicable | RequiredNext

  /** One entry of the set; blockingRef names the branch that bars the action, if one does. */
  datatype Entry = Entry(action: OperatorAction, state: AuthorityState, blockingRef: Id)

  /** The actions in the order the set lists them. */
  const ACTIONS: seq<OperatorAction> :=
    [LocalMessage, CreateCheckpoint, StartLocalRun, ReconcileStale, InspectFailed,
     ReviewValidationState, MakeDecision, ResumeLineage, FinalizeContinue, ExecuteRebrief,
     LaunchAcceptedHandoff, ReviewHandoffFollowUp, ResolveActiveHandoff, RepairNow]

  // ---- local run finalization and local resume ------------------------------------------------

  datatype Finalization = NoRelevantRun | Finalized | InterruptedRecoverable
                        | InterruptedNeedsRepair | FailedReview | StaleReconciliation

  function FinalizationOf(a: Assessment, r: Assessed): Finalization {
    if a.latestRun.None? then NoRelevantRun
    else
      match a.latestRun.value.status
      case Running => StaleReconciliation
      case Interrupted =>
        if r.checkpointID != "" && (a.latestCheckpoint.None? || a.latestCheckpoint.value.isResumable)
        then InterruptedRecoverable else InterruptedNeedsRepair
      case RunFailed => FailedReview
      case RunCompleted => Finalized
      case _ => NoRelevantRun
  }

  datatype ResumeState = ResumeAllowed | ResumeBarred | ResumeInapplicable

  datatype LocalResumeMode = NoMode | ResumeMode | FinalizeMode | FreshRunMode

  datatype LocalResume = LocalResume(state: ResumeState, mode: LocalResumeMode, blockingRef: Id)

  /** deriveLocalResumeAuthority, for the branch provenance of the assessment. */
  function ResumeOf(branch: Branch, r: Assessed): LocalResume {
    if branch.owner.ClaudeBranch? then LocalResume(ResumeBarred, NoMode, branch.ref)
    else if r.cls.InterruptedRunRecoverable? && r.advice.ResumeInterrupted? then
      LocalResume(ResumeAllowed, ResumeMode, "")
    else if r.cls.ContinueExecutionRequired? && r.advice.ExecuteContinue? then
      LocalResume(ResumeInapplicable, FinalizeMode, "")
    else if r.cls.ReadyNextRun? && r.advice.StartNextRun? && r.flags.readyRun then
      LocalResume(ResumeInapplicable, FreshRunMode, "")
    else LocalResume(ResumeInapplicable, NoMode, "")
  }

  // ---- one layer of writes at a time ----------------------------------------------------------

  /** The actions a Claude branch bars, in the order they are barred. */
  const LOCAL_MUTATIONS: seq<OperatorAction> :=
    [LocalMessage, CreateCheckpoint, StartLocalRun, ReconcileStale, InspectFailed,
     ReviewValidationState, MakeDecision, ResumeLineage, FinalizeContinue, ExecuteRebrief]

  predicate LocalMutation(action: OperatorAction) {
    match action
    case LaunchAcceptedHandoff => false
    case ReviewHandoffFollowUp => false
    case ResolveActiveHandoff => false
    case RepairNow => false
    case NoAction => false
    case _ => true
  }

  function ByBranch(action: OperatorAction, branch: Branch): Entry {
    if branch.owner.ClaudeBranch? && LocalMutation(action) then
      Entry(action, Barred, TrimSpace(branch.ref))
    else if !branch.owner.ClaudeBranch? && (action.LocalMessage? || action.CreateCheckpoint?) then
      Entry(action, Allowed, "")
    else Entry(action, Inapplicable, "")
  }

  /** The classes whose run-start refusal is written into the set. */
  predicate BarsRunStart(cls: Class) {
    match cls
    case ReadyNextRun => false
    case AcceptedHandoffLaunchReady => false
    case HandoffLaunchPendingOutcome => false
    case HandoffLaunchDone => false
    case HandoffFollowThroughReview => false
    case CompletedNoAction => false
    case _ => true
  }

  /** The action a class allows by itself. */
  function AllowedByClass(cls: Class): OperatorAction {
    match cls
    case ReadyNextRun => StartLocalRun
    case StaleRunReconciliation => ReconcileStale
    case FailedRunReviewRequired => InspectFailed
    case ValidationReviewRequired => ReviewValidationState
    case DecisionRequired => MakeDecision
    case DriftBlocked => MakeDecision
    case RebriefRequired => ExecuteRebrief
    case AcceptedHandoffLaunchReady => LaunchAcceptedHandoff
    case HandoffFollowThroughReview => ReviewHandoffFollowUp
    case RepairRequired => RepairNow
    case _ => NoAction
  }

  function ByClass(e: Entry, cls: Class): Entry {
    if e.action == AllowedByClass(cls) then Entry(e.action, Allowed, "")
    else if e.action.StartLocalRun? && BarsRunStart(cls) then Entry(e.action, Barred, "")
    else if e.action.StartLocalRun? && cls.CompletedNoAction? then
      Entry(e.action, Inapplicable, "")
    else e
  }

  function ByResume(e: Entry, resume: LocalResume, fin: Finalization): Entry {
    if e.action.ResumeLineage? then
      match resume.state
      case ResumeAllowed =>
        if resume.mode.ResumeMode? then Entry(e.action, Allowed, "") else e
      case ResumeBarred => Entry(e.action, Barred, TrimSpace(resume.blockingRef))
      case ResumeInapplicable =>
        if resume.mode.FinalizeMode? || resume.mode.FreshRunMode? then
          Entry(e.action, Inapplicable, "")
        else if fin.StaleReconciliation? || fin.FailedReview? then Entry(e.action, Barred, "")
        else Entry(e.action, Inapplicable, "")
    else if e.action.FinalizeContinue? && resume.state.ResumeInapplicable?
      && resume.mode.FinalizeMode?
    then Entry(e.action, Allowed, "")
    else e
  }

  function ByHandoff(e: Entry, branch: Branch, state: State): Entry {
    if branch.owner.ClaudeBranch? then
      if e.action.LaunchAcceptedHandoff? then
        Entry(e.action, if state.AcceptedNotLaunched? || state.FailedRetryable? then Allowed
                        else Inapplicable, "")
      else if e.action.ResolveActiveHandoff? then
        Entry(e.action, if ActiveState(state) then Allowed else Inapplicable, "")
      else e
    else if e.action.LaunchAcceptedHandoff? || e.action.ReviewHandoffFollowUp?
      || e.action.ResolveActiveHandoff?
    then
      Entry(e.action, Inapplicable, "")
    else e
  }

  /** operatorActionFromRecovery */
  function FromAdvice(advice: Advice): OperatorAction {
    match advice
    case StartNextRun => StartLocalRun
    case ResumeInterrupted => ResumeLineage
    case LaunchHandoff => LaunchAcceptedHandoff
    case ReviewFollowThrough => ReviewHandoffFollowUp
    case InspectFailedRun => InspectFailed
    case ReviewValidation => ReviewValidationState
    case ReconcileStaleRun => ReconcileStale
    case MakeResumeDecision => MakeDecision
    case ExecuteContinue => FinalizeContinue
    case RepairContinuity => RepairNow
    case RegenerateBrief => ExecuteRebrief
    case _ => NoAction
  }

  function Require(e: Entry, required: OperatorAction): Entry {
    if e.action == required then Entry(e.action, RequiredNext, "") else e
  }

  /** All layers, in the order they are written. */
  function Layered(action: OperatorAction, r: Assessed, branch: Branch, state: State,
                   fin: Finalization, resume: LocalResume): Entry
  {
    Require(ByHandoff(ByResume(ByClass(ByBranch(action, branch), r.cls), resume, fin), branch, state),
            FromAdvice(r.advice))
  }

  // ---- the set itself -------------------------------------------------------------------------

  /** Every action but NONE is listed, once. */
  ghost predicate ListsAll(order: seq<OperatorAction>) {
    && (forall i, j :: 0 <= i < j < |order| ==> order[i] != order[j])
    && (forall action :: action in order <==> !action.NoAction?)
  }

  class AuthoritySet {
    var requiredNext: OperatorAction
    const entries: array<Entry>
    ghost const order: seq<OperatorAction>

    ghost predicate Valid()
      reads this, entries
    {
      && entries.Length == |order| && ListsAll(order)
      && forall i :: 0 <= i < entries.Length ==> entries[i].action == order[i]
    }

    /** Every entry is what `f` makes of its action. */
    ghost predicate Holds(f: OperatorAction -> Entry)
      reads this, entries
    {
      Valid() && forall i :: 0 <= i < entries.Length ==> entries[i] == f(order[i])
    }

    constructor ()
      ensures fresh(entries) && requiredNext == NoAction && order == ACTIONS
      ensures Holds(action => Entry(action, Inapplicable, ""))
    {
      requiredNext := NoAction;
      order := ACTIONS;
      entries := new Entry[|ACTIONS|](i requires 0 <= i < |ACTIONS| =>
        Entry(ACTIONS[i], Inapplicable, ""));
      new;
      ActionsListAll();
    }

    /** setOperatorActionState: a scan that overwrites the action's slot and stops. */
    method SetState(action: OperatorAction, state: AuthorityState, blockingRef: Id)
      requires Valid()
      modifies entries
      ensures Valid()
      ensures forall i :: 0 <= i < entries.Length ==>
        entries[i] == if order[i] == action then Entry(action, state, TrimSpace(blockingRef))
                      else old(entries[i])
    {
      for i := 0 to entries.Length
        invariant Valid()
        invariant forall j :: 0 <= j < i ==> order[j] != action
        invariant forall j :: 0 <= j < entries.Length ==> entries[j] == old(entries[j])
      {
        if entries[i].action != action {
          continue;
        }
        entries[i] := Entry(action, state, TrimSpace(blockingRef));
        return;
      }
    }

    /** Bars the local actions under a Claude branch, allows the two local basics otherwise. */
    method WriteBranch(branch: Branch)
      requires Holds(action => Entry(action, Inapplicable, ""))
      modifies entries
      ensures Holds(action => ByBranch(action, branch))
    {
      if branch.owner == ClaudeBranch {
        BarAll(LOCAL_MUTATIONS, branch.ref);
        LocalMutationsListed();
      } else {
        SetState(LocalMessage, Allowed, "");
        SetState(CreateCheckpoint, Allowed, "");
      }
    }

    /** One blockLocalAction after the other. */
    method BarAll(barred: seq<OperatorAction>, blockingRef: Id)
      requires Valid()
      modifies entries
      ensures Valid()
      ensures forall i :: 0 <= i < entries.Length ==>
        entries[i] == if order[i] in barred then Entry(order[i], Barred, TrimSpace(blockingRef))
                      else old(entries[i])
    {
      for k := 0 to |barred|
        invariant Valid()
        invariant forall i :: 0 <= i < entries.Length ==>
          entries[i] == if order[i] in barred[..k]
                        then Entry(order[i], Barred, TrimSpace(blockingRef))
                        else old(entries[i])
      {
        assert barred[..k + 1] == barred[..k] + [barred[k]];
        SetState(barred[k], Barred, blockingRef);
      }
      assert barred[..|barred|] == barred;
    }

    /** Bars a fresh run and allows the step the class wants first. */
    method AllowInsteadOfRun(action: OperatorAction)
      requires Valid() && action != StartLocalRun
      modifies entries
      ensures Valid()
      ensures forall i :: 0 <= i < entries.Length ==>
        entries[i] == if order[i] == action then Entry(action, Allowed, "")
                      else if order[i] == StartLocalRun then Entry(StartLocalRun, Barred, "")
                      else old(entries[i])
    {
      SetState(StartLocalRun, Barred, "");
      SetState(action, Allowed, "");
    }

    /** What the recovery class allows and bars. */
    method WriteClass(cls: Class)
      requires Valid()
      modifies entries
      ensures Valid()
      ensures forall i :: 0 <= i < entries.Length ==> entries[i] == ByClass(old(entries[i]), cls)
    {
      match cls {
        case ReadyNextRun => SetState(StartLocalRun, Allowed, "");
        case InterruptedRunRecoverable => SetState(StartLocalRun, Barred, "");
        case ContinueExecutionRequired => SetState(StartLocalRun, Barred, "");
        case StaleRunReconciliation => AllowInsteadOfRun(ReconcileStale);
        case FailedRunReviewRequired => AllowInsteadOfRun(InspectFailed);
        case ValidationReviewRequired => AllowInsteadOfRun(ReviewValidationState);
        case DecisionRequired => AllowInsteadOfRun(MakeDecision);
        case DriftBlocked => AllowInsteadOfRun(MakeDecision);
        case RebriefRequired => AllowInsteadOfRun(ExecuteRebrief);
        case AcceptedHandoffLaunchReady => SetState(LaunchAcceptedHandoff, Allowed, "");
        case HandoffFollowThroughReview => SetState(ReviewHandoffFollowUp, Allowed, "");
        case RepairRequired => AllowInsteadOfRun(RepairNow);
        case CompletedNoAction => SetState(StartLocalRun, Inapplicable, "");
        case _ =>
      }
    }

    method WriteResume(resume: LocalResume, fin: Finalization)
      requires Valid()
      modifies entries
      ensures Valid()
      ensures forall i :: 0 <= i < entries.Length ==>
        entries[i] == ByResume(old(entries[i]), resume, fin)
    {
      match resume.state {
        case ResumeAllowed =>
          if resume.mode.ResumeMode? {
            SetState(ResumeLineage, Allowed, "");
          }
        case ResumeBarred => SetState(ResumeLineage, Barred, resume.blockingRef);
        case ResumeInapplicable =>
          match resume.mode {
            case FinalizeMode =>
              SetState(ResumeLineage, Inapplicable, "");
              SetState(FinalizeContinue, Allowed, "");
            case FreshRunMode => SetState(ResumeLineage, Inapplicable, "");
            case _ =>
              if fin.StaleReconciliation? {
                SetState(ResumeLineage, Barred, "");
              } else if fin.FailedReview? {
                SetState(ResumeLineage, Barred, "");
              } else {
                SetState(ResumeLineage, Inapplicable, "");
              }
          }
      }
    }

    method WriteHandoff(branch: Branch, state: State)
      requires Valid()
      modifies entries
      ensures Valid()
      ensures forall i :: 0 <= i < entries.Length ==>
        entries[i] == ByHandoff(old(entries[i]), branch, state)
    {
      if branch.owner.ClaudeBranch? {
        if state.AcceptedNotLaunched? || state.FailedRetryable? {
          SetState(LaunchAcceptedHandoff, Allowed, "");
          SetState(ResolveActiveHandoff, Allowed, "");
        } else if ActiveState(state) {
          SetState(LaunchAcceptedHandoff, Inapplicable, "");
          SetState(ResolveActiveHandoff, Allowed, "");
        } else {
          SetState(LaunchAcceptedHandoff, Inapplicable, "");
          SetState(ResolveActiveHandoff, Inapplicable, "");
        }
      } else {
        SetState(LaunchAcceptedHandoff, Inapplicable, "");
        SetState(ReviewHandoffFollowUp, Inapplicable, "");
        SetState(ResolveActiveHandoff, Inapplicable, "");
      }
    }

    /** The first three layers. */
    method WriteLocal(branch: Branch, cls: Class, resume: LocalResume, fin: Finalization)
      requires Holds(action => Entry(action, Inapplicable, ""))
      modifies entries
      ensures Holds(action => ByResume(ByClass(ByBranch(action, branch), cls), resume, fin))
    {
      WriteBranch(branch);
      WriteClass(cls);
      WriteResume(resume, fin);
    }

    /** setActionRequiredNext, unless the advice names no action. */
    method WriteRequired(advice: Advice)
      requires Valid() && requiredNext == NoAction
      modifies this, entries
      ensures Valid() && requiredNext == FromAdvice(advice)
      ensures forall i :: 0 <= i < entries.Length ==>
        entries[i] == Require(old(entries[i]), FromAdvice(advice))
    {
      if requiredNext == NoAction {
        var action := FromAdvice(advice);
        if action != NoAction {
          requiredNext := action;
          SetState(action, RequiredNext, "");
        }
      }
    }

    /** deriveOperatorActionAuthoritySet on a new set. */
    method Fill(r: Assessed, branch: Branch, state: State, fin: Finalization, resume: LocalResume)
      requires Holds(action => Entry(action, Inapplicable, "")) && requiredNext == NoAction
      modifies this, entries
      ensures Holds(action => Layered(action, r, branch, state, fin, resume))
      ensures requiredNext == FromAdvice(r.advice)
    {
      WriteLocal(branch, r.cls, resume, fin);
      WriteHandoff(branch, state);
      WriteRequired(r.advice);
    }

    /** operatorActionAuthorityFor: the first entry for the action. */
    method Find(action: OperatorAction) returns (entry: Option<Entry>)
      requires Valid()
      ensures action.NoAction? <==> entry.None?
      ensures entry.Some? ==> exists i :: 0 <= i < entries.Length && order[i] == action
                                          && entry.value == entries[i]
    {
      for i := 0 to entries.Length
        invariant forall j :: 0 <= j < i ==> order[j] != action
      {
        if entries[i].action == action {
          return Some(entries[i]);
        }
      }
      entry := None;
    }
  }

  lemma ActionsListAll()
    ensures ListsAll(ACTIONS)
  {
    forall action: OperatorAction | !action.NoAction? ensures action in ACTIONS {
      match action {
        case LocalMessage => assert ACTIONS[0] == action;
        case CreateCheckpoint => assert ACTIONS[1] == action;
        case StartLocalRun => assert ACTIONS[2] == action;
        case ReconcileStale => assert ACTIONS[3] == action;
        case InspectFailed => assert ACTIONS[4] == action;
        case ReviewValidationState => assert ACTIONS[5] == action;
        case MakeDecision => assert ACTIONS[6] == action;
        case ResumeLineage => assert ACTIONS[7] == action;
        case FinalizeContinue => assert ACTIONS[8] == action;
        case ExecuteRebrief => assert ACTIONS[9] == action;
        case LaunchAcceptedHandoff => assert ACTIONS[10] == action;
        case ReviewHandoffFollowUp => assert ACTIONS[11] == action;
        case ResolveActiveHandoff => assert ACTIONS[12] == action;
        case RepairNow => assert ACTIONS[13] == action;
      }
    }
  }

  lemma LocalMutationsListed()
    ensures forall action :: action in LOCAL_MUTATIONS <==> LocalMutation(action)
  {
    forall action | LocalMutation(action) ensures action in LOCAL_MUTATIONS {
      match action {
        case LocalMessage => assert LOCAL_MUTATIONS[0] == action;
        case CreateCheckpoint => assert LOCAL_MUTATIONS[1] == action;
        case StartLocalRun => assert LOCAL_MUTATIONS[2] == action;
        case ReconcileStale => assert LOCAL_MUTATIONS[3] == action;
        case InspectFailed => assert LOCAL_MUTATIONS[4] == action;
        case ReviewValidationState => assert LOCAL_MUTATIONS[5] == action;
        case MakeDecision => assert LOCAL_MUTATIONS[6] == action;
        case ResumeLineage => assert LOCAL_MUTATIONS[7] == action;
        case FinalizeContinue => assert LOCAL_MUTATIONS[8] == action;
        case ExecuteRebrief => assert LOCAL_MUTATIONS[9] == action;
      }
    }
  }
}
