/** What the operator is told, written out: the action each class requires, and the first step, the
    alternatives and the blocked basics of every posture. */
module PlanAnswers {
  import opened Wrappers
  import opened Tables
  import opened HandoffRecords
  import opened HandoffContinuity
  import opened ContinueAssessment
  import opened Recovery
  import opened Authority
  import OperatorTruth
  import opened ExecutionPlan

  // ---- what is required -----------------------------------------------------------------------

  /** The action a class requires of the operator, for every assessment; an active launch and a
      completed task require none. */
  lemma RequiredIs(a: Assessment)
    ensures var (c, required) := (Recover(a).cls, FromAdvice(Recover(a).advice));
      && (required.StartLocalRun? <==> c.ReadyNextRun?)
      && (required.ResumeLineage? <==> c.InterruptedRunRecoverable?)
      && (required.LaunchAcceptedHandoff? <==> c.AcceptedHandoffLaunchReady?)
      && (required.ReviewHandoffFollowUp? <==> c.HandoffFollowThroughReview?)
      && (required.InspectFailed? <==> c.FailedRunReviewRequired?)
      && (required.ReviewValidationState? <==> c.ValidationReviewRequired?)
      && (required.ReconcileStale? <==> c.StaleRunReconciliation?)
      && (required.MakeDecision? <==> c.DecisionRequired? || c.DriftBlocked?)
      && (required.FinalizeContinue? <==> c.ContinueExecutionRequired?)
      && (required.RepairNow? <==> c.RepairRequired?)
      && (required.ExecuteRebrief? <==> c.RebriefRequired?)
      && (required.NoAction? <==>
            c.HandoffLaunchPendingOutcome? || c.HandoffLaunchDone? || c.CompletedNoAction?)
  {
    ClassDecides(a);
    RequiredByClass(Recover(a));
  }

  lemma RequiredByClass(r: Assessed)
    requires Coherent(r)
    ensures var (c, required) := (r.cls, FromAdvice(r.advice));
      && (required.StartLocalRun? <==> c.ReadyNextRun?)
      && (required.ResumeLineage? <==> c.InterruptedRunRecoverable?)
      && (required.LaunchAcceptedHandoff? <==> c.AcceptedHandoffLaunchReady?)
      && (required.ReviewHandoffFollowUp? <==> c.HandoffFollowThroughReview?)
      && (required.InspectFailed? <==> c.FailedRunReviewRequired?)
      && (required.ReviewValidationState? <==> c.ValidationReviewRequired?)
      && (required.ReconcileStale? <==> c.StaleRunReconciliation?)
      && (required.MakeDecision? <==> c.DecisionRequired? || c.DriftBlocked?)
      && (required.FinalizeContinue? <==> c.ContinueExecutionRequired?)
      && (required.RepairNow? <==> c.RepairRequired?)
      && (required.ExecuteRebrief? <==> c.RebriefRequired?)
      && (required.NoAction? <==>
            c.HandoffLaunchPendingOutcome? || c.HandoffLaunchDone? || c.CompletedNoAction?)
      && !required.LocalMessage? && !required.CreateCheckpoint? && !required.ResolveActiveHandoff?
  {
  }

  /** The posture of an assessment: its verdict, branch and continuity, and how the newest run ended,
      on its status; an interrupted one can be taken up again exactly when the task's newest
      checkpoint is resumable. */
  lemma PostureIff(a: Assessment)
    ensures var p := OperatorTruth.PostureOf(a);
      p.r == Recover(a) && p.branch == BranchOf(a.taskID, a.branch)
      && p.state == ContinuityOf(a.branch).state
    ensures var f := OperatorTruth.PostureOf(a).fin;
      var run := a.latestRun;
      var resumable := a.latestCheckpoint.Some? && a.latestCheckpoint.value.isResumable
                       && a.latestCheckpoint.value.checkpointID != "";
      && (f.StaleReconciliation? <==> run.Some? && run.value.status == Running)
      && (f.InterruptedRecoverable? <==>
            run.Some? && run.value.status == RunStatus.Interrupted && resumable)
      && (f.InterruptedNeedsRepair? <==>
            run.Some? && run.value.status == RunStatus.Interrupted && !resumable)
      && (f.FailedReview? <==> run.Some? && run.value.status == RunFailed)
      && (f.Finalized? <==> run.Some? && run.value.status == RunCompleted)
      && (f.NoRelevantRun? <==>
            run.None? || run.value.status == RunUnset || run.value.status == RunCreated)
  {
    ClassDecides(a);
  }

  /** Local resume authority: barred by a Claude branch and named after it, allowed for an
      interrupted run, and otherwise inapplicable, with the mode the class leaves. */
  lemma ResumeIff(branch: Branch, a: Assessment)
    ensures var (resume, c) := (ResumeOf(branch, Recover(a)), Recover(a).cls);
      var claude := branch.owner.ClaudeBranch?;
      && (resume.state.ResumeBarred? <==> claude)
      && (resume.state.ResumeAllowed? <==> !claude && c.InterruptedRunRecoverable?)
      && (resume.mode.ResumeMode? <==> !claude && c.InterruptedRunRecoverable?)
      && (resume.mode.FinalizeMode? <==> !claude && c.ContinueExecutionRequired?)
      && (resume.mode.FreshRunMode? <==> !claude && c.ReadyNextRun?)
      && resume.blockingRef == (if claude then branch.ref else "")
  {
    ClassDecides(a);
  }

  // ---- filtering an order ---------------------------------------------------------------------

  lemma {:induction false} WhereSkips<T(!new)>(order: seq<T>, wanted: T -> bool, i: nat, j: nat)
    requires i <= j <= |order|
    requires forall k :: i <= k < j ==> !wanted(order[k])
    ensures Where(order[..j], wanted) == Where(order[..i], wanted)
    decreases j
  {
    if i < j {
      WhereSkips(order, wanted, i, j - 1);
      assert order[..j] == order[..j - 1] + [order[j - 1]];
      WhereAppend(order[..j - 1], wanted, order[j - 1]);
    }
  }

  /** The row at a position, if it is wanted. */
  function Kept<T>(order: seq<T>, wanted: T -> bool, k: nat): seq<T>
    requires k < |order|
  {
    if wanted(order[k]) then [order[k]] else []
  }

  lemma WhereGrows<T(!new)>(order: seq<T>, wanted: T -> bool, k: nat)
    requires k < |order|
    ensures Where(order[..k + 1], wanted) == Where(order[..k], wanted) + Kept(order, wanted, k)
  {
    assert order[..k + 1] == order[..k] + [order[k]];
    WhereAppend(order[..k], wanted, order[k]);
  }

  lemma WhereOfAll<T(!new)>(order: seq<T>, wanted: T -> bool)
    ensures Where(order[..|order|], wanted) == Where(order, wanted)
    ensures Where(order[..0], wanted) == []
  {
    assert order[..|order|] == order;
  }

  lemma WhereGrowsTwice<T(!new)>(order: seq<T>, wanted: T -> bool, i: nat)
    requires i + 2 <= |order|
    ensures Where(order[..i + 2], wanted)
         == Where(order[..i], wanted) + (Kept(order, wanted, i) + Kept(order, wanted, i + 1))
  {
    WhereGrows(order, wanted, i);
    WhereGrows(order, wanted, i + 1);
  }

  /** Only two neighbours of an order can be wanted. */
  lemma WhereOnly<T(!new)>(order: seq<T>, wanted: T -> bool, i: nat)
    requires i + 2 <= |order|
    requires forall k :: 0 <= k < |order| && k != i && k != i + 1 ==> !wanted(order[k])
    ensures Where(order, wanted) == Kept(order, wanted, i) + Kept(order, wanted, i + 1)
  {
    WhereOfAll(order, wanted);
    WhereSkips(order, wanted, 0, i);
    WhereGrowsTwice(order, wanted, i);
    WhereSkips(order, wanted, i + 2, |order|);
  }

  lemma WhereOfFour<T(!new)>(order: seq<T>, wanted: T -> bool)
    requires |order| == 4
    ensures Where(order, wanted) == (Kept(order, wanted, 0) + Kept(order, wanted, 1))
                                  + (Kept(order, wanted, 2) + Kept(order, wanted, 3))
  {
    WhereOfAll(order, wanted);
    WhereGrowsTwice(order, wanted, 0);
    WhereGrowsTwice(order, wanted, 2);
  }

  // ---- the plan of every posture --------------------------------------------------------------

  /** The state of an accepted branch in which its packet may be launched. */
  predicate Launchable(state: State) {
    state.AcceptedNotLaunched? || state.FailedRetryable?
  }

  function If(yes: bool, action: OperatorAction): seq<OperatorAction> {
    if yes then [action] else []
  }

  /** The first step: what is required; otherwise resolving an active Claude branch; otherwise a
      local message. */
  lemma FirstStepIs(p: OperatorTruth.Posture)
    requires Coherent(p.r)
    ensures var (first, required) := (PrimaryOf(p), FromAdvice(p.r.advice));
      var claude := p.branch.owner.ClaudeBranch?;
      && (!required.NoAction? ==> first == Some(PlanStep(required, RequiredNext)))
      && (required.NoAction? && !claude ==> first == Some(PlanStep(LocalMessage, Allowed)))
      && (required.NoAction? && claude && ActiveState(p.state) ==>
            first == Some(PlanStep(ResolveActiveHandoff, Allowed)))
      && (required.NoAction? && claude && !ActiveState(p.state) ==> first.None?)
  {
    EntriesTabled(p);
    if FromAdvice(p.r.advice).NoAction? {
      FallbackIs(Entries(p), p);
    } else {
      OperatorTruth.OneRequiredNext(p, FromAdvice(p.r.advice));
    }
  }

  /** Which steps are offered beside the first: locally a message and then a checkpoint; under an
      active Claude branch resolving it and then, where it may be launched, launching it. */
  lemma AlternativesAre(p: OperatorTruth.Posture)
    requires Coherent(p.r)
    ensures var (steps, required) := (Secondary(Entries(p), PrimaryOf(p)), FromAdvice(p.r.advice));
      var claude := p.branch.owner.ClaudeBranch?;
      && (!claude ==> steps == If(!required.NoAction?, LocalMessage) + [CreateCheckpoint])
      && (claude ==> steps == If(ActiveState(p.state) && !required.NoAction?, ResolveActiveHandoff)
                            + If(Launchable(p.state) && !required.LaunchAcceptedHandoff?,
                                 LaunchAcceptedHandoff))
  {
    EntriesTabled(p);
    FirstStepIs(p);
    RequiredByClass(p.r);
    AlternativesFor(Entries(p), p, PrimaryOf(p), SECONDARY_ORDER);
  }

  lemma AlternativesFor(f: OperatorAction -> Entry, p: OperatorTruth.Posture,
                        first: Option<PlanStep>, order: seq<OperatorAction>)
    requires Tabled(f, p) && NoAction !in order && |order| == 10
    requires order[0] == ResolveActiveHandoff && order[1] == LaunchAcceptedHandoff
    requires order[8] == LocalMessage && order[9] == CreateCheckpoint
    requires forall k :: 2 <= k < 8 ==>
      !order[k].ResolveActiveHandoff? && !order[k].LaunchAcceptedHandoff?
      && !order[k].LocalMessage? && !order[k].CreateCheckpoint?
    requires var required := FromAdvice(p.r.advice);
      && !required.LocalMessage? && !required.CreateCheckpoint? && !required.ResolveActiveHandoff?
      && (!required.NoAction? ==> first == Some(PlanStep(required, RequiredNext)))
      && (required.NoAction? && !p.branch.owner.ClaudeBranch? ==>
            first == Some(PlanStep(LocalMessage, Allowed)))
      && (required.NoAction? && p.branch.owner.ClaudeBranch? && ActiveState(p.state) ==>
            first == Some(PlanStep(ResolveActiveHandoff, Allowed)))
      && (required.NoAction? && p.branch.owner.ClaudeBranch? && !ActiveState(p.state) ==>
            first.None?)
    ensures var (steps, required) := (Picked(f, order, first, Allowed, 2), FromAdvice(p.r.advice));
      var claude := p.branch.owner.ClaudeBranch?;
      && (!claude ==> steps == If(!required.NoAction?, LocalMessage) + [CreateCheckpoint])
      && (claude ==> steps == If(ActiveState(p.state) && !required.NoAction?, ResolveActiveHandoff)
                            + If(Launchable(p.state) && !required.LaunchAcceptedHandoff?,
                                 LaunchAcceptedHandoff))
  {
    var wanted := Wanted(f, first, Allowed);
    var claude := p.branch.owner.ClaudeBranch?;
    var i := if claude then 0 else 8;
    forall k | 0 <= k < 10 && k != i && k != i + 1 ensures !wanted(order[k]) {
      assert order[k] in order;
      AllowedMeans(p, order[k]);
    }
    WhereOnly(order, wanted, i);
    assert order[i] in order && order[i + 1] in order;
    assert wanted(order[i]) <==> !(first.Some? && first.value.action == order[i])
                                 && OperatorTruth.Table(p, order[i]).state == Allowed;
    assert wanted(order[i + 1]) <==> !(first.Some? && first.value.action == order[i + 1])
                                     && OperatorTruth.Table(p, order[i + 1]).state == Allowed;
  }

  /** Which basics are listed as blocked, at most three: under a Claude branch message, checkpoint
      and the run start, or interrupted resume in its place; locally the run start and the resume
      of a run that failed or was left running. */
  lemma BlockedAre(p: OperatorTruth.Posture)
    requires Coherent(p.r)
    ensures var (steps, c) := (BlockedSteps(Entries(p)), p.r.cls);
      var runBarred := !c.ReadyNextRun? && !c.CompletedNoAction?;
      var offered := c.ReadyNextRun? || c.InterruptedRunRecoverable? || c.ContinueExecutionRequired?;
      && (p.branch.owner.ClaudeBranch? ==>
            steps == [LocalMessage, CreateCheckpoint,
                      if runBarred then StartLocalRun else ResumeLineage])
      && (!p.branch.owner.ClaudeBranch? ==>
            steps == If(runBarred && !OperatorTruth.HandoffClass(c), StartLocalRun)
                   + If(!offered && (p.fin.StaleReconciliation? || p.fin.FailedReview?),
                        ResumeLineage))
  {
    EntriesTabled(p);
    RequiredByClass(p.r);
    BlockedFor(Entries(p), p, BLOCKED_ORDER);
  }

  lemma BlockedFor(f: OperatorAction -> Entry, p: OperatorTruth.Posture, order: seq<OperatorAction>)
    requires Tabled(f, p) && Coherent(p.r) && |order| == 4
    requires order[0] == LocalMessage && order[1] == CreateCheckpoint
    requires order[2] == StartLocalRun && order[3] == ResumeLineage
    requires var required := FromAdvice(p.r.advice);
      && !required.LocalMessage? && !required.CreateCheckpoint?
      && (required.StartLocalRun? <==> p.r.cls.ReadyNextRun?)
      && (required.ResumeLineage? <==> p.r.cls.InterruptedRunRecoverable?)
    ensures var (steps, c) := (Picked(f, order, None, Barred, 3), p.r.cls);
      var runBarred := !c.ReadyNextRun? && !c.CompletedNoAction?;
      var offered := c.ReadyNextRun? || c.InterruptedRunRecoverable? || c.ContinueExecutionRequired?;
      && (p.branch.owner.ClaudeBranch? ==>
            steps == [LocalMessage, CreateCheckpoint,
                      if runBarred then StartLocalRun else ResumeLineage])
      && (!p.branch.owner.ClaudeBranch? ==>
            steps == If(runBarred && !OperatorTruth.HandoffClass(c), StartLocalRun)
                   + If(!offered && (p.fin.StaleReconciliation? || p.fin.FailedReview?),
                        ResumeLineage))
  {
    var wanted := Wanted(f, None, Barred);
    WhereOfFour(order, wanted);
    BarredIff(p);
    assert wanted(LocalMessage) <==> p.branch.owner.ClaudeBranch?;
    assert wanted(CreateCheckpoint) <==> p.branch.owner.ClaudeBranch?;
    assert wanted(StartLocalRun) <==> OperatorTruth.Table(p, StartLocalRun).state == Barred;
    assert wanted(ResumeLineage) <==> OperatorTruth.Table(p, ResumeLineage).state == Barred;
  }

  /** When the four basics are barred. */
  lemma BarredIff(p: OperatorTruth.Posture)
    requires var required := FromAdvice(p.r.advice);
      && !required.LocalMessage? && !required.CreateCheckpoint?
      && (required.StartLocalRun? <==> p.r.cls.ReadyNextRun?)
      && (required.ResumeLineage? <==> p.r.cls.InterruptedRunRecoverable?)
    ensures var (c, claude) := (p.r.cls, p.branch.owner.ClaudeBranch?);
      && (OperatorTruth.Table(p, LocalMessage).state == Barred <==> claude)
      && (OperatorTruth.Table(p, CreateCheckpoint).state == Barred <==> claude)
      && (OperatorTruth.Table(p, StartLocalRun).state == Barred <==>
            !c.ReadyNextRun? && !c.CompletedNoAction?
            && (claude || !OperatorTruth.HandoffClass(c)))
      && (OperatorTruth.Table(p, ResumeLineage).state == Barred <==>
            !c.InterruptedRunRecoverable?
            && (claude || (!c.ReadyNextRun? && !c.ContinueExecutionRequired?
                           && (p.fin.StaleReconciliation? || p.fin.FailedReview?))))
  {
  }

  // ---- the plan of any set of entries ---------------------------------------------------------

  /** The actions a Claude branch prefers for the first step, and a local one. */
  function Preference(claude: bool): seq<OperatorAction> {
    if claude then
      [ResolveActiveHandoff, LaunchAcceptedHandoff, ReviewHandoffFollowUp, ResumeLineage,
       FinalizeContinue, StartLocalRun, ReconcileStale, InspectFailed, ExecuteRebrief,
       LocalMessage, CreateCheckpoint]
    else
      [ResumeLineage, FinalizeContinue, StartLocalRun, ReconcileStale, InspectFailed,
       ExecuteRebrief, LocalMessage, CreateCheckpoint, LaunchAcceptedHandoff,
       ResolveActiveHandoff, ReviewHandoffFollowUp]
  }

  /** Whatever the entries: the required action comes first; otherwise the most preferred allowed
      one; without one there is no first step. */
  lemma PrimaryMeans(f: OperatorAction -> Entry, required: OperatorAction, branch: Branch, k: nat)
    requires k < 11 && f(Preference(branch.owner.ClaudeBranch?)[k]).state == Allowed
    requires forall j :: 0 <= j < k ==>
      f(Preference(branch.owner.ClaudeBranch?)[j]).state != Allowed
    ensures Primary(f, required, branch)
         == Some(if required.NoAction?
                 then PlanStep(Preference(branch.owner.ClaudeBranch?)[k], Allowed)
                 else PlanStep(required, f(required).state))
  {
    FirstAllowedIs(f, Order(branch), k);
  }

  lemma NoPrimary(f: OperatorAction -> Entry, branch: Branch)
    requires forall j :: 0 <= j < 11 ==>
      f(Preference(branch.owner.ClaudeBranch?)[j]).state != Allowed
    ensures Primary(f, NoAction, branch).None?
  {
    assert Order(branch) == Preference(branch.owner.ClaudeBranch?);
    NoneAllowed(f, Order(branch));
  }

  lemma NoneAllowed(f: OperatorAction -> Entry, order: seq<OperatorAction>)
    requires forall j :: 0 <= j < |order| ==> f(order[j]).state != Allowed
    ensures FirstAllowed(f, order).None?
  {
  }

  /** The steps are the first wanted actions of an order, as many as the limit lets through: the
      places ascend, and a wanted action is left out only after a full list. */
  ghost predicate Picks(places: seq<nat>, steps: seq<OperatorAction>, order: seq<OperatorAction>,
                        wanted: OperatorAction -> bool, limit: nat)
  {
    && |places| == |steps| <= limit
    && (forall m, n :: 0 <= m < n < |places| ==> places[m] < places[n])
    && (forall m :: 0 <= m < |places| ==>
          places[m] < |order| && order[places[m]] == steps[m] && wanted(steps[m]))
    && (forall k :: 0 <= k < |order| && wanted(order[k]) && k !in places ==>
          |steps| == limit && forall m :: 0 <= m < |places| ==> places[m] < k)
  }

  /** All wanted positions of an order, ascending, and what stands there. */
  ghost predicate AllPlaces(places: seq<nat>, steps: seq<OperatorAction>,
                            order: seq<OperatorAction>, wanted: OperatorAction -> bool)
  {
    && |places| == |steps|
    && (forall m, n :: 0 <= m < n < |places| ==> places[m] < places[n])
    && (forall m :: 0 <= m < |places| ==>
          places[m] < |order| && order[places[m]] == steps[m] && wanted(steps[m]))
    && (forall k :: 0 <= k < |order| && wanted(order[k]) ==> k in places)
  }

  lemma PlacesGrow(places: seq<nat>, steps: seq<OperatorAction>, order: seq<OperatorAction>,
                   wanted: OperatorAction -> bool, x: OperatorAction)
    requires AllPlaces(places, steps, order, wanted)
    ensures if wanted(x) then AllPlaces(places + [|order|], steps + [x], order + [x], wanted)
            else AllPlaces(places, steps, order + [x], wanted)
  {
    if wanted(x) {
      var more := places + [|order|];
      assert more[|places|] == |order|;
      forall k | 0 <= k < |order| && wanted(order[k]) ensures k in more {
        assert k in places;
      }
    }
  }

  lemma {:induction false} WherePlaces(order: seq<OperatorAction>, wanted: OperatorAction -> bool)
    returns (places: seq<nat>)
    ensures AllPlaces(places, Where(order, wanted), order, wanted)
    decreases |order|
  {
    if order == [] {
      places := [];
    } else {
      var (init, x) := (order[..|order| - 1], order[|order| - 1]);
      places := WherePlaces(init, wanted);
      PlacesGrow(places, Where(init, wanted), init, wanted, x);
      WhereAppend(init, wanted, x);
      assert order == init + [x];
      places := if wanted(x) then places + [|init|] else places;
    }
  }

  lemma PickedMeans(f: OperatorAction -> Entry, order: seq<OperatorAction>,
                    first: Option<PlanStep>, state: AuthorityState, limit: nat)
    returns (places: seq<nat>)
    ensures Picks(places, Picked(f, order, first, state, limit), order, Wanted(f, first, state), limit)
  {
    var wanted := Wanted(f, first, state);
    var all := WherePlaces(order, wanted);
    places := if |all| <= limit then all else all[..limit];
    forall k | 0 <= k < |order| && wanted(order[k])
      ensures k in places || (|places| == limit && forall m :: 0 <= m < |places| ==> places[m] < k)
    {
      assert k in all;
      var n :| 0 <= n < |all| && all[n] == k;
      if n < |places| {
        assert places[n] == k;
      }
    }
  }

  /** Whatever the entries, the alternatives are the first two allowed actions of this order beside
      the first step, and the blocked basics the first three barred ones of theirs. */
  lemma AlternativesMean(f: OperatorAction -> Entry, first: Option<PlanStep>)
    returns (places: seq<nat>, blocked: seq<nat>)
    ensures Picks(places, Secondary(f, first),
                  [ResolveActiveHandoff, LaunchAcceptedHandoff, ResumeLineage, FinalizeContinue,
                   StartLocalRun, ReconcileStale, InspectFailed, ExecuteRebrief, LocalMessage,
                   CreateCheckpoint],
                  action => f(action).state == Allowed
                            && (first.None? || first.value.action != action),
                  2)
    ensures Picks(blocked, BlockedSteps(f),
                  [LocalMessage, CreateCheckpoint, StartLocalRun, ResumeLineage],
                  action => f(action).state == Barred, 3)
  {
    places := PickedMeans(f, SECONDARY_ORDER, first, Allowed, 2);
    blocked := PickedMeans(f, BLOCKED_ORDER, None, Barred, 3);
    SameWish(places, Secondary(f, first), SECONDARY_ORDER, Wanted(f, first, Allowed),
             action => f(action).state == Allowed && (first.None? || first.value.action != action), 2);
    SameWish(blocked, BlockedSteps(f), BLOCKED_ORDER, Wanted(f, None, Barred),
             action => f(action).state == Barred, 3);
  }

  lemma SameWish(places: seq<nat>, steps: seq<OperatorAction>, order: seq<OperatorAction>,
                 p: OperatorAction -> bool, q: OperatorAction -> bool, limit: nat)
    requires Picks(places, steps, order, p, limit) && forall action :: p(action) == q(action)
    ensures Picks(places, steps, order, q, limit)
  {
  }
}
