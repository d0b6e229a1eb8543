/** Runs of recovery commits after a failed run: no shortcut to the next run, however old the
    assessments the commits were prepared on, and the one path there is stays open. */
module RecoveryPath {
  import opened Wrappers
  import opened Text
  import opened Tables
  import opened HandoffRecords
  import opened ActiveBranch
  import opened ContinuityValidator
  import opened ContinueAssessment
  import opened Recovery
  import opened RecoveryMachine
  import opened RecoveryTheorems

  // ---- tasks whose newest run has failed ------------------------------------------------------

  /** Nothing else reported, no drift. */
  const CLEAN := Observation(false, DriftNone)

  /** The newest run has failed, no Claude branch is active, the validator has nothing to report. */
  ghost predicate Quiet(db: Db, taskID: Id) {
    && taskID in db.capsules && !HasViolation(db, taskID)
    && ActivePacket(db, taskID).None?
    && LatestRun(db.runs, taskID).Some? && LatestRun(db.runs, taskID).value.status == RunFailed
  }

  function ClassOf(db: Db, taskID: Id): Class
    requires taskID in db.capsules
  {
    Recover(Assess(db, taskID, CLEAN)).cls
  }

  /** What the class of a quiet task depends on, and the version that guards it. */
  datatype View = View(version: nat, phase: Phase, action: Option<Action>, runID: Id)

  function ViewClass(v: View): Class {
    if v.phase == BriefReady then
      if ContinuePending(v.action) then ContinueExecutionRequired else ReadyNextRun
    else if v.action.Some? && v.action.value.kind == DecisionContinue then
      ContinueExecutionRequired
    else if v.action.Some? && v.action.value.kind == DecisionRegenerateBrief then RebriefRequired
    else if v.phase == AwaitingDecision then DecisionRequired
    else if v.action.Some? && v.action.value.kind == FailedRunReviewed
      && v.action.value.runID == v.runID
    then DecisionRequired
    else FailedRunReviewRequired
  }

  function LedgerOf(db: Db): Ledger {
    Ledger(db.capsules, db.briefs, db.actions)
  }

  /** The tables with another ledger. */
  function WithLedger(db: Db, l: Ledger): Db {
    db.(capsules := l.capsules, briefs := l.briefs, actions := l.actions)
  }

  function RunOf(db: Db, taskID: Id): Id {
    var run := LatestRun(db.runs, taskID);
    if run.Some? then run.value.runID else ""
  }

  function ViewAt(l: Ledger, taskID: Id, runID: Id): View
    requires taskID in l.capsules
  {
    View(l.capsules[taskID].version, l.capsules[taskID].phase, LatestAction(l.actions, taskID), runID)
  }

  lemma QuietVerdict(a: Assessment)
    requires a.branch.packet.None? && a.latestRun.Some? && a.latestRun.value.status == RunFailed
    requires a.outcome == if a.capsule.phase == AwaitingDecision then NeedsDecision else Safe
    ensures var runID := a.latestRun.value.runID;
      && Recover(a).cls == ViewClass(View(a.capsule.version, a.capsule.phase, a.latestAction, runID))
      && Recover(a).runID == runID && Recover(a).latestAction == a.latestAction
  {
  }

  /** After a failed run the class is a function of phase, newest action and run. */
  lemma QuietClassIs(db: Db, taskID: Id)
    requires Quiet(db, taskID)
    ensures ClassOf(db, taskID) == ViewClass(ViewAt(LedgerOf(db), taskID, RunOf(db, taskID)))
    ensures Recover(Assess(db, taskID, CLEAN)).runID == RunOf(db, taskID)
    ensures Recover(Assess(db, taskID, CLEAN)).latestAction == LatestAction(db.actions, taskID)
  {
    QuietVerdict(Assess(db, taskID, CLEAN));
  }

  /** More briefs give the validator no more to report. */
  lemma BriefsOnlyHelp(db: Db, after: Db, taskID: Id)
    requires after == db.(capsules := after.capsules, briefs := after.briefs,
                          actions := after.actions)
    requires db.briefs <= after.briefs
    ensures HasViolation(after, taskID) ==> HasViolation(db, taskID)
  {
    var latest := LatestPacket(db.packets, taskID);
    if latest.Some? {
      forall v: Violation | Flagged(v, after, taskID, latest.value)
        ensures Flagged(v, db, taskID, latest.value)
      {
      }
    }
  }

  /** Capsules stay and briefs are only added. */
  predicate Keeps(l: Ledger, after: Ledger) {
    l.capsules.Keys <= after.capsules.Keys && l.briefs <= after.briefs
  }

  lemma StaysQuiet(db: Db, l: Ledger, taskID: Id)
    requires Quiet(db, taskID) && Keeps(LedgerOf(db), l)
    ensures Quiet(WithLedger(db, l), taskID)
  {
    BriefsOnlyHelp(db, WithLedger(db, l), taskID);
  }

  // ---- what one commit does to the view -------------------------------------------------------

  lemma RecordKeeps(l: Ledger, a: Assessment, r: Assessed, req: ActionRequest, id: Id)
    ensures Keeps(l, RecordActionOn(l, a, r, req, id).1)
  {
  }

  lemma ContinueKeeps(l: Ledger, a: Assessment, r: Assessed, id: Id)
    ensures Keeps(l, ContinueOn(l, a, r, id).1)
  {
  }

  lemma ResumeKeeps(l: Ledger, a: Assessment, r: Assessed, summary: string, notes: seq<string>,
                    id: Id)
    ensures Keeps(l, ResumeOn(l, a, r, summary, notes, id).1)
  {
  }

  lemma RebriefKeeps(l: Ledger, a: Assessment, r: Assessed, intent: Option<Id>, brief: Id)
    ensures Keeps(l, RebriefOn(l, a, r, intent, brief).1)
  {
  }

  lemma CommitKeeps(l: Ledger, c: Commit)
    requires !c.Elsewhere?
    ensures Keeps(l, Apply(l, c))
  {
    match c {
      case Record(a, req, id) => RecordKeeps(l, a, Recover(a), req, id);
      case Continue(a, id) => ContinueKeeps(l, a, Recover(a), id);
      case Resume(a, summary, notes, id) => ResumeKeeps(l, a, Recover(a), summary, notes, id);
      case Rebrief(a, intent, brief) => RebriefKeeps(l, a, Recover(a), intent, brief);
    }
  }

  /** A commit that does something, seen from its task: it was prepared on the version it finds,
      under a class that admits it. */
  predicate Effect(v: View, cls: Class, prepared: nat, c: Commit, w: View) {
    && v.version == prepared && w.runID == v.runID
    && match c
       case Record(_, req, _) =>
         && Recordable(req.kind, cls)
         && w.phase == PhaseMove(req.kind).GetOr(v.phase)
         && w.version == v.version + (if PhaseMove(req.kind).Some? then 1 else 0)
         && w.action.Some? && w.action.value.kind == req.kind
         && (req.kind == FailedRunReviewed ==> w.action.value.runID == v.runID)
       case Continue(_, _) =>
         && cls == ContinueExecutionRequired && w.phase == BriefReady && w.version == v.version + 1
         && w.action.Some? && w.action.value.kind == ContinueExecuted
       case Resume(_, _, _, _) => cls == InterruptedRunRecoverable && w.version == v.version + 1
       case Rebrief(_, _, _) =>
         cls == RebriefRequired && w == v.(phase := BriefReady, version := v.version + 1)
       case Elsewhere(_) => false
  }

  lemma RecordEffect(l: Ledger, a: Assessment, r: Assessed, req: ActionRequest, id: Id)
    requires a.taskID in l.capsules
    ensures var after := RecordActionOn(l, a, r, req, id).1;
      || after == l
      || (&& a.taskID in after.capsules
          && Effect(ViewAt(l, a.taskID, r.runID), r.cls, a.capsule.version, Record(a, req, id),
                    ViewAt(after, a.taskID, r.runID)))
  {
    LastWhereAppend(l.actions, (x: Action) => x.taskID == a.taskID, Template(a, r, req, id));
  }

  lemma ContinueEffect(l: Ledger, a: Assessment, r: Assessed, id: Id)
    requires a.taskID in l.capsules
    ensures var after := ContinueOn(l, a, r, id).1;
      || after == l
      || (&& a.taskID in after.capsules
          && Effect(ViewAt(l, a.taskID, r.runID), r.cls, a.capsule.version, Continue(a, id),
                    ViewAt(after, a.taskID, r.runID)))
  {
    var action := Action(id, a.taskID, ContinueExecuted, r.runID, r.checkpointID, r.handoffID, "",
                         ContinueSummary(l.capsules[a.taskID].briefID), []);
    LastWhereAppend(l.actions, (x: Action) => x.taskID == a.taskID, action);
  }

  lemma RebriefEffect(l: Ledger, a: Assessment, r: Assessed, intent: Option<Id>, brief: Id)
    requires a.taskID in l.capsules
    ensures var after := RebriefOn(l, a, r, intent, brief).1;
      || after == l
      || (&& a.taskID in after.capsules
          && Effect(ViewAt(l, a.taskID, r.runID), r.cls, a.capsule.version,
                    Rebrief(a, intent, brief), ViewAt(after, a.taskID, r.runID)))
  {
  }

  lemma ResumeEffect(l: Ledger, a: Assessment, r: Assessed, summary: string, notes: seq<string>,
                     id: Id)
    requires a.taskID in l.capsules && r.cls != InterruptedRunRecoverable
    ensures ResumeOn(l, a, r, summary, notes, id).1 == l
  {
  }

  // ---- runs, seen from the task ---------------------------------------------------------------

  /** The five classes of the path, in the only order it can be walked. */
  predicate Path(from: Class, c: Commit, to: Class) {
    || from == to
    || (from == FailedRunReviewRequired && to == DecisionRequired
        && c.Record? && c.req.kind == FailedRunReviewed)
    || (from == DecisionRequired && to == ContinueExecutionRequired
        && c.Record? && c.req.kind == DecisionContinue)
    || (from == DecisionRequired && to == RebriefRequired
        && c.Record? && c.req.kind == DecisionRegenerateBrief)
    || (from == ContinueExecutionRequired && to == ReadyNextRun && c.Continue?)
    || (from == RebriefRequired && to == ReadyNextRun && c.Rebrief?)
  }

  /** While the version stands, a view changes at most by a review of the failed run, and only
      where a review or a decision is asked for. */
  predicate Follows(v: View, w: View) {
    && v.version <= w.version
    && (v.version == w.version ==>
          || v == w
          || (&& (ViewClass(v) == FailedRunReviewRequired || ViewClass(v) == DecisionRequired)
              && w.action.Some? && w.action.value.kind == FailedRunReviewed
              && w.action.value.runID == v.runID && w == v.(action := w.action)))
  }

  /** A commit prepared on an earlier view of the same run moves the class along the path. */
  lemma EffectOnPath(read: View, v: View, c: Commit, w: View)
    requires Follows(read, v) && read.runID == v.runID
    requires Effect(v, ViewClass(read), read.version, c, w)
    ensures Path(ViewClass(v), c, ViewClass(w)) && Follows(v, w)
  {
  }

  lemma FollowsChains(u: View, v: View, w: View)
    requires Follows(u, v) && Follows(v, w) && u.runID == v.runID == w.runID
    ensures Follows(u, w)
  {
  }

  /** The commit changes nothing the class depends on, or takes effect as prepared on some view
      up to then. */
  ghost predicate WalksAt(views: seq<View>, c: Commit, i: nat)
    requires i + 1 < |views|
  {
    || views[i + 1] == views[i]
    || exists p :: 0 <= p <= i
                   && Effect(views[i], ViewClass(views[p]), views[p].version, c, views[i + 1])
  }

  ghost predicate Walk(views: seq<View>, commits: seq<Commit>) {
    && |views| == |commits| + 1
    && (forall i :: 0 <= i < |views| ==> views[i].runID == views[0].runID)
    && forall i :: 0 <= i < |commits| ==> WalksAt(views, commits[i], i)
  }

  lemma {:induction false} WalkFollows(views: seq<View>, commits: seq<Commit>, p: nat, i: nat)
    requires Walk(views, commits) && p <= i < |views|
    ensures Follows(views[p], views[i])
    decreases i
  {
    if p < i {
      WalkFollows(views, commits, p, i - 1);
      assert WalksAt(views, commits[i - 1], i - 1);
      if views[i] != views[i - 1] {
        var q :| 0 <= q <= i - 1
          && Effect(views[i - 1], ViewClass(views[q]), views[q].version, commits[i - 1], views[i]);
        WalkFollows(views, commits, q, i - 1);
        EffectOnPath(views[q], views[i - 1], commits[i - 1], views[i]);
        FollowsChains(views[p], views[i - 1], views[i]);
      }
    }
  }

  ghost predicate OnPath(classes: seq<Class>, commits: seq<Commit>) {
    && |classes| == |commits| + 1
    && forall i :: 0 <= i < |commits| ==> Path(classes[i], commits[i], classes[i + 1])
  }

  function Classes(views: seq<View>): (c: seq<Class>)
    ensures |c| == |views| && forall i :: 0 <= i < |views| ==> c[i] == ViewClass(views[i])
  {
    seq(|views|, i requires 0 <= i < |views| => ViewClass(views[i]))
  }

  lemma WalkOnPath(views: seq<View>, commits: seq<Commit>)
    requires Walk(views, commits)
    ensures OnPath(Classes(views), commits)
  {
    forall i | 0 <= i < |commits|
      ensures Path(ViewClass(views[i]), commits[i], ViewClass(views[i + 1]))
    {
      assert WalksAt(views, commits[i], i);
      if views[i + 1] != views[i] {
        var q :| 0 <= q <= i
          && Effect(views[i], ViewClass(views[q]), views[q].version, commits[i], views[i + 1]);
        WalkFollows(views, commits, q, i);
        EffectOnPath(views[q], views[i], commits[i], views[i + 1]);
      }
    }
  }

  // ---- runs of the tables ---------------------------------------------------------------------

  /** Other writers leave what the task's recovery depends on alone. */
  predicate Undisturbed(l: Ledger, after: Ledger, taskID: Id)
    requires taskID in l.capsules
  {
    && Keeps(l, after) && after.capsules[taskID] == l.capsules[taskID]
    && LatestAction(after.actions, taskID) == LatestAction(l.actions, taskID)
  }

  /** The assessment was taken on one of the first ledgers of a run. */
  ghost predicate AssessedIn(db: Db, taskID: Id, h: seq<Ledger>, a: Assessment) {
    exists p :: 0 <= p < |h| && taskID in h[p].capsules
                && a == Assess(WithLedger(db, h[p]), taskID, CLEAN)
  }

  ghost predicate PreparedAt(db: Db, taskID: Id, h: seq<Ledger>, commits: seq<Commit>, i: nat)
    requires |h| == |commits| + 1 && i < |commits|
  {
    && taskID in h[i].capsules
    && (commits[i].Elsewhere? ==> Undisturbed(h[i], commits[i].after, taskID))
    && (!commits[i].Elsewhere? ==> AssessedIn(db, taskID, h[..i + 1], commits[i].a))
  }

  /** Each commit of the task was prepared on the tables of some moment up to its own; in between
      anything may have been committed. */
  ghost predicate Prepared(db: Db, taskID: Id, commits: seq<Commit>) {
    forall i :: 0 <= i < |commits| ==>
      PreparedAt(db, taskID, History(LedgerOf(db), commits), commits, i)
  }

  lemma {:induction false} HistoryKeeps(db: Db, taskID: Id, commits: seq<Commit>, i: nat)
    requires Prepared(db, taskID, commits) && i <= |commits|
    ensures Keeps(LedgerOf(db), History(LedgerOf(db), commits)[i])
  {
    if i > 0 {
      var h := History(LedgerOf(db), commits);
      HistoryKeeps(db, taskID, commits, i - 1);
      HistorySteps(LedgerOf(db), commits, i - 1);
      assert PreparedAt(db, taskID, h, commits, i - 1);
      if !commits[i - 1].Elsewhere? {
        CommitKeeps(h[i - 1], commits[i - 1]);
      }
    }
  }

  /** One commit on the ledger l, prepared on the ledger it read. */
  lemma CommitEffect(db: Db, taskID: Id, read: Ledger, l: Ledger, c: Commit)
    requires Quiet(db, taskID) && Keeps(LedgerOf(db), read) && Keeps(LedgerOf(db), l)
    requires !c.Elsewhere? && c.a == Assess(WithLedger(db, read), taskID, CLEAN)
    ensures taskID in read.capsules && taskID in l.capsules && taskID in Apply(l, c).capsules
    ensures var v := ViewAt(l, taskID, RunOf(db, taskID));
      var w := ViewAt(Apply(l, c), taskID, RunOf(db, taskID));
      w == v || Effect(v, ViewClass(ViewAt(read, taskID, RunOf(db, taskID))),
                       read.capsules[taskID].version, c, w)
  {
    var r := Recover(c.a);
    StaysQuiet(db, read, taskID);
    QuietClassIs(WithLedger(db, read), taskID);
    CommitKeeps(l, c);
    OneEffect(l, c, r);
  }

  lemma OneEffect(l: Ledger, c: Commit, r: Assessed)
    requires !c.Elsewhere? && c.a.taskID in l.capsules && r == Recover(c.a)
    requires r.cls != InterruptedRunRecoverable
    ensures var after := Apply(l, c);
      || after == l
      || (&& c.a.taskID in after.capsules
          && Effect(ViewAt(l, c.a.taskID, r.runID), r.cls, c.a.capsule.version, c,
                    ViewAt(after, c.a.taskID, r.runID)))
  {
    match c {
      case Record(a, req, id) => RecordEffect(l, a, r, req, id);
      case Continue(a, id) => ContinueEffect(l, a, r, id);
      case Resume(a, summary, notes, id) => ResumeEffect(l, a, r, summary, notes, id);
      case Rebrief(a, intent, brief) => RebriefEffect(l, a, r, intent, brief);
    }
  }

  function ViewsOf(h: seq<Ledger>, taskID: Id, runID: Id): (v: seq<View>)
    requires forall i :: 0 <= i < |h| ==> taskID in h[i].capsules
    ensures |v| == |h| && forall i :: 0 <= i < |h| ==> v[i] == ViewAt(h[i], taskID, runID)
  {
    seq(|h|, i requires 0 <= i < |h| => ViewAt(h[i], taskID, runID))
  }

  lemma HistoryHas(db: Db, taskID: Id, commits: seq<Commit>)
    requires taskID in db.capsules && Prepared(db, taskID, commits)
    ensures forall i :: 0 <= i < |History(LedgerOf(db), commits)| ==>
      taskID in History(LedgerOf(db), commits)[i].capsules
  {
    var h := History(LedgerOf(db), commits);
    forall i | 0 <= i < |h| ensures taskID in h[i].capsules {
      HistoryKeeps(db, taskID, commits, i);
    }
  }

  /** The views of a run. */
  ghost function Views(db: Db, taskID: Id, commits: seq<Commit>): (v: seq<View>)
    requires Quiet(db, taskID) && Prepared(db, taskID, commits)
    ensures |v| == |commits| + 1
  {
    HistoryHas(db, taskID, commits);
    ViewsOf(History(LedgerOf(db), commits), taskID, RunOf(db, taskID))
  }

  function ClassesOf(db: Db, h: seq<Ledger>, taskID: Id): (c: seq<Class>)
    requires forall i :: 0 <= i < |h| ==> taskID in h[i].capsules
    ensures |c| == |h|
    ensures forall i :: 0 <= i < |h| ==> c[i] == ClassOf(WithLedger(db, h[i]), taskID)
  {
    seq(|h|, i requires 0 <= i < |h| => ClassOf(WithLedger(db, h[i]), taskID))
  }

  /** The class before each commit of a run, and after the last one. */
  ghost function ClassTrace(db: Db, taskID: Id, commits: seq<Commit>): (c: seq<Class>)
    requires Quiet(db, taskID) && Prepared(db, taskID, commits)
    ensures |c| == |commits| + 1
  {
    HistoryHas(db, taskID, commits);
    ClassesOf(db, History(LedgerOf(db), commits), taskID)
  }

  lemma TraceAt(db: Db, taskID: Id, commits: seq<Commit>, i: nat)
    requires Quiet(db, taskID) && Prepared(db, taskID, commits) && i <= |commits|
    ensures var l := History(LedgerOf(db), commits)[i];
      && taskID in l.capsules
      && ClassTrace(db, taskID, commits)[i] == ClassOf(WithLedger(db, l), taskID)
  {
    HistoryHas(db, taskID, commits);
  }

  lemma TraceIsViewed(db: Db, taskID: Id, commits: seq<Commit>)
    requires Quiet(db, taskID) && Prepared(db, taskID, commits)
    ensures ClassTrace(db, taskID, commits) == Classes(Views(db, taskID, commits))
  {
    var h := History(LedgerOf(db), commits);
    forall i | 0 <= i < |h|
      ensures ClassTrace(db, taskID, commits)[i] == Classes(Views(db, taskID, commits))[i]
    {
      HistoryKeeps(db, taskID, commits, i);
      StaysQuiet(db, h[i], taskID);
      QuietClassIs(WithLedger(db, h[i]), taskID);
    }
  }

  lemma RunIsWalk(db: Db, taskID: Id, commits: seq<Commit>)
    requires Quiet(db, taskID) && Prepared(db, taskID, commits)
    ensures Walk(Views(db, taskID, commits), commits)
  {
    var h := History(LedgerOf(db), commits);
    var views := Views(db, taskID, commits);
    forall i | 0 <= i < |commits|
      ensures WalksAt(views, commits[i], i)
    {
      HistoryKeeps(db, taskID, commits, i);
      HistorySteps(LedgerOf(db), commits, i);
      assert PreparedAt(db, taskID, h, commits, i);
      if !commits[i].Elsewhere? {
        var p :| 0 <= p < |h[..i + 1]| && taskID in h[..i + 1][p].capsules
          && commits[i].a == Assess(WithLedger(db, h[..i + 1][p]), taskID, CLEAN);
        HistoryKeeps(db, taskID, commits, p);
        CommitEffect(db, taskID, h[p], h[i], commits[i]);
      }
    }
  }

  /** Every run of recovery commits stays on the path. */
  lemma TraceOnPath(db: Db, taskID: Id, commits: seq<Commit>)
    requires Quiet(db, taskID) && Prepared(db, taskID, commits)
    ensures OnPath(ClassTrace(db, taskID, commits), commits)
  {
    RunIsWalk(db, taskID, commits);
    WalkOnPath(Views(db, taskID, commits), commits);
    TraceIsViewed(db, taskID, commits);
  }

  /** A sequence that ends elsewhere leaves its starting value at some place. */
  lemma LeavesAt(classes: seq<Class>, p: nat) returns (i: nat)
    requires p < |classes| && classes[|classes| - 1] != classes[p]
    ensures p <= i < |classes| - 1 && classes[i] == classes[p] != classes[i + 1]
  {
    i := p;
    while classes[i + 1] == classes[p]
      invariant p <= i < |classes| - 1 && classes[i] == classes[p]
      decreases |classes| - i
    {
      i := i + 1;
    }
  }

  /** Review, decision, and the execution of that decision, at the given places. */
  ghost predicate InOrder(commits: seq<Commit>, i: nat, j: nat, k: nat) {
    && i < j < k < |commits|
    && commits[i].Record? && commits[i].req.kind == FailedRunReviewed
    && commits[j].Record?
    && ((commits[j].req.kind == DecisionContinue && commits[k].Continue?)
        || (commits[j].req.kind == DecisionRegenerateBrief && commits[k].Rebrief?))
  }

  lemma ThreeLeaves(c: seq<Class>, commits: seq<Commit>) returns (i: nat, j: nat, k: nat)
    requires OnPath(c, commits)
    requires c[0] == FailedRunReviewRequired && c[|commits|] == ReadyNextRun
    ensures InOrder(commits, i, j, k)
    ensures c[i + 1] == c[j] == DecisionRequired
    ensures c[j + 1] == c[k] == if commits[k].Continue? then ContinueExecutionRequired
                                else RebriefRequired
    ensures c[k + 1] == ReadyNextRun
  {
    i := LeavesAt(c, 0);
    assert Path(c[i], commits[i], c[i + 1]);
    j := LeavesAt(c, i + 1);
    assert Path(c[j], commits[j], c[j + 1]);
    k := LeavesAt(c, j + 1);
    assert Path(c[k], commits[k], c[k + 1]);
  }

  /** No run of recovery commits, each prepared on tables as old as the run itself and mixed with
      the work of other tasks, gets from a failed run that needs review to a fresh run without
      three effective commits in this order: the review, a decision, and the execution of that
      decision. */
  lemma ReadyOnlyThroughDecision(db: Db, taskID: Id, commits: seq<Commit>)
    returns (i: nat, j: nat, k: nat)
    requires Quiet(db, taskID) && Prepared(db, taskID, commits)
    requires ClassTrace(db, taskID, commits)[0] == FailedRunReviewRequired
    requires ClassTrace(db, taskID, commits)[|commits|] == ReadyNextRun
    ensures InOrder(commits, i, j, k)
    ensures var c := ClassTrace(db, taskID, commits);
      && c[i + 1] == c[j] == DecisionRequired
      && c[j + 1] == c[k] == (if commits[k].Continue? then ContinueExecutionRequired
                              else RebriefRequired)
      && c[k + 1] == ReadyNextRun
  {
    TraceOnPath(db, taskID, commits);
    i, j, k := ThreeLeaves(ClassTrace(db, taskID, commits), commits);
  }

  // ---- reviews that are taken for older ones --------------------------------------------------

  /** A run that has failed, or is being validated, and the review it waits for. */
  predicate Awaits(cls: Class, kind: ActionKind) {
    || (cls == FailedRunReviewRequired && kind == FailedRunReviewed)
    || (cls == ValidationReviewRequired && kind == ValidationReviewed)
  }

  /** A run still waits for its review, so the newest action does not review that run. */
  lemma NotYetReviewed(a: Assessment, kind: ActionKind)
    requires Awaits(Recover(a).cls, kind)
    ensures a.latestAction.Some? && a.latestAction.value.kind == kind ==>
      a.latestAction.value.runID != Recover(a).runID
  {
    BaseCoherent(a);
    StillWaits(Base(a), kind);
  }

  lemma StillWaits(r: Assessed, kind: ActionKind)
    requires Awaits(Progress(r).cls, kind)
    ensures r.latestAction.Some? && r.latestAction.value.kind == kind ==>
      r.latestAction.value.runID != r.runID
    ensures Progress(r).runID == r.runID
  {
  }

  /** A requested review is recorded exactly when the newest action is not an earlier review of
      that kind with the same notes that the request's summary repeats or leaves open. Such a
      review, always of another run, is replayed instead: nothing is written and the run still
      waits for its review. */
  lemma ReviewRecordedIff(l: Ledger, a: Assessment, req: ActionRequest, id: Id)
    requires Awaits(Recover(a).cls, req.kind) && Unmoved(l, a)
    ensures var (out, after) := RecordActionOn(l, a, Recover(a), req, id);
      && (out.Committed? <==>
            !(a.latestAction.Some? && a.latestAction.value.kind == req.kind
              && a.latestAction.value.notes == NormalizedNotes(req.notes)
              && SameSummary(req.summary, a.latestAction.value.summary)))
      && (!out.Committed? ==>
            && out.Reused? && Some(out.existing) == a.latestAction && after == l
            && out.existing.runID != Recover(a).runID)
  {
    ClassDecides(a);
    NotYetReviewed(a, req.kind);
    ReviewEffect(l, a, Recover(a), req, id);
  }

  lemma ReviewEffect(l: Ledger, a: Assessment, r: Assessed, req: ActionRequest, id: Id)
    requires Awaits(r.cls, req.kind) && Unmoved(l, a) && r.latestAction == a.latestAction
    requires a.latestAction.Some? && a.latestAction.value.kind == req.kind ==>
      a.latestAction.value.runID != r.runID
    ensures RecordActionOn(l, a, r, req, id)
         == if Replayable(req, r) then (Reused(r.latestAction.value), l)
            else (Committed(Some(Template(a, r, req, id))),
                  l.(actions := l.actions + [Template(a, r, req, id)]))
  {
  }

  // ---- the three commits suffice --------------------------------------------------------------

  /** What a recorded action leaves behind. */
  ghost predicate Leaves(l: Ledger, after: Ledger, taskID: Id, phase: Phase, kind: ActionKind,
                         runID: Id)
    requires taskID in l.capsules
  {
    && taskID in after.capsules && after.briefs == l.briefs
    && after.capsules[taskID].phase == phase
    && after.capsules[taskID].briefID == l.capsules[taskID].briefID
    && after.capsules[taskID].intentID == l.capsules[taskID].intentID
    && LatestAction(after.actions, taskID).Some?
    && LatestAction(after.actions, taskID).value.kind == kind
    && (kind == FailedRunReviewed ==> LatestAction(after.actions, taskID).value.runID == runID)
  }

  lemma RecordLeaves(l: Ledger, a: Assessment, r: Assessed, req: ActionRequest, id: Id)
    requires Unmoved(l, a) && Recordable(req.kind, r.cls) && !Replayable(req, r)
    requires !SaysTheSame(Template(a, r, req, id), a.latestAction)
    ensures Leaves(l, RecordActionOn(l, a, r, req, id).1, a.taskID,
                   PhaseMove(req.kind).GetOr(l.capsules[a.taskID].phase), req.kind, r.runID)
  {
    LastWhereAppend(l.actions, (x: Action) => x.taskID == a.taskID, Template(a, r, req, id));
  }

  /** The class such a commit leads to. */
  lemma LeavesClass(db: Db, after: Ledger, taskID: Id, phase: Phase, kind: ActionKind)
    requires Quiet(db, taskID)
    requires Leaves(LedgerOf(db), after, taskID, phase, kind, RunOf(db, taskID))
    ensures Quiet(WithLedger(db, after), taskID)
    ensures phase != BriefReady ==>
      && (kind == FailedRunReviewed ==> ClassOf(WithLedger(db, after), taskID) == DecisionRequired)
      && (kind == DecisionRegenerateBrief ==>
            ClassOf(WithLedger(db, after), taskID) == RebriefRequired)
    ensures kind == DecisionContinue ==>
      ClassOf(WithLedger(db, after), taskID) == ContinueExecutionRequired
  {
    BriefsOnlyHelp(db, WithLedger(db, after), taskID);
    QuietClassIs(WithLedger(db, after), taskID);
  }

  /** The review of a quiet task, prepared and committed at once. */
  function ReviewOf(db: Db, taskID: Id, review: ActionRequest, id: Id): Commit
    requires taskID in db.capsules
  {
    Record(Assess(db, taskID, CLEAN), review, id)
  }

  /** After the review a decision is required. */
  lemma Reviewed(db: Db, taskID: Id, review: ActionRequest, id: Id)
    requires Quiet(db, taskID)
    requires ClassOf(db, taskID) == FailedRunReviewRequired && review.kind == FailedRunReviewed
    requires !Replayable(review, Recover(Assess(db, taskID, CLEAN)))
    ensures var l := Apply(LedgerOf(db), ReviewOf(db, taskID, review, id));
      && Leaves(LedgerOf(db), l, taskID, db.capsules[taskID].phase, FailedRunReviewed,
                RunOf(db, taskID))
      && Quiet(WithLedger(db, l), taskID)
      && ClassOf(WithLedger(db, l), taskID) == DecisionRequired
  {
    var a := Assess(db, taskID, CLEAN);
    NotYetReviewed(a, FailedRunReviewed);
    QuietClassIs(db, taskID);
    RecordLeaves(LedgerOf(db), a, Recover(a), review, id);
    LeavesClass(db, Apply(LedgerOf(db), ReviewOf(db, taskID, review, id)), taskID,
                db.capsules[taskID].phase, FailedRunReviewed);
  }

  function DecisionOf(db: Db, taskID: Id, decision: ActionKind, id: Id): Commit
    requires taskID in db.capsules
  {
    Record(Assess(db, taskID, CLEAN), ActionRequest(decision, "", []), id)
  }

  predicate Decision(kind: ActionKind) {
    kind == DecisionContinue || kind == DecisionRegenerateBrief
  }

  /** After the decision its execution is required. */
  lemma Decided(db: Db, taskID: Id, decision: ActionKind, id: Id)
    requires Quiet(db, taskID) && ClassOf(db, taskID) == DecisionRequired && Decision(decision)
    requires LatestAction(db.actions, taskID).Some?
    requires LatestAction(db.actions, taskID).value.kind == FailedRunReviewed
    ensures var l := Apply(LedgerOf(db), DecisionOf(db, taskID, decision, id));
      && Leaves(LedgerOf(db), l, taskID, PhaseMove(decision).value, decision, RunOf(db, taskID))
      && Quiet(WithLedger(db, l), taskID)
      && ClassOf(WithLedger(db, l), taskID)
           == (if decision == DecisionContinue then ContinueExecutionRequired else RebriefRequired)
  {
    var a := Assess(db, taskID, CLEAN);
    QuietClassIs(db, taskID);
    RecordLeaves(LedgerOf(db), a, Recover(a), ActionRequest(decision, "", []), id);
    LeavesClass(db, Apply(LedgerOf(db), DecisionOf(db, taskID, decision, id)), taskID,
                PhaseMove(decision).value, decision);
  }

  /** The execution that belongs to the newest action, a decision. */
  function ExecutionOf(db: Db, taskID: Id, intent: Option<Id>, newBriefID: Id, id: Id): Commit
    requires taskID in db.capsules && LatestAction(db.actions, taskID).Some?
  {
    if LatestAction(db.actions, taskID).value.kind == DecisionContinue then
      Continue(Assess(db, taskID, CLEAN), id)
    else Rebrief(Assess(db, taskID, CLEAN), intent, newBriefID)
  }

  lemma ContinueLeaves(l: Ledger, a: Assessment, r: Assessed, id: Id)
    requires Unmoved(l, a) && ContinueGuard(a, r) && l.capsules[a.taskID].briefID in l.briefs
    ensures var after := ContinueOn(l, a, r, id).1;
      && a.taskID in after.capsules && after.capsules[a.taskID].phase == BriefReady
      && LatestAction(after.actions, a.taskID).Some?
      && LatestAction(after.actions, a.taskID).value.kind == ContinueExecuted
  {
    var action := Action(id, a.taskID, ContinueExecuted, r.runID, r.checkpointID, r.handoffID, "",
                         ContinueSummary(l.capsules[a.taskID].briefID), []);
    LastWhereAppend(l.actions, (x: Action) => x.taskID == a.taskID, action);
  }

  lemma RebriefLeaves(l: Ledger, a: Assessment, r: Assessed, intent: Option<Id>, brief: Id)
    requires Unmoved(l, a) && RebriefGuard(a, r) && l.capsules[a.taskID].briefID in l.briefs
    requires FitsIntent(intent, l.capsules[a.taskID])
    ensures var after := RebriefOn(l, a, r, intent, brief).1;
      && a.taskID in after.capsules && after.capsules[a.taskID].phase == BriefReady
      && after.actions == l.actions
  {
  }

  /** After the execution a fresh run is offered. */
  lemma Executed(db: Db, taskID: Id, intent: Option<Id>, newBriefID: Id, id: Id)
    requires Quiet(db, taskID) && db.capsules[taskID].briefID in db.briefs
    requires LatestAction(db.actions, taskID).Some?
    requires var kind := LatestAction(db.actions, taskID).value.kind;
      && Decision(kind)
      && (kind == DecisionRegenerateBrief ==> FitsIntent(intent, db.capsules[taskID]))
      && ClassOf(db, taskID) == if kind == DecisionContinue then ContinueExecutionRequired
                                else RebriefRequired
    ensures var l := Apply(LedgerOf(db), ExecutionOf(db, taskID, intent, newBriefID, id));
      && Keeps(LedgerOf(db), l) && Quiet(WithLedger(db, l), taskID)
      && ClassOf(WithLedger(db, l), taskID) == ReadyNextRun
  {
    var a := Assess(db, taskID, CLEAN);
    var c := ExecutionOf(db, taskID, intent, newBriefID, id);
    if c.Continue? {
      ContinueLeaves(LedgerOf(db), a, Recover(a), id);
    } else {
      RebriefLeaves(LedgerOf(db), a, Recover(a), intent, newBriefID);
    }
    CommitKeeps(LedgerOf(db), c);
    var l := Apply(LedgerOf(db), c);
    StaysQuiet(db, l, taskID);
    QuietClassIs(WithLedger(db, l), taskID);
  }

  lemma ThreeLedgers(l: Ledger, c1: Commit, c2: Commit, c3: Commit)
    ensures History(l, [c1, c2, c3])
         == [l, Apply(l, c1), Apply(Apply(l, c1), c2), Apply(Apply(Apply(l, c1), c2), c3)]
  {
    assert [c1, c2, c3][1..] == [c2, c3] && [c2, c3][1..] == [c3] && [c3][1..] == [];
    assert History(Apply(Apply(l, c1), c2), [c3])
        == [Apply(Apply(l, c1), c2), Apply(Apply(Apply(l, c1), c2), c3)];
  }

  /** Three commits in a row, each prepared on the tables it finds. */
  ghost predicate InARow(db: Db, taskID: Id, c1: Commit, c2: Commit, c3: Commit) {
    var l1 := Apply(LedgerOf(db), c1);
    var l2 := Apply(l1, c2);
    && !c1.Elsewhere? && !c2.Elsewhere? && !c3.Elsewhere?
    && taskID in db.capsules && c1.a == Assess(db, taskID, CLEAN)
    && taskID in l1.capsules && c2.a == Assess(WithLedger(db, l1), taskID, CLEAN)
    && taskID in l2.capsules && c3.a == Assess(WithLedger(db, l2), taskID, CLEAN)
  }

  lemma ThreePrepared(db: Db, taskID: Id, h: seq<Ledger>, commits: seq<Commit>)
    requires |commits| == 3 && h == History(LedgerOf(db), commits)
    requires forall i :: 0 <= i < 3 ==>
      && !commits[i].Elsewhere? && taskID in h[i].capsules
      && commits[i].a == Assess(WithLedger(db, h[i]), taskID, CLEAN)
    ensures Prepared(db, taskID, commits)
  {
    forall i | 0 <= i < 3 ensures PreparedAt(db, taskID, h, commits, i) {
      assert h[..i + 1][i] == h[i];
    }
  }

  lemma ThreeInARow(db: Db, taskID: Id, c1: Commit, c2: Commit, c3: Commit)
    requires InARow(db, taskID, c1, c2, c3)
    ensures Prepared(db, taskID, [c1, c2, c3])
  {
    ThreeLedgers(LedgerOf(db), c1, c2, c3);
    assert WithLedger(db, LedgerOf(db)) == db;
    ThreePrepared(db, taskID, History(LedgerOf(db), [c1, c2, c3]), [c1, c2, c3]);
  }

  lemma ThreeEnd(db: Db, taskID: Id, c1: Commit, c2: Commit, c3: Commit)
    requires Quiet(db, taskID) && Prepared(db, taskID, [c1, c2, c3])
    ensures var l3 := Apply(Apply(Apply(LedgerOf(db), c1), c2), c3);
      && taskID in l3.capsules
      && ClassTrace(db, taskID, [c1, c2, c3])[0] == ClassOf(db, taskID)
      && ClassTrace(db, taskID, [c1, c2, c3])[3] == ClassOf(WithLedger(db, l3), taskID)
  {
    var commits := [c1, c2, c3];
    ThreeLedgers(LedgerOf(db), c1, c2, c3);
    TraceAt(db, taskID, commits, 0);
    TraceAt(db, taskID, commits, 3);
    assert WithLedger(db, LedgerOf(db)) == db;
  }

  /** The failed run is reviewed and a decision is asked for. */
  ghost predicate AwaitsDecision(db: Db, taskID: Id) {
    && Quiet(db, taskID) && ClassOf(db, taskID) == DecisionRequired
    && LatestAction(db.actions, taskID).Some?
    && LatestAction(db.actions, taskID).value.kind == FailedRunReviewed
    && db.capsules[taskID].briefID in db.briefs
  }

  /** The decision is made, and what its execution needs is there. */
  ghost predicate AwaitsExecution(db: Db, taskID: Id, intent: Option<Id>) {
    && Quiet(db, taskID) && db.capsules[taskID].briefID in db.briefs
    && LatestAction(db.actions, taskID).Some?
    && var kind := LatestAction(db.actions, taskID).value.kind;
       && Decision(kind)
       && (kind == DecisionRegenerateBrief ==> FitsIntent(intent, db.capsules[taskID]))
       && ClassOf(db, taskID) == if kind == DecisionContinue then ContinueExecutionRequired
                                 else RebriefRequired
  }

  lemma ToDecision(db: Db, taskID: Id, review: ActionRequest, id: Id)
    requires Quiet(db, taskID) && db.capsules[taskID].briefID in db.briefs
    requires ClassOf(db, taskID) == FailedRunReviewRequired && review.kind == FailedRunReviewed
    requires !Replayable(review, Recover(Assess(db, taskID, CLEAN)))
    ensures var next := WithLedger(db, Apply(LedgerOf(db), ReviewOf(db, taskID, review, id)));
      AwaitsDecision(next, taskID)
      && next.capsules[taskID].intentID == db.capsules[taskID].intentID
  {
    Reviewed(db, taskID, review, id);
  }

  lemma ToExecution(db: Db, taskID: Id, decision: ActionKind, intent: Option<Id>, id: Id)
    requires AwaitsDecision(db, taskID) && Decision(decision)
    requires decision == DecisionRegenerateBrief ==> FitsIntent(intent, db.capsules[taskID])
    ensures AwaitsExecution(
      WithLedger(db, Apply(LedgerOf(db), DecisionOf(db, taskID, decision, id))), taskID, intent)
  {
    Decided(db, taskID, decision, id);
  }

  lemma ToReady(db: Db, taskID: Id, intent: Option<Id>, newBriefID: Id, id: Id) returns (c: Commit)
    requires AwaitsExecution(db, taskID, intent)
    ensures !c.Elsewhere? && c.a == Assess(db, taskID, CLEAN)
    ensures if LatestAction(db.actions, taskID).value.kind == DecisionContinue then c.Continue?
            else c.Rebrief?
    ensures taskID in Apply(LedgerOf(db), c).capsules
    ensures ClassOf(WithLedger(db, Apply(LedgerOf(db), c)), taskID) == ReadyNextRun
  {
    c := ExecutionOf(db, taskID, intent, newBriefID, id);
    Executed(db, taskID, intent, newBriefID, id);
  }

  /** From the decision on. */
  lemma TwoCommitsSuffice(db: Db, taskID: Id, decision: ActionKind, intent: Option<Id>,
                          newBriefID: Id, id: Id)
    returns (c2: Commit, c3: Commit)
    requires AwaitsDecision(db, taskID) && Decision(decision)
    requires decision == DecisionRegenerateBrief ==> FitsIntent(intent, db.capsules[taskID])
    ensures c2 == DecisionOf(db, taskID, decision, id) && !c3.Elsewhere?
    ensures if decision == DecisionContinue then c3.Continue? else c3.Rebrief?
    ensures var l2 := Apply(LedgerOf(db), c2);
      && taskID in l2.capsules && c3.a == Assess(WithLedger(db, l2), taskID, CLEAN)
      && taskID in Apply(l2, c3).capsules
      && ClassOf(WithLedger(db, Apply(l2, c3)), taskID) == ReadyNextRun
  {
    c2 := DecisionOf(db, taskID, decision, id);
    ToExecution(db, taskID, decision, intent, id);
    Decided(db, taskID, decision, id);
    c3 := ToReady(WithLedger(db, Apply(LedgerOf(db), c2)), taskID, intent, newBriefID, id);
  }

  lemma ThreeFound(db: Db, taskID: Id, review: ActionRequest, decision: ActionKind,
                   intent: Option<Id>, newBriefID: Id, id: Id)
    returns (c1: Commit, c2: Commit, c3: Commit)
    requires Quiet(db, taskID) && db.capsules[taskID].briefID in db.briefs
    requires ClassOf(db, taskID) == FailedRunReviewRequired && review.kind == FailedRunReviewed
    requires !Replayable(review, Recover(Assess(db, taskID, CLEAN)))
    requires Decision(decision)
    requires decision == DecisionRegenerateBrief ==> FitsIntent(intent, db.capsules[taskID])
    ensures InARow(db, taskID, c1, c2, c3)
    ensures c1.Record? && c1.req == review && c2.Record? && c2.req.kind == decision
    ensures if decision == DecisionContinue then c3.Continue? else c3.Rebrief?
    ensures var l3 := Apply(Apply(Apply(LedgerOf(db), c1), c2), c3);
      taskID in l3.capsules && ClassOf(WithLedger(db, l3), taskID) == ReadyNextRun
  {
    c1 := ReviewOf(db, taskID, review, id);
    ToDecision(db, taskID, review, id);
    var db1 := WithLedger(db, Apply(LedgerOf(db), c1));
    c2, c3 := TwoCommitsSuffice(db1, taskID, decision, intent, newBriefID, id);
  }

  /** The path is open: a review that is not taken for an older one, either decision and its
      execution get every quiet task from a failed run that needs review to a fresh run. */
  lemma ThreeCommitsSuffice(db: Db, taskID: Id, review: ActionRequest, decision: ActionKind,
                            intent: Option<Id>, newBriefID: Id, id: Id)
    returns (commits: seq<Commit>)
    requires Quiet(db, taskID) && db.capsules[taskID].briefID in db.briefs
    requires ClassOf(db, taskID) == FailedRunReviewRequired && review.kind == FailedRunReviewed
    requires !Replayable(review, Recover(Assess(db, taskID, CLEAN)))
    requires Decision(decision)
    requires decision == DecisionRegenerateBrief ==> FitsIntent(intent, db.capsules[taskID])
    ensures |commits| == 3 && Prepared(db, taskID, commits) && InOrder(commits, 0, 1, 2)
    ensures ClassTrace(db, taskID, commits)[0] == FailedRunReviewRequired
    ensures ClassTrace(db, taskID, commits)[3] == ReadyNextRun
  {
    var c1, c2, c3 := ThreeFound(db, taskID, review, decision, intent, newBriefID, id);
    ThreeInARow(db, taskID, c1, c2, c3);
    ThreeEnd(db, taskID, c1, c2, c3);
    commits := [c1, c2, c3];
  }

  // ---- concrete tables ------------------------------------------------------------------------

  const BLOCKED := Capsule("task", 1, Phase.Blocked, "", "brief", RepoAnchor("", "", "", "", "", ""))

  /** One task whose newest of some runs has failed, with the given recovery actions. */
  function FailedTask(runs: seq<Run>, actions: seq<Action>): Db {
    Db(map["task" := BLOCKED], {"brief"}, runs, [], [], [], [], [], [], actions, [])
  }

  lemma FailedTaskIsQuiet(runs: seq<Run>, actions: seq<Action>)
    requires LatestRun(runs, "task").Some? && LatestRun(runs, "task").value.status == RunFailed
    ensures var db := FailedTask(runs, actions);
      && Quiet(db, "task")
      && ClassOf(db, "task") == ViewClass(View(1, Phase.Blocked, LatestAction(actions, "task"),
                                               LatestRun(runs, "task").value.runID))
  {
    assert LatestPacket([], "task").None?;
    QuietClassIs(FailedTask(runs, actions), "task");
  }

  /** Tables to walk the path in: one failed run under one brief, and nothing else. */
  lemma FailedRunToWalkFrom() returns (db: Db)
    ensures Quiet(db, "task") && ClassOf(db, "task") == FailedRunReviewRequired
    ensures db.capsules["task"].briefID in db.briefs
    ensures Recover(Assess(db, "task", CLEAN)).latestAction.None?
  {
    db := FailedTask([Run("run", "task", RunFailed)], []);
    FailedTaskIsQuiet(db.runs, []);
    QuietClassIs(db, "task");
  }

  /** Two runs have failed and the first is reviewed. The review of the second, requested without
      a summary, is answered with the review of the first, and nothing changes. */
  lemma OlderReviewReplayed() returns (db: Db, req: ActionRequest)
    ensures Quiet(db, "task") && ClassOf(db, "task") == FailedRunReviewRequired
    ensures req.kind == FailedRunReviewed && Blank(req.summary) && |db.actions| == 1
    ensures var a := Assess(db, "task", CLEAN);
      && RecordActionOn(LedgerOf(db), a, Recover(a), req, "new")
           == (Reused(db.actions[0]), LedgerOf(db))
      && db.actions[0].runID == "run1" && Recover(a).runID == "run2"
  {
    var review := Action("act", "task", FailedRunReviewed, "run1", "", "", "", "reviewed", []);
    db := FailedTask([Run("run1", "task", RunFailed), Run("run2", "task", RunFailed)], [review]);
    req := ActionRequest(FailedRunReviewed, "", []);
    assert LatestRun(db.runs, "task") == Some(db.runs[1]);
    assert LatestAction(db.actions, "task") == Some(review);
    assert "run1"[3] != "run2"[3];
    FailedTaskIsQuiet(db.runs, db.actions);
    QuietClassIs(db, "task");
    ReviewRecordedIff(LedgerOf(db), Assess(db, "task", CLEAN), req, "new");
  }

  lemma TwoReviews(l: Ledger, a: Assessment, r: Assessed, req: ActionRequest)
    requires Awaits(r.cls, req.kind) && Unmoved(l, a)
    requires r.latestAction == a.latestAction && a.latestAction.None?
    ensures var first := RecordActionOn(l, a, r, req, "act1");
      var second := RecordActionOn(first.1, a, r, req, "act2");
      first.0.Committed? && second.0.Committed? && |second.1.actions| == |l.actions| + 2
  {
    ReviewEffect(l, a, r, req, "act1");
    ReviewsAreNotGuarded(l, a, r, req, "act1", "act2");
  }

  /** Two reviews of one failed run, prepared on the same assessment: both are recorded. */
  lemma ReviewedTwice() returns (db: Db, req: ActionRequest)
    ensures Quiet(db, "task") && ClassOf(db, "task") == FailedRunReviewRequired
    ensures var a := Assess(db, "task", CLEAN);
      var first := RecordActionOn(LedgerOf(db), a, Recover(a), req, "act1");
      var second := RecordActionOn(first.1, a, Recover(a), req, "act2");
      && first.0.Committed? && second.0.Committed?
      && |second.1.actions| == |db.actions| + 2
  {
    db := FailedRunToWalkFrom();
    req := ActionRequest(FailedRunReviewed, "", []);
    var a := Assess(db, "task", CLEAN);
    QuietClassIs(db, "task");
    TwoReviews(LedgerOf(db), a, Recover(a), req);
  }

  /** The decision to regenerate the brief was made for the first run. After the rebrief a second
      run failed, and instead of its review another rebrief is asked for. */
  lemma RegenerateOutlivesItsRun() returns (db: Db)
    ensures Quiet(db, "task") && ClassOf(db, "task") == RebriefRequired
    ensures LatestRun(db.runs, "task").Some? && LatestAction(db.actions, "task").Some?
    ensures LatestRun(db.runs, "task").value.runID
         != LatestAction(db.actions, "task").value.runID
  {
    var decision := Action("act", "task", DecisionRegenerateBrief, "run1", "", "", "", "", []);
    db := FailedTask([Run("run1", "task", RunFailed), Run("run2", "task", RunFailed)], [decision]);
    assert LatestRun(db.runs, "task") == Some(db.runs[1]);
    assert LatestAction(db.actions, "task") == Some(decision);
    assert "run1"[3] != "run2"[3];
    FailedTaskIsQuiet(db.runs, db.actions);
  }
}
