/** Recovery commits prepared on assessments of any age: no update is lost. */
module RecoveryTheorems {
  import opened Wrappers
  import opened Text
  import opened Tables
  import opened HandoffRecords
  import opened ActiveBranch
  import opened ContinuityValidator
  import opened ContinueAssessment
  import opened Recovery
  import opened RecoveryMachine

  // ---- version-guarded commits ----------------------------------------------------------------

  /** A transaction prepared on some earlier assessment, or any other writer of the tables. */
  datatype Commit =
    | Record(a: Assessment, req: ActionRequest, id: Id)
    | Continue(a: Assessment, id: Id)
    | Resume(a: Assessment, summary: string, notes: seq<string>, id: Id)
    | Rebrief(a: Assessment, latestIntent: Option<Id>, newBriefID: Id)
    | Elsewhere(after: Ledger)

  function Apply(l: Ledger, c: Commit): Ledger {
    match c
    case Record(a, req, id) => RecordActionOn(l, a, Recover(a), req, id).1
    case Continue(a, id) => ContinueOn(l, a, Recover(a), id).1
    case Resume(a, summary, notes, id) => ResumeOn(l, a, Recover(a), summary, notes, id).1
    case Rebrief(a, intent, brief) => RebriefOn(l, a, Recover(a), intent, brief).1
    case Elsewhere(after) => after
  }

  /** The other writers of capsules never take a version back. */
  predicate NoRollback(l: Ledger, after: Ledger) {
    forall t :: t in l.capsules ==>
      t in after.capsules && l.capsules[t].version <= after.capsules[t].version
  }

  /** The commit changed its task's capsule. */
  predicate Moves(l: Ledger, c: Commit) {
    !c.Elsewhere? && Apply(l, c).capsules != l.capsules
  }

  /** A recovery commit leaves every capsule alone, or raises exactly its own task's version, from
      the assessed one, by one. */
  lemma CommitRaisesByOne(l: Ledger, c: Commit)
    requires !c.Elsewhere?
    ensures Moves(l, c) ==>
      && c.a.taskID in l.capsules
      && l.capsules[c.a.taskID].version == c.a.capsule.version
      && Apply(l, c).capsules.Keys == l.capsules.Keys
      && Apply(l, c).capsules[c.a.taskID].version == l.capsules[c.a.taskID].version + 1
      && forall t :: t in l.capsules && t != c.a.taskID ==>
           Apply(l, c).capsules[t] == l.capsules[t]
  {
    match c {
      case Record(a, req, id) => RecordRaisesByOne(l, a, Recover(a), req, id);
      case Continue(a, id) => ContinueRaisesByOne(l, a, Recover(a), id);
      case Resume(a, summary, notes, id) =>
        ResumeRaisesByOne(l, a, Recover(a), summary, notes, id);
      case Rebrief(a, intent, brief) => RebriefRaisesByOne(l, a, Recover(a), intent, brief);
    }
  }

  /** One step of a task's version, taken from the assessed version. */
  predicate OneStep(l: Ledger, after: Ledger, a: Assessment) {
    && a.taskID in l.capsules && l.capsules[a.taskID].version == a.capsule.version
    && after.capsules.Keys == l.capsules.Keys
    && after.capsules[a.taskID].version == l.capsules[a.taskID].version + 1
    && forall t :: t in l.capsules && t != a.taskID ==> after.capsules[t] == l.capsules[t]
  }

  lemma RecordRaisesByOne(l: Ledger, a: Assessment, r: Assessed, req: ActionRequest, id: Id)
    ensures var after := RecordActionOn(l, a, r, req, id).1;
      after.capsules == l.capsules || OneStep(l, after, a)
  {
  }

  lemma ContinueRaisesByOne(l: Ledger, a: Assessment, r: Assessed, id: Id)
    ensures var after := ContinueOn(l, a, r, id).1;
      after.capsules == l.capsules || OneStep(l, after, a)
  {
  }

  lemma ResumeRaisesByOne(l: Ledger, a: Assessment, r: Assessed, summary: string,
                          notes: seq<string>, id: Id)
    ensures var after := ResumeOn(l, a, r, summary, notes, id).1;
      after.capsules == l.capsules || OneStep(l, after, a)
  {
  }

  lemma RebriefRaisesByOne(l: Ledger, a: Assessment, r: Assessed, intent: Option<Id>, brief: Id)
    ensures var after := RebriefOn(l, a, r, intent, brief).1;
      after.capsules == l.capsules || OneStep(l, after, a)
  {
  }

  /** The tables before each commit, and after the last one. */
  function History(l: Ledger, commits: seq<Commit>): (h: seq<Ledger>)
    ensures |h| == |commits| + 1 && h[0] == l
    decreases |commits|
  {
    if commits == [] then [l] else [l] + History(Apply(l, commits[0]), commits[1..])
  }

  lemma {:induction false} HistorySteps(l: Ledger, commits: seq<Commit>, i: nat)
    requires i < |commits|
    ensures History(l, commits)[i + 1] == Apply(History(l, commits)[i], commits[i])
    decreases i
  {
    if i > 0 {
      HistorySteps(Apply(l, commits[0]), commits[1..], i - 1);
    }
  }

  predicate OthersKeepVersions(l: Ledger, commits: seq<Commit>) {
    forall i :: 0 <= i < |commits| && commits[i].Elsewhere? ==>
      NoRollback(History(l, commits)[i], commits[i].after)
  }

  lemma CommitGrows(l: Ledger, c: Commit)
    requires !c.Elsewhere?
    ensures NoRollback(l, Apply(l, c))
  {
    CommitRaisesByOne(l, c);
  }

  lemma StepGrows(l: Ledger, commits: seq<Commit>, i: nat)
    requires OthersKeepVersions(l, commits) && i < |commits|
    ensures NoRollback(History(l, commits)[i], History(l, commits)[i + 1])
  {
    HistorySteps(l, commits, i);
    if !commits[i].Elsewhere? {
      CommitGrows(History(l, commits)[i], commits[i]);
    }
  }

  lemma NoRollbackChains(x: Ledger, y: Ledger, z: Ledger)
    requires NoRollback(x, y) && NoRollback(y, z)
    ensures NoRollback(x, z)
  {
  }

  /** Versions only grow along a run. */
  lemma {:induction false} VersionsGrow(l: Ledger, commits: seq<Commit>, i: nat, j: nat)
    requires OthersKeepVersions(l, commits) && i <= j <= |commits|
    ensures NoRollback(History(l, commits)[i], History(l, commits)[j])
    decreases j - i
  {
    if i < j {
      VersionsGrow(l, commits, i, j - 1);
      StepGrows(l, commits, j - 1);
      NoRollbackChains(History(l, commits)[i], History(l, commits)[j - 1], History(l, commits)[j]);
    }
  }

  /** Of commits prepared on the same version of a task, at most one succeeds: two that both
      change the task were prepared on different versions, in the order they commit. */
  lemma NoLostUpdate(l: Ledger, commits: seq<Commit>, i: nat, j: nat)
    requires OthersKeepVersions(l, commits) && i < j < |commits|
    requires Moves(History(l, commits)[i], commits[i]) && Moves(History(l, commits)[j], commits[j])
    requires commits[i].a.taskID == commits[j].a.taskID
    ensures commits[i].a.capsule.version < commits[j].a.capsule.version
  {
    CommitRaisesByOne(History(l, commits)[i], commits[i]);
    CommitRaisesByOne(History(l, commits)[j], commits[j]);
    HistorySteps(l, commits, i);
    VersionsGrow(l, commits, i + 1, j);
  }

  /** The guard covers decisions and executions only. A review does not use up the version, so a
      second review prepared on the same assessment is recorded as well. */
  lemma ReviewsAreNotGuarded(l: Ledger, a: Assessment, r: Assessed, req: ActionRequest, id: Id,
                             id2: Id)
    requires RecordActionOn(l, a, r, req, id).0.Committed? && PhaseMove(req.kind).None?
    ensures var after := RecordActionOn(l, a, r, req, id).1;
      && after.capsules == l.capsules
      && RecordActionOn(after, a, r, req, id2).0.Committed?
      && |RecordActionOn(after, a, r, req, id2).1.actions| == |l.actions| + 2
  {
    assert SaysTheSame(Template(a, r, req, id2), a.latestAction)
        == SaysTheSame(Template(a, r, req, id), a.latestAction);
  }
}
