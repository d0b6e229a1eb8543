/** When each recovery executor commits, for the verdict of its own assessment, and the rows it
    then writes. */
module RecoveryAnswers {
  import opened Wrappers
  import opened Text
  import opened HandoffRecords
  import opened ContinueAssessment
  import opened Recovery
  import opened RecoveryMachine

  // ---- notes ----------------------------------------------------------------------------------

  lemma {:induction false} NotesAppend(a: seq<string>, b: seq<string>)
    ensures NormalizedNotes(a + b) == NormalizedNotes(a) + NormalizedNotes(b)
  {
    if a == [] {
      assert a + b == b;
    } else {
      NotesAppend(a[1..], b);
      assert (a + b)[1..] == a[1..] + b;
    }
  }

  /** Notes are kept in order, each trimmed, blank ones dropped. */
  lemma NotesMean(a: seq<string>, note: string)
    ensures NormalizedNotes([]) == []
    ensures NormalizedNotes(a + [note])
         == NormalizedNotes(a) + if Blank(note) then [] else [TrimSpace(note)]
  {
    NotesAppend(a, [note]);
    assert [note][1..] == [];
  }

  // ---- recorded actions -----------------------------------------------------------------------

  /** The newest action already answers the request: same kind and notes, and no other summary
      asked for. An interruption review answers again only while there is an interruption. */
  predicate AnswersAgain(a: Assessment, cls: Class, req: ActionRequest) {
    && a.latestAction.Some?
    && var newest := a.latestAction.value;
       && newest.kind == req.kind && newest.notes == NormalizedNotes(req.notes)
       && (Blank(req.summary) || TrimSpace(req.summary) == TrimSpace(newest.summary))
       && (req.kind.InterruptedRunReviewed? ==> cls.InterruptedRunRecoverable?)
  }

  /** The kinds of action a class waits for. Executors write their own kinds. */
  function Awaited(cls: Class): set<ActionKind> {
    match cls
    case FailedRunReviewRequired => {FailedRunReviewed}
    case InterruptedRunRecoverable => {InterruptedRunReviewed}
    case ValidationReviewRequired => {ValidationReviewed}
    case DecisionRequired => {DecisionContinue, DecisionRegenerateBrief}
    case RepairRequired => {RepairIntentRecorded}
    case DriftBlocked => {RepairIntentRecorded}
    case HandoffLaunchPendingOutcome => {PendingLaunchReviewed}
    case _ => {}
  }

  /** The version assessed is still the stored one. */
  predicate Current(l: Ledger, a: Assessment) {
    a.taskID in l.capsules && l.capsules[a.taskID].version == a.capsule.version
  }

  lemma AwaitedIff(kind: ActionKind, cls: Class)
    ensures Recordable(kind, cls) <==> kind in Awaited(cls)
  {
  }

  /** The check for an equal record, made after the one for a repeated request, never finds one:
      an action that says the same as the record also answers the request. */
  lemma SecondCheckIsIdle(a: Assessment, r: Assessed, req: ActionRequest, id: Id)
    requires r.latestAction == a.latestAction && Recordable(req.kind, r.cls)
    requires SaysTheSame(Template(a, r, req, id), a.latestAction)
    ensures Replayable(req, r)
  {
    var newest := a.latestAction.value;
    if !Blank(req.summary) {
      TrimSpaceIdempotent(req.summary);
    }
  }

  lemma RecordedWith(l: Ledger, a: Assessment, r: Assessed, req: ActionRequest, id: Id)
    requires r.latestAction == a.latestAction
    ensures var out := RecordActionOn(l, a, r, req, id).0;
      && (out.Reused? <==> AnswersAgain(a, r.cls, req))
      && (out.Reused? ==> a.latestAction == Some(out.existing))
      && (out.Committed? <==>
            !AnswersAgain(a, r.cls, req) && req.kind in Awaited(r.cls) && Current(l, a))
  {
    AwaitedIff(req.kind, r.cls);
    if Recordable(req.kind, r.cls) && SaysTheSame(Template(a, r, req, id), a.latestAction) {
      SecondCheckIsIdle(a, r, req, id);
    }
  }

  /** A request is answered with the newest action exactly when that answers it; otherwise it is
      recorded exactly when the class waits for its kind and the capsule has not moved. */
  lemma RecordedIff(l: Ledger, a: Assessment, req: ActionRequest, id: Id)
    ensures var (r, out) := (Recover(a), RecordActionOn(l, a, Recover(a), req, id).0);
      && (out.Reused? <==> AnswersAgain(a, r.cls, req))
      && (out.Reused? ==> a.latestAction == Some(out.existing))
      && (out.Committed? <==>
            !AnswersAgain(a, r.cls, req) && req.kind in Awaited(r.cls) && Current(l, a))
  {
    ClassDecides(a);
    RecordedWith(l, a, Recover(a), req, id);
  }

  /** The ids an action takes over from its assessment. */
  function RunOf(a: Assessment): Id {
    if a.latestRun.Some? then a.latestRun.value.runID else ""
  }

  function CheckpointOf(a: Assessment): Id {
    if a.latestCheckpoint.Some? then a.latestCheckpoint.value.checkpointID else ""
  }

  function HandoffOf(a: Assessment): Id {
    if a.branch.packet.Some? then a.branch.packet.value.handoffID else ""
  }

  /** The verdict carries the assessed ids. */
  lemma VerdictIds(a: Assessment)
    ensures var r := Recover(a);
      r.runID == RunOf(a) && r.checkpointID == CheckpointOf(a) && r.handoffID == HandoffOf(a)
      && r.latestAction == a.latestAction
  {
    ClassDecides(a);
  }

  lemma RecordedRowWith(l: Ledger, a: Assessment, r: Assessed, req: ActionRequest, id: Id)
    requires RecordActionOn(l, a, r, req, id).0.Committed?
    ensures var (out, after) := RecordActionOn(l, a, r, req, id);
      && out.record.Some?
      && var x := out.record.value;
         var decision := x.kind.DecisionContinue? || x.kind.DecisionRegenerateBrief?;
         var ofRun := decision || x.kind.FailedRunReviewed? || x.kind.InterruptedRunReviewed?
                      || x.kind.ValidationReviewed?;
         && after.actions == l.actions + [x] && after.briefs == l.briefs
         && x.actionID == id && x.taskID == a.taskID && x.kind == req.kind
         && x.notes == NormalizedNotes(req.notes)
         && (!Blank(req.summary) ==> x.summary == TrimSpace(req.summary))
         && x.runID == (if ofRun then r.runID else "")
         && x.checkpointID == (if x.kind.PendingLaunchReviewed? then "" else r.checkpointID)
         && x.handoffID == (if decision || x.kind.PendingLaunchReviewed? then r.handoffID else "")
         && x.attemptID == (if x.kind.PendingLaunchReviewed? && a.branch.launch.Some?
                            then a.branch.launch.value.attemptID else "")
  {
  }

  /** A recorded action names what was assessed, as far as its kind is about it. */
  lemma RecordedRow(l: Ledger, a: Assessment, req: ActionRequest, id: Id)
    requires RecordActionOn(l, a, Recover(a), req, id).0.Committed?
    ensures var (out, after) := RecordActionOn(l, a, Recover(a), req, id);
      && out.record.Some?
      && var x := out.record.value;
         var decision := x.kind.DecisionContinue? || x.kind.DecisionRegenerateBrief?;
         var ofRun := decision || x.kind.FailedRunReviewed? || x.kind.InterruptedRunReviewed?
                      || x.kind.ValidationReviewed?;
         && after.actions == l.actions + [x] && after.briefs == l.briefs
         && x.actionID == id && x.taskID == a.taskID && x.kind == req.kind
         && x.notes == NormalizedNotes(req.notes)
         && (!Blank(req.summary) ==> x.summary == TrimSpace(req.summary))
         && x.runID == (if ofRun then RunOf(a) else "")
         && x.checkpointID == (if x.kind.PendingLaunchReviewed? then "" else CheckpointOf(a))
         && x.handoffID == (if decision || x.kind.PendingLaunchReviewed? then HandoffOf(a) else "")
         && x.attemptID == (if x.kind.PendingLaunchReviewed? && a.branch.launch.Some?
                            then a.branch.launch.value.attemptID else "")
  {
    VerdictIds(a);
    RecordedRowWith(l, a, Recover(a), req, id);
  }

  /** A decision moves its task: to BRIEF_READY to continue, to BLOCKED for a new brief. Nothing
      else moves a task, and no other task moves. */
  lemma RecordedMove(l: Ledger, a: Assessment, r: Assessed, req: ActionRequest, id: Id)
    requires RecordActionOn(l, a, r, req, id).0.Committed?
    ensures a.taskID in l.capsules
    ensures var (before, after) := (l.capsules, RecordActionOn(l, a, r, req, id).1.capsules);
      var c := before[a.taskID];
      if req.kind.DecisionContinue? then
        after == before[a.taskID := c.(version := c.version + 1, phase := BriefReady)]
      else if req.kind.DecisionRegenerateBrief? then
        after == before[a.taskID := c.(version := c.version + 1, phase := Phase.Blocked)]
      else after == before
  {
    assert l.capsules[a.taskID].(briefID := l.capsules[a.taskID].briefID) == l.capsules[a.taskID];
  }

  // ---- executors ------------------------------------------------------------------------------

  /** Each executor commits exactly when its class was assessed, the capsule has not moved and the
      brief is stored; what else it checks follows from the class. A rebrief also needs a newest
      intent that is the capsule's, if the capsule names one. */
  lemma ExecutedIff(l: Ledger, a: Assessment, summary: string, notes: seq<string>, id: Id,
                    latestIntent: Option<Id>, newBriefID: Id)
    ensures var r := Recover(a);
      var able := Current(l, a) && l.capsules[a.taskID].briefID in l.briefs;
      && (ContinueOn(l, a, r, id).0.Committed? <==> r.cls.ContinueExecutionRequired? && able)
      && (ResumeOn(l, a, r, summary, notes, id).0.Committed? <==>
            r.cls.InterruptedRunRecoverable? && able)
      && (RebriefOn(l, a, r, latestIntent, newBriefID).0.Committed? <==>
            r.cls.RebriefRequired? && able && latestIntent.Some?
            && (l.capsules[a.taskID].intentID == ""
                || latestIntent.value == l.capsules[a.taskID].intentID))
  {
    ClassDecides(a);
    PendingDecisionBehindClass(a);
  }

  /** What continue finalization and interrupted resume write: the capsule moves to BRIEF_READY with
      its brief, and the action names the assessed run and checkpoint. */
  lemma ExecutedRows(l: Ledger, a: Assessment, r: Assessed, summary: string, notes: seq<string>,
                     id: Id)
    ensures var (out, after) := ContinueOn(l, a, r, id);
      out.Committed? ==>
        && a.taskID in l.capsules && out.record.Some?
        && var (c, x) := (l.capsules[a.taskID], out.record.value);
           && after == Ledger(l.capsules[a.taskID := c.(version := c.version + 1,
                                                        phase := BriefReady)],
                              l.briefs, l.actions + [x])
           && x == Action(id, a.taskID, ContinueExecuted, r.runID, r.checkpointID, r.handoffID, "",
                          x.summary, [])
    ensures var (out, after) := ResumeOn(l, a, r, summary, notes, id);
      out.Committed? ==>
        && a.taskID in l.capsules && out.record.Some?
        && var (c, x) := (l.capsules[a.taskID], out.record.value);
           && after == Ledger(l.capsules[a.taskID := c.(version := c.version + 1,
                                                        phase := BriefReady)],
                              l.briefs, l.actions + [x])
           && x == Action(id, a.taskID, InterruptedResumeExecuted, r.runID, r.checkpointID, "", "",
                          x.summary, NormalizedNotes(notes))
           && (!Blank(summary) ==> x.summary == TrimSpace(summary))
  {
    assert forall c: Capsule :: c.(briefID := c.briefID) == c;
  }

  /** A rebrief stores the new brief, moves the capsule to it and records no action. */
  lemma RebriefRows(l: Ledger, a: Assessment, r: Assessed, latestIntent: Option<Id>, newBriefID: Id)
    ensures var (out, after) := RebriefOn(l, a, r, latestIntent, newBriefID);
      out.Committed? ==>
        && a.taskID in l.capsules && out.record.None?
        && var c := l.capsules[a.taskID];
           after == Ledger(l.capsules[a.taskID := c.(version := c.version + 1, phase := BriefReady,
                                                     briefID := newBriefID)],
                           l.briefs + {newBriefID}, l.actions)
  {
  }
}
