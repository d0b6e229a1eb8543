/** When a triage or a follow-up is refused, answered with an earlier receipt or recorded, and what
    is then written, said on the request and the stored rows. */
module IncidentAnswers {
  import opened Wrappers
  import opened Text
  import opened Tables
  import opened HandoffRecords
  import opened Incidents
  import opened IncidentRecording

  // ---- the rows a request means ---------------------------------------------------------------

  /** The request names a transition receipt; an omitted mode leaves it to the id. */
  predicate Named(mode: ModeRequest, requested: Id) {
    requested != "" && (mode.Omitted? || mode.AskReceipt?)
  }

  /** The request means the newest transition. */
  predicate NewestMeant(mode: ModeRequest, requested: Id) {
    requested == "" && (mode.Omitted? || mode.AskLatest?)
  }

  /** An anchor is found exactly when the request means one transition receipt of the task that
      exists; any other mixture of mode and id is refused. */
  lemma AnchorIff(t: IncidentTables, taskID: Id, mode: ModeRequest, requested: Id)
    ensures AnchorOf(t, taskID, mode, requested).Some? <==>
      || (Named(mode, requested)
          && exists x :: x in t.transitions && x.taskID == taskID && x.receiptID == requested)
      || (NewestMeant(mode, requested) && exists x :: x in t.transitions && x.taskID == taskID)
    ensures AnchorOf(t, taskID, mode, requested).Some? && Named(mode, requested) ==>
      AnchorOf(t, taskID, mode, requested).value == requested
  {
    var resolved := ResolvedMode(mode, requested);
    if resolved.Some? {
      LastWhereFinds(t.transitions, (x: TransitionReceipt) =>
        x.taskID == taskID && (resolved.value.LatestTransition? || x.receiptID == requested));
    }
  }

  /** The newest transition is the last row of the task. */
  lemma AnchorIsNewest(t: IncidentTables, mode: ModeRequest, i: nat)
    requires i < |t.transitions| && NewestMeant(mode, "")
    requires forall j :: i < j < |t.transitions| ==>
      t.transitions[j].taskID != t.transitions[i].taskID
    ensures AnchorOf(t, t.transitions[i].taskID, mode, "") == Some(t.transitions[i].receiptID)
  {
    var resolved := ResolvedMode(mode, "");
    var taskID := t.transitions[i].taskID;
    LastWhereIs(t.transitions, (x: TransitionReceipt) =>
      x.taskID == taskID && (resolved.value.LatestTransition? || x.receiptID == ""), i);
  }

  /** The newest triage of an anchor. */
  lemma TriageIsNewest(triages: seq<Triage>, i: nat)
    requires i < |triages|
    requires forall j :: i < j < |triages| ==>
      !(triages[j].taskID == triages[i].taskID && triages[j].anchorID == triages[i].anchorID)
    ensures LatestTriage(triages, triages[i].taskID, triages[i].anchorID) == Some(triages[i])
    ensures TriageFor(triages, triages[i].taskID, triages[i].anchorID, "") == Some(triages[i])
  {
    var (taskID, anchorID) := (triages[i].taskID, triages[i].anchorID);
    LastWhereIs(triages, (x: Triage) => x.taskID == taskID && x.anchorID == anchorID, i);
  }

  lemma NoTriage(triages: seq<Triage>, taskID: Id, anchorID: Id)
    ensures LatestTriage(triages, taskID, anchorID).None? <==>
      forall x :: x in triages ==> !(x.taskID == taskID && x.anchorID == anchorID)
  {
    LastWhereFinds(triages, (x: Triage) => x.taskID == taskID && x.anchorID == anchorID);
  }

  /** A triage that is asked for by id must be of the task and of the anchor. */
  lemma TriageIsNamed(triages: seq<Triage>, taskID: Id, anchorID: Id, requested: Id)
    requires requested != ""
    requires forall x, y :: x in triages && y in triages && x.receiptID == y.receiptID ==> x == y
    ensures var found := TriageFor(triages, taskID, anchorID, requested);
      && (found.Some? <==> exists x :: x in triages && x.taskID == taskID
                                       && x.receiptID == requested && x.anchorID == anchorID)
      && (found.Some? ==> found.value in triages && found.value.receiptID == requested)
  {
    LastWhereFinds(triages, (x: Triage) => x.taskID == taskID && x.receiptID == requested);
  }

  lemma FollowUpIsNewest(followUps: seq<FollowUp>, i: nat)
    requires i < |followUps|
    requires forall j :: i < j < |followUps| ==>
      !(followUps[j].taskID == followUps[i].taskID && followUps[j].anchorID == followUps[i].anchorID)
    ensures LatestFollowUp(followUps, followUps[i].taskID, followUps[i].anchorID)
         == Some(followUps[i])
  {
    var (taskID, anchorID) := (followUps[i].taskID, followUps[i].anchorID);
    LastWhereIs(followUps, (x: FollowUp) => x.taskID == taskID && x.anchorID == anchorID, i);
  }

  lemma NoFollowUp(followUps: seq<FollowUp>, taskID: Id, anchorID: Id)
    ensures LatestFollowUp(followUps, taskID, anchorID).None? <==>
      forall x :: x in followUps ==> !(x.taskID == taskID && x.anchorID == anchorID)
  {
    LastWhereFinds(followUps, (x: FollowUp) => x.taskID == taskID && x.anchorID == anchorID);
  }

  // ---- the answers ----------------------------------------------------------------------------

  /** The first 400 characters of a trimmed text. */
  predicate Kept(raw: string, kept: string) {
    kept <= TrimSpace(raw) && (|kept| == 400 || (kept == TrimSpace(raw) && |kept| < 400))
  }

  lemma SummaryKept(raw: string, kept: string)
    ensures Kept(raw, kept) <==> kept == NormalSummary(raw)
  {
  }

  /** A triage is refused without a known task and an anchor; the anchor's newest triage is answered
      if it was made the same way, takes the same posture and says the same; otherwise it is
      recorded. */
  lemma TriageIff(t: IncidentTables, req: TriageRequest, id: Id)
    ensures var d := TriageDecision(t, req, id);
      var taskID := TrimSpace(req.taskID);
      var anchor := AnchorOf(t, taskID, req.mode, TrimSpace(req.anchorID));
      var accepted := taskID != "" && taskID in t.tasks && anchor.Some?;
      && (d.RecordError? <==> !accepted)
      && (d.Reused? <==>
            accepted
            && var newest := LatestTriage(t.triages, taskID, anchor.value);
               && newest.Some?
               && (newest.value.mode.TransitionById? <==> TrimSpace(req.anchorID) != "")
               && newest.value.posture == req.posture
               && Kept(req.summary, TrimSpace(newest.value.summary)))
      && (d.Reused? ==> LatestTriage(t.triages, taskID, anchor.value) == Some(d.existing))
  {
    var taskID := TrimSpace(req.taskID);
    var anchor := AnchorOf(t, taskID, req.mode, TrimSpace(req.anchorID));
    if anchor.Some? {
      AnchorIff(t, taskID, req.mode, TrimSpace(req.anchorID));
      var newest := LatestTriage(t.triages, taskID, anchor.value);
      if newest.Some? {
        SummaryKept(req.summary, TrimSpace(newest.value.summary));
      }
    }
  }

  /** A recorded triage names its task, its anchor and how it was found, and is the one row added. */
  lemma TriageRow(t: IncidentTables, req: TriageRequest, id: Id)
    ensures var d := TriageDecision(t, req, id);
      && (!d.New? ==> AddTriage(t, d) == t)
      && (d.New? ==>
            && AddTriage(t, d) == t.(triages := t.triages + [d.receipt])
            && d.receipt.receiptID == id && d.receipt.taskID == TrimSpace(req.taskID)
            && AnchorOf(t, d.receipt.taskID, req.mode, TrimSpace(req.anchorID))
               == Some(d.receipt.anchorID)
            && (d.receipt.mode.TransitionById? <==> TrimSpace(req.anchorID) != "")
            && d.receipt.posture == req.posture
            && (!Blank(req.summary) ==> Kept(req.summary, d.receipt.summary)))
  {
    SummaryKept(req.summary, NormalSummary(req.summary));
  }

  /** A follow-up also needs the triage it hangs on; the anchor's newest follow-up is answered if it
      was made the same way, hangs on the same triage, has the same kind and says the same. */
  lemma FollowUpIff(t: IncidentTables, req: FollowUpRequest, id: Id, now: nat)
    ensures var d := FollowUpDecision(t, req, id, now);
      var taskID := TrimSpace(req.taskID);
      var anchor := AnchorOf(t, taskID, req.mode, TrimSpace(req.anchorID));
      var known := taskID != "" && taskID in t.tasks && anchor.Some?;
      var triage := if known
                    then TriageFor(t.triages, taskID, anchor.value, TrimSpace(req.triageID))
                    else None;
      && (d.RecordError? <==> !known || triage.None?)
      && (d.Reused? <==>
            known && triage.Some?
            && var newest := LatestFollowUp(t.followUps, taskID, anchor.value);
               && newest.Some?
               && (newest.value.mode.TransitionById? <==> TrimSpace(req.anchorID) != "")
               && newest.value.triageID == triage.value.receiptID
               && newest.value.kind == req.kind
               && Kept(req.summary, TrimSpace(newest.value.summary)))
      && (d.Reused? ==> LatestFollowUp(t.followUps, taskID, anchor.value) == Some(d.existing))
  {
    var taskID := TrimSpace(req.taskID);
    var anchor := AnchorOf(t, taskID, req.mode, TrimSpace(req.anchorID));
    if anchor.Some? {
      AnchorIff(t, taskID, req.mode, TrimSpace(req.anchorID));
      var newest := LatestFollowUp(t.followUps, taskID, anchor.value);
      if newest.Some? {
        SummaryKept(req.summary, TrimSpace(newest.value.summary));
      }
    }
  }

  lemma FollowUpRow(t: IncidentTables, req: FollowUpRequest, id: Id, now: nat)
    ensures var d := FollowUpDecision(t, req, id, now);
      && (!d.New? ==> AddFollowUp(t, d) == t)
      && (d.New? ==>
            && AddFollowUp(t, d) == t.(followUps := t.followUps + [d.receipt])
            && d.receipt.receiptID == id && d.receipt.taskID == TrimSpace(req.taskID)
            && AnchorOf(t, d.receipt.taskID, req.mode, TrimSpace(req.anchorID))
               == Some(d.receipt.anchorID)
            && (d.receipt.mode.TransitionById? <==> TrimSpace(req.anchorID) != "")
            && (exists x :: x in t.triages && x.receiptID == d.receipt.triageID
                            && TriageFor(t.triages, d.receipt.taskID, d.receipt.anchorID,
                                         TrimSpace(req.triageID)) == Some(x))
            && d.receipt.kind == req.kind && d.receipt.createdAt == now
            && (!Blank(req.summary) ==> Kept(req.summary, d.receipt.summary)))
  {
    SummaryKept(req.summary, NormalSummary(req.summary));
    var taskID := TrimSpace(req.taskID);
    var anchor := AnchorOf(t, taskID, req.mode, TrimSpace(req.anchorID));
    if anchor.Some? {
      TriageForFinds(t.triages, taskID, anchor.value, TrimSpace(req.triageID));
    }
  }

  lemma TriageForFinds(triages: seq<Triage>, taskID: Id, anchorID: Id, requested: Id)
    ensures var found := TriageFor(triages, taskID, anchorID, requested);
      found.Some? ==>
        && found.value in triages && found.value.taskID == taskID
        && found.value.anchorID == anchorID
        && (requested != "" ==> found.value.receiptID == requested)
  {
    LastWhereFinds(triages, (x: Triage) => x.taskID == taskID && x.receiptID == requested);
    LastWhereFinds(triages, (x: Triage) => x.taskID == taskID && x.anchorID == anchorID);
  }

  // ---- the windows of the reader --------------------------------------------------------------

  /** A recorded follow-up becomes the newest of its task's window, and of no other. */
  lemma WindowGrows(followUps: seq<FollowUp>, f: FollowUp, taskID: Id)
    ensures WindowOf(followUps + [f], taskID)
         == (if f.taskID == taskID
             then [Receipt(f.receiptID, f.anchorID, f.triageID, f.kind, f.createdAt)] else [])
          + WindowOf(followUps, taskID)
  {
    assert (followUps + [f])[..|followUps|] == followUps;
  }

  /** The reader looks at the task's newest triages, three for each follow-up asked for and at least
      ten. */
  lemma TriageWindowIs(triages: seq<Triage>, x: Triage, taskID: Id, limit: nat)
    ensures TriagedAnchors(triages + [x], taskID)
         == TriagedAnchors(triages, taskID) + if x.taskID == taskID then [x.anchorID] else []
    ensures var (all, window) := (TriagedAnchors(triages, taskID), TriageWindow(triages, taskID, limit));
      && |window| <= |all| && window == all[|all| - |window|..]
      && (|window| == |all| || |window| == if limit < 4 then 10 else 3 * limit)
      && |window| <= if limit < 4 then 10 else 3 * limit
  {
    assert (triages + [x])[..|triages|] == triages;
  }
}
