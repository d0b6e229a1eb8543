/** Recording triage and follow-up receipts (continuity_incident_triage.go:147-390,
    continuity_incident_followup.go:91-307). Both reuse the anchor's newest receipt when the
    request repeats it; both decide before their transaction begins. */
module IncidentRecording {
  import opened Wrappers
  import opened Text
  import opened Tables
  import opened HandoffRecords
  import opened Incidents
  import opened IncidentClosure
  import opened ClosureTheorems
  import ReceiptPaging

  datatype AnchorMode = LatestTransition | TransitionById

  /** What the request asks for; any other text is unsupported. */
  datatype ModeRequest = Omitted | AskLatest | AskReceipt | Unsupported

  datatype Triage = Triage(receiptID: Id, taskID: Id, mode: AnchorMode, anchorID: Id,
                           posture: ReceiptPaging.Posture, summary: string)

  datatype FollowUp = FollowUp(receiptID: Id, taskID: Id, mode: AnchorMode, anchorID: Id,
                               triageID: Id, kind: FollowUpKind, summary: string, createdAt: nat)

  datatype IncidentTables = IncidentTables(tasks: set<Id>, transitions: seq<TransitionReceipt>,
                                           triages: seq<Triage>, followUps: seq<FollowUp>)

  datatype Recorded<+T> = RecordError | Reused(existing: T) | New(receipt: T)

  // ---- requests -------------------------------------------------------------------------------

  const MAX_SUMMARY: nat := 400

  /** Trimmed, then cut. */
  function NormalSummary(raw: string): string {
    var t := TrimSpace(raw);
    if |t| > MAX_SUMMARY then t[..MAX_SUMMARY] else t
  }

  function KindLabel(kind: FollowUpKind): string {
    match kind
    case RecordedPending => "recorded pending"
    case Progressed => "progressed"
    case Closed => "closed"
    case Reopened => "reopened"
  }

  function PostureLabel(posture: ReceiptPaging.Posture): string {
    match posture
    case TriagedPosture => "triaged"
    case NeedsFollowUp => "needs_follow_up"
    case Deferred => "deferred"
  }

  function FollowUpText(kind: FollowUpKind, anchorID: Id): string {
    "continuity incident follow-up " + KindLabel(kind) + " at transition " + anchorID
  }

  function TriageText(posture: ReceiptPaging.Posture, anchorID: Id): string {
    "continuity incident " + PostureLabel(posture) + " at transition " + anchorID
  }

  function OrText(summary: string, fallback: string): string {
    if summary == "" then fallback else summary
  }

  /** resolveContinuityIncidentTriageAnchor: the mode, and the id of the transition receipt. */
  function ResolvedMode(mode: ModeRequest, anchorID: Id): Option<AnchorMode> {
    match mode
    case Omitted => Some(if anchorID != "" then TransitionById else LatestTransition)
    case AskLatest => if anchorID != "" then None else Some(LatestTransition)
    case AskReceipt => if anchorID == "" then None else Some(TransitionById)
    case Unsupported => None
  }

  function AnchorOf(t: IncidentTables, taskID: Id, mode: ModeRequest, requested: Id): Option<Id> {
    var resolved := ResolvedMode(mode, requested);
    if resolved.None? then None
    else
      var found := LastWhere(t.transitions, (x: TransitionReceipt) =>
        x.taskID == taskID && (resolved.value.LatestTransition? || x.receiptID == requested));
      if found.None? then None else Some(found.value.receiptID)
  }

  // ---- triage ---------------------------------------------------------------------------------

  datatype TriageRequest = TriageRequest(taskID: Id, mode: ModeRequest, anchorID: Id,
                                         posture: ReceiptPaging.Posture, summary: string)

  function LatestTriage(triages: seq<Triage>, taskID: Id, anchorID: Id): Option<Triage> {
    LastWhere(triages, (x: Triage) => x.taskID == taskID && x.anchorID == anchorID)
  }

  /** continuityIncidentTriageEquivalent; the follow-up posture follows from the posture. */
  predicate RepeatsTriage(latest: Option<Triage>, mode: AnchorMode, posture: ReceiptPaging.Posture,
                          summary: string)
  {
    && latest.Some? && latest.value.mode == mode && latest.value.posture == posture
    && TrimSpace(latest.value.summary) == summary
  }

  /** RecordContinuityIncidentTriage, decided on the tables it read. */
  function TriageDecision(t: IncidentTables, req: TriageRequest, id: Id): Recorded<Triage> {
    var taskID := TrimSpace(req.taskID);
    var requested := TrimSpace(req.anchorID);
    var anchor := AnchorOf(t, taskID, req.mode, requested);
    if taskID == "" || taskID !in t.tasks || anchor.None? then RecordError
    else
      var mode := ResolvedMode(req.mode, requested).value;
      var latest := LatestTriage(t.triages, taskID, anchor.value);
      if RepeatsTriage(latest, mode, req.posture, NormalSummary(req.summary)) then
        Reused(latest.value)
      else
        New(Triage(id, taskID, mode, anchor.value, req.posture,
                   OrText(NormalSummary(req.summary), TriageText(req.posture, anchor.value))))
  }

  function AddTriage(t: IncidentTables, decision: Recorded<Triage>): IncidentTables {
    if decision.New? then t.(triages := t.triages + [decision.receipt]) else t
  }

  // ---- follow-up ------------------------------------------------------------------------------

  datatype FollowUpRequest = FollowUpRequest(taskID: Id, mode: ModeRequest, anchorID: Id,
                                             triageID: Id, kind: FollowUpKind, summary: string)

  function LatestFollowUp(followUps: seq<FollowUp>, taskID: Id, anchorID: Id): Option<FollowUp> {
    LastWhere(followUps, (x: FollowUp) => x.taskID == taskID && x.anchorID == anchorID)
  }

  /** The triage receipt a follow-up hangs on: the one asked for, if it is the anchor's, or the
      anchor's newest. */
  function TriageFor(triages: seq<Triage>, taskID: Id, anchorID: Id, requested: Id)
    : Option<Triage>
  {
    if requested == "" then LatestTriage(triages, taskID, anchorID)
    else
      var found := LastWhere(triages, (x: Triage) => x.taskID == taskID && x.receiptID == requested);
      if found.Some? && found.value.anchorID != anchorID then None else found
  }

  predicate RepeatsFollowUp(latest: Option<FollowUp>, mode: AnchorMode, triageID: Id,
                            kind: FollowUpKind, summary: string)
  {
    && latest.Some? && latest.value.mode == mode && latest.value.triageID == triageID
    && latest.value.kind == kind && TrimSpace(latest.value.summary) == summary
  }

  /** The decision once anchor and triage are found. */
  function FollowUpOn(latest: Option<FollowUp>, taskID: Id, mode: AnchorMode, anchorID: Id,
                      triageID: Id, kind: FollowUpKind, summary: string, id: Id, now: nat)
    : Recorded<FollowUp>
  {
    if RepeatsFollowUp(latest, mode, triageID, kind, NormalSummary(summary)) then
      Reused(latest.value)
    else
      New(FollowUp(id, taskID, mode, anchorID, triageID, kind,
                   OrText(NormalSummary(summary), FollowUpText(kind, anchorID)), now))
  }

  /** RecordContinuityIncidentFollowUp, decided on the tables it read. */
  function FollowUpDecision(t: IncidentTables, req: FollowUpRequest, id: Id, now: nat)
    : Recorded<FollowUp>
  {
    var taskID := TrimSpace(req.taskID);
    var requested := TrimSpace(req.anchorID);
    var anchor := AnchorOf(t, taskID, req.mode, requested);
    if taskID == "" || taskID !in t.tasks || anchor.None? then RecordError
    else
      var triage := TriageFor(t.triages, taskID, anchor.value, TrimSpace(req.triageID));
      if triage.None? then RecordError
      else
        FollowUpOn(LatestFollowUp(t.followUps, taskID, anchor.value), taskID,
                   ResolvedMode(req.mode, requested).value, anchor.value, triage.value.receiptID,
                   req.kind, req.summary, id, now)
  }

  function AddFollowUp(t: IncidentTables, decision: Recorded<FollowUp>): IncidentTables {
    if decision.New? then t.(followUps := t.followUps + [decision.receipt]) else t
  }

  // ---- the code -------------------------------------------------------------------------------

  class IncidentStore {
    var tasks: set<Id>
    var transitions: seq<TransitionReceipt>
    var triages: seq<Triage>
    var followUps: seq<FollowUp>

    function Contents(): IncidentTables
      reads this
    {
      IncidentTables(tasks, transitions, triages, followUps)
    }

    /** resolveContinuityIncidentTriageAnchor */
    method ResolveAnchor(taskID: Id, mode: ModeRequest, requested: Id)
      returns (anchor: Option<Id>, resolved: AnchorMode)
      ensures anchor == AnchorOf(Contents(), taskID, mode, requested)
      ensures anchor.Some? ==> ResolvedMode(mode, requested) == Some(resolved)
    {
      resolved := LatestTransition;
      match mode {
        case Omitted =>
          if requested != "" {
            resolved := TransitionById;
          }
        case AskLatest =>
        case AskReceipt => resolved := TransitionById;
        case Unsupported => return None, resolved;
      }
      var found: Option<TransitionReceipt>;
      if resolved.LatestTransition? {
        if requested != "" {
          return None, resolved;
        }
        found := LastWhere(transitions, (x: TransitionReceipt) => x.taskID == taskID);
        SameAnswer(transitions, (x: TransitionReceipt) => x.taskID == taskID,
                   (x: TransitionReceipt) =>
                     x.taskID == taskID && (resolved.LatestTransition? || x.receiptID == requested));
      } else {
        if requested == "" {
          return None, resolved;
        }
        found := LastWhere(transitions, (x: TransitionReceipt) =>
          x.taskID == taskID && x.receiptID == requested);
        SameAnswer(transitions,
                   (x: TransitionReceipt) => x.taskID == taskID && x.receiptID == requested,
                   (x: TransitionReceipt) =>
                     x.taskID == taskID && (resolved.LatestTransition? || x.receiptID == requested));
      }
      anchor := if found.Some? then Some(found.value.receiptID) else None;
    }

    /** RecordContinuityIncidentTriage */
    method RecordTriage(req: TriageRequest, id: Id) returns (out: Recorded<Triage>)
      modifies this`triages
      ensures out == TriageDecision(old(Contents()), req, id)
      ensures Contents() == AddTriage(old(Contents()), out)
      ensures !out.New? ==> Contents() == old(Contents())
      ensures out.Reused? ==> out.existing in triages
      ensures out.New? ==> TriageLinked(out.receipt, transitions)
    {
      TriageGrounds(Contents(), req, id);
      var taskID := TrimSpace(req.taskID);
      if taskID == "" || taskID !in tasks {
        return RecordError;
      }
      var anchor, mode := ResolveAnchor(taskID, req.mode, TrimSpace(req.anchorID));
      if anchor.None? {
        return RecordError;
      }
      var summary := NormalSummary(req.summary);
      var latest := LatestTriage(triages, taskID, anchor.value);
      if RepeatsTriage(latest, mode, req.posture, summary) {
        return Reused(latest.value);
      }
      var receipt := Triage(id, taskID, mode, anchor.value, req.posture, summary);
      if receipt.summary == "" {
        receipt := receipt.(summary := TriageText(req.posture, anchor.value));
      }
      triages := triages + [receipt];
      out := New(receipt);
    }

    /** RecordContinuityIncidentFollowUp */
    method RecordFollowUp(req: FollowUpRequest, id: Id, now: nat) returns (out: Recorded<FollowUp>)
      modifies this`followUps
      ensures out == FollowUpDecision(old(Contents()), req, id, now)
      ensures Contents() == AddFollowUp(old(Contents()), out)
      ensures !out.New? ==> Contents() == old(Contents())
      ensures out.Reused? ==> out.existing in followUps
      ensures out.New? ==> FollowUpLinked(out.receipt, triages)
    {
      FollowUpGrounds(Contents(), req, id, now);
      var taskID := TrimSpace(req.taskID);
      if taskID == "" || taskID !in tasks {
        return RecordError;
      }
      var anchor, mode := ResolveAnchor(taskID, req.mode, TrimSpace(req.anchorID));
      if anchor.None? {
        return RecordError;
      }
      var triage := TriageFor(triages, taskID, anchor.value, TrimSpace(req.triageID));
      if triage.None? {
        return RecordError;
      }
      var summary := NormalSummary(req.summary);
      var latest := LatestFollowUp(followUps, taskID, anchor.value);
      if RepeatsFollowUp(latest, mode, triage.value.receiptID, req.kind, summary) {
        return Reused(latest.value);
      }
      var receipt := FollowUp(id, taskID, mode, anchor.value, triage.value.receiptID, req.kind,
                              summary, now);
      if receipt.summary == "" {
        receipt := receipt.(summary := FollowUpText(req.kind, anchor.value));
      }
      followUps := followUps + [receipt];
      out := New(receipt);
    }
  }

  lemma {:induction false} SameAnswer<T(!new)>(s: seq<T>, p: T -> bool, q: T -> bool)
    requires forall x :: x in s ==> p(x) == q(x)
    ensures LastWhere(s, p) == LastWhere(s, q)
  {
    if s != [] {
      assert s[|s| - 1] in s;
      assert forall x :: x in s[..|s| - 1] ==> x in s;
      SameAnswer(s[..|s| - 1], p, q);
    }
  }

  // ---- retried requests -----------------------------------------------------------------------

  /** A summary that is stored as it is compared: not blank, and not cut right after a space. */
  predicate Retryable(summary: string) {
    && !Blank(summary)
    && (|TrimSpace(summary)| > MAX_SUMMARY ==> !IsSpace(TrimSpace(summary)[MAX_SUMMARY - 1]))
  }

  lemma {:induction false} LeadingTextStays(s: string)
    requires s != "" && !IsSpace(s[0])
    ensures TrimRight(s) != "" && TrimRight(s)[0] == s[0]
  {
    if IsSpace(s[|s| - 1]) {
      LeadingTextStays(s[..|s| - 1]);
    }
  }

  /** A stored summary compares equal to its own request exactly when it is retryable. */
  lemma StoredMatchesIff(summary: string, fallback: string)
    requires fallback != "" && !IsSpace(fallback[0])
    ensures TrimSpace(OrText(NormalSummary(summary), fallback)) == NormalSummary(summary)
       <==> Retryable(summary)
  {
    var n := NormalSummary(summary);
    TrimSpaceIdempotent(summary);
    if n == "" {
      LeadingTextStays(fallback);
      assert TrimLeft(fallback) == fallback;
    } else {
      assert n[0] == TrimSpace(summary)[0];
      assert TrimLeft(n) == n;
      assert TrimSpace(n) == n <==> !IsSpace(n[|n| - 1]);
    }
  }

  lemma FollowUpAgain(latest: Option<FollowUp>, taskID: Id, mode: AnchorMode, anchorID: Id,
                      triageID: Id, kind: FollowUpKind, summary: string, id: Id, now: nat, id2: Id,
                      now2: nat)
    requires FollowUpOn(latest, taskID, mode, anchorID, triageID, kind, summary, id, now).New?
    ensures var r := FollowUpOn(latest, taskID, mode, anchorID, triageID, kind, summary, id, now)
                       .receipt;
      FollowUpOn(Some(r), taskID, mode, anchorID, triageID, kind, summary, id2, now2)
        == if Retryable(summary) then Reused(r) else New(r.(receiptID := id2, createdAt := now2))
  {
    StoredMatchesIff(summary, FollowUpText(kind, anchorID));
  }

  /** Retrying a follow-up that was just recorded returns its receipt and writes nothing exactly
      when its summary is retryable. Otherwise the retry records the follow-up again. */
  lemma FollowUpRetryReusesIff(t: IncidentTables, req: FollowUpRequest, id: Id, now: nat, id2: Id,
                               now2: nat)
    requires FollowUpDecision(t, req, id, now).New?
    ensures var first := FollowUpDecision(t, req, id, now);
      var after := AddFollowUp(t, first);
      var second := FollowUpDecision(after, req, id2, now2);
      && (second == Reused(first.receipt) <==> Retryable(req.summary))
      && (!Retryable(req.summary) ==>
            second == New(first.receipt.(receiptID := id2, createdAt := now2)))
  {
    var r := FollowUpDecision(t, req, id, now).receipt;
    var anchor := AnchorOf(t, r.taskID, req.mode, TrimSpace(req.anchorID)).value;
    var triage := TriageFor(t.triages, r.taskID, anchor, TrimSpace(req.triageID)).value;
    var latest := LatestFollowUp(t.followUps, r.taskID, anchor);
    LastWhereAppend(t.followUps, (x: FollowUp) => x.taskID == r.taskID && x.anchorID == anchor, r);
    assert LatestFollowUp(t.followUps + [r], r.taskID, anchor) == Some(r);
    FollowUpAgain(latest, r.taskID, r.mode, anchor, triage.receiptID, req.kind, req.summary, id, now,
                  id2, now2);
  }

  /** The same for a triage. */
  lemma TriageRetryReusesIff(t: IncidentTables, req: TriageRequest, id: Id, id2: Id)
    requires TriageDecision(t, req, id).New?
    ensures var first := TriageDecision(t, req, id);
      var after := AddTriage(t, first);
      var second := TriageDecision(after, req, id2);
      && (second == Reused(first.receipt) <==> Retryable(req.summary))
      && (!Retryable(req.summary) ==> second == New(first.receipt.(receiptID := id2)))
  {
    var first := TriageDecision(t, req, id);
    var r := first.receipt;
    var after := AddTriage(t, first);
    LastWhereAppend(t.triages, (x: Triage) => x.taskID == r.taskID && x.anchorID == r.anchorID, r);
    assert LatestTriage(after.triages, r.taskID, r.anchorID) == Some(r);
    StoredMatchesIff(req.summary, TriageText(req.posture, r.anchorID));
  }

  // ---- what such a retry does to the incident's standing --------------------------------------

  /** The task's follow-ups as the roll-up reads them, newest first. */
  function WindowOf(followUps: seq<FollowUp>, taskID: Id): seq<Receipt> {
    if followUps == [] then []
    else
      var f := followUps[|followUps| - 1];
      (if f.taskID == taskID then [Receipt(f.receiptID, f.anchorID, f.triageID, f.kind, f.createdAt)]
       else [])
      + WindowOf(followUps[..|followUps| - 1], taskID)
  }

  lemma {:induction false} WindowMembers(followUps: seq<FollowUp>, taskID: Id)
    ensures forall r :: r in WindowOf(followUps, taskID) <==>
      exists f :: f in followUps && f.taskID == taskID
        && r == Receipt(f.receiptID, f.anchorID, f.triageID, f.kind, f.createdAt)
  {
    if followUps != [] {
      var n := |followUps| - 1;
      WindowMembers(followUps[..n], taskID);
      assert forall f :: f in followUps <==> f == followUps[n] || f in followUps[..n];
    }
  }

  /** Two receipts of one kind on an anchor without others count as repetition. */
  lemma TwiceRepeats(newer: Receipt, older: Receipt, w: seq<Receipt>)
    requires newer.anchorID == older.anchorID != "" && newer.kind == older.kind
    requires newer.anchorID !in Keys(w)
    ensures newer.anchorID in Keys([newer, older] + w)
    ensures Repeats([newer, older] + w, newer.anchorID)
  {
    var a := newer.anchorID;
    var all := [newer, older] + w;
    assert all[1..] == [older] + w && ([older] + w)[1..] == w;
    CountNone(w, a);
    assert OfKey([older] + w, a) == 1;
    assert OfKey(all, a) == 2;
    assert newer in all && forall r :: r in all <==> r == newer || r == older || r in w;
    assert forall r :: r in w ==> Key(r) != a;
    assert KindsOf(all, a) == {newer.kind};
  }

  /** An anchor's first follow-up, retried when its summary is not retryable, makes the task look
      stagnant: the window is no longer stable, whatever else it holds. */
  lemma RetryLooksStagnant(t: IncidentTables, req: FollowUpRequest, id: Id, now: nat, id2: Id,
                           now2: nat, latestTransition: Option<Id>, triages: seq<Id>)
    requires FollowUpDecision(t, req, id, now).New? && !Retryable(req.summary)
    requires var r := FollowUpDecision(t, req, id, now).receipt;
      r.anchorID != "" && r.anchorID !in Keys(WindowOf(t.followUps, r.taskID))
    ensures var first := FollowUpDecision(t, req, id, now);
      var after := AddFollowUp(t, first);
      var after2 := AddFollowUp(after, FollowUpDecision(after, req, id2, now2));
      var w := WindowOf(after2.followUps, first.receipt.taskID);
      && RollupOf(w, latestTransition, triages).repeated > 0
      && ClosureTheorems.ClassOf(w, latestTransition, triages)
           in {WeakLoop, WeakReopened, WeakStagnant}
  {
    FollowUpRetryReusesIff(t, req, id, now, id2, now2);
    var r := FollowUpDecision(t, req, id, now).receipt;
    var r2 := r.(receiptID := id2, createdAt := now2);
    var older := Receipt(r.receiptID, r.anchorID, r.triageID, r.kind, r.createdAt);
    var newer := Receipt(r2.receiptID, r2.anchorID, r2.triageID, r2.kind, r2.createdAt);
    var rest := WindowOf(t.followUps, r.taskID);
    var f1 := t.followUps + [r];
    var f2 := f1 + [r2];
    assert f1[..|t.followUps|] == t.followUps && f2[..|f1|] == f1;
    assert WindowOf(f1, r.taskID) == [older] + rest;
    assert WindowOf(f2, r.taskID) == [newer] + ([older] + rest);
    assert [newer] + ([older] + rest) == [newer, older] + rest;
    var w := WindowOf(f2, r.taskID);
    TwiceRepeats(newer, older, rest);
    ZeroRollup(w, latestTransition, triages);
  }

  // ---- what every run keeps -------------------------------------------------------------------

  /** Every follow-up hangs on a triage of its own task and anchor, and every triage on a
      transition receipt of its own task. */
  ghost predicate Linked(t: IncidentTables) {
    && (forall f :: f in t.followUps ==> FollowUpLinked(f, t.triages))
    && (forall x :: x in t.triages ==> TriageLinked(x, t.transitions))
    && (forall r :: r in t.transitions ==> r.receiptID != "")
  }

  ghost predicate FollowUpLinked(f: FollowUp, triages: seq<Triage>) {
    exists x :: x in triages && x.receiptID == f.triageID && x.taskID == f.taskID
      && x.anchorID == f.anchorID
  }

  ghost predicate TriageLinked(x: Triage, transitions: seq<TransitionReceipt>) {
    exists r :: r in transitions && r.receiptID == x.anchorID && r.taskID == x.taskID
  }

  /** A call decides on the tables it read; by the time it writes, others may have added rows. */
  datatype Event =
    | TriageCall(read: IncidentTables, triage: TriageRequest, id: Id)
    | FollowUpCall(read: IncidentTables, followUp: FollowUpRequest, id: Id, now: nat)
    | Transition(receipt: TransitionReceipt)

  predicate Since(read: IncidentTables, t: IncidentTables) {
    && read.transitions <= t.transitions && read.triages <= t.triages
    && read.followUps <= t.followUps
  }

  predicate Enabled(t: IncidentTables, e: Event) {
    match e
    case TriageCall(read, _, _) => Since(read, t)
    case FollowUpCall(read, _, _, _) => Since(read, t)
    case Transition(receipt) => receipt.receiptID != ""
  }

  function Apply(t: IncidentTables, e: Event): IncidentTables {
    match e
    case TriageCall(read, req, id) => AddTriage(t, TriageDecision(read, req, id))
    case FollowUpCall(read, req, id, now) => AddFollowUp(t, FollowUpDecision(read, req, id, now))
    case Transition(receipt) => t.(transitions := t.transitions + [receipt])
  }

  predicate Runs(t: IncidentTables, events: seq<Event>)
    decreases |events|
  {
    events == [] || (Enabled(t, events[0]) && Runs(Apply(t, events[0]), events[1..]))
  }

  function After(t: IncidentTables, events: seq<Event>): IncidentTables
    decreases |events|
  {
    if events == [] then t else After(Apply(t, events[0]), events[1..])
  }

  lemma AnchorExists(t: IncidentTables, taskID: Id, mode: ModeRequest, requested: Id)
    requires AnchorOf(t, taskID, mode, requested).Some?
    ensures exists r :: && r in t.transitions && r.taskID == taskID
                        && r.receiptID == AnchorOf(t, taskID, mode, requested).value
  {
    var resolved := ResolvedMode(mode, requested).value;
    LastWhereFinds(t.transitions, (x: TransitionReceipt) =>
      x.taskID == taskID && (resolved.LatestTransition? || x.receiptID == requested));
  }

  lemma TriageExists(triages: seq<Triage>, taskID: Id, anchorID: Id, requested: Id)
    requires TriageFor(triages, taskID, anchorID, requested).Some?
    ensures var x := TriageFor(triages, taskID, anchorID, requested).value;
      x in triages && x.taskID == taskID && x.anchorID == anchorID
  {
    LastWhereFinds(triages, (x: Triage) => x.taskID == taskID && x.anchorID == anchorID);
    LastWhereFinds(triages, (x: Triage) => x.taskID == taskID && x.receiptID == requested);
  }

  /** What a triage decision refers to. */
  lemma TriageGrounds(t: IncidentTables, req: TriageRequest, id: Id)
    ensures var out := TriageDecision(t, req, id);
      && (out.Reused? ==> out.existing in t.triages)
      && (out.New? ==> TriageLinked(out.receipt, t.transitions))
  {
    var out := TriageDecision(t, req, id);
    var taskID := TrimSpace(req.taskID);
    var anchor := AnchorOf(t, taskID, req.mode, TrimSpace(req.anchorID));
    if anchor.Some? {
      AnchorExists(t, taskID, req.mode, TrimSpace(req.anchorID));
      LastWhereFinds(t.triages, (x: Triage) => x.taskID == taskID && x.anchorID == anchor.value);
    }
  }

  /** What a follow-up decision refers to. */
  lemma FollowUpGrounds(t: IncidentTables, req: FollowUpRequest, id: Id, now: nat)
    ensures var out := FollowUpDecision(t, req, id, now);
      && (out.Reused? ==> out.existing in t.followUps)
      && (out.New? ==> FollowUpLinked(out.receipt, t.triages))
  {
    var out := FollowUpDecision(t, req, id, now);
    var taskID := TrimSpace(req.taskID);
    var anchor := AnchorOf(t, taskID, req.mode, TrimSpace(req.anchorID));
    if anchor.Some? {
      LastWhereFinds(t.followUps, (x: FollowUp) => x.taskID == taskID && x.anchorID == anchor.value);
      if TriageFor(t.triages, taskID, anchor.value, TrimSpace(req.triageID)).Some? {
        TriageExists(t.triages, taskID, anchor.value, TrimSpace(req.triageID));
      }
    }
  }

  lemma StepKeepsLinked(t: IncidentTables, e: Event)
    requires Linked(t) && Enabled(t, e)
    ensures Linked(Apply(t, e))
  {
    match e {
      case TriageCall(read, req, id) =>
        var decision := TriageDecision(read, req, id);
        TriageGrounds(read, req, id);
        if decision.New? {
          assert TriageLinked(decision.receipt, t.transitions);
          forall f | f in t.followUps ensures FollowUpLinked(f, t.triages + [decision.receipt]) {
            assert FollowUpLinked(f, t.triages);
          }
        }
      case FollowUpCall(read, req, id, now) =>
        var decision := FollowUpDecision(read, req, id, now);
        FollowUpGrounds(read, req, id, now);
        if decision.New? {
          assert FollowUpLinked(decision.receipt, t.triages);
        }
      case Transition(receipt) =>
        forall x | x in t.triages ensures TriageLinked(x, t.transitions + [receipt]) {
          assert TriageLinked(x, t.transitions);
        }
    }
  }

  lemma {:induction false} RunKeepsLinked(t: IncidentTables, events: seq<Event>)
    requires Linked(t) && Runs(t, events)
    ensures Linked(After(t, events))
    decreases |events|
  {
    if events != [] {
      StepKeepsLinked(t, events[0]);
      RunKeepsLinked(Apply(t, events[0]), events[1..]);
    }
  }

  /** The anchors the task's triages name, in the order they were recorded. */
  function TriagedAnchors(triages: seq<Triage>, taskID: Id): seq<Id> {
    if triages == [] then []
    else
      var x := triages[|triages| - 1];
      TriagedAnchors(triages[..|triages| - 1], taskID)
      + (if x.taskID == taskID then [x.anchorID] else [])
  }

  lemma {:induction false} TriagedAnchorsHas(triages: seq<Triage>, taskID: Id, x: Triage)
    requires x in triages && x.taskID == taskID
    ensures x.anchorID in TriagedAnchors(triages, taskID)
  {
    var n := |triages| - 1;
    if x != triages[n] {
      TriagedAnchorsHas(triages[..n], taskID, x);
    }
  }

  /** Over any run from empty tables, however calls overlap: every triaged anchor is counted once,
      as followed up or as triaged without follow-up, in the roll-up of the whole history. */
  lemma EveryTriagedAnchorIsCounted(t: IncidentTables, events: seq<Event>, taskID: Id,
                                    latestTransition: Option<Id>)
    requires t.transitions == [] && t.triages == [] && t.followUps == [] && Runs(t, events)
    ensures var after := After(t, events);
      var triaged := TriagedAnchors(after.triages, taskID);
      var r := RollupOf(WindowOf(after.followUps, taskID), latestTransition, triaged);
      && Keys(WindowOf(after.followUps, taskID)) <= Triaged(triaged)
      && r.distinctAnchors + r.triagedWithout == |Triaged(triaged)|
  {
    RunKeepsLinked(t, events);
    var after := After(t, events);
    var triaged := TriagedAnchors(after.triages, taskID);
    var w := WindowOf(after.followUps, taskID);
    forall k | k in Keys(w) ensures k in Triaged(triaged) {
      FollowedUpIsTriaged(after, taskID, k);
    }
    assert |Triaged(triaged)| == |Keys(w)| + |Triaged(triaged) - Keys(w)| by {
      SplitSize(Triaged(triaged), Keys(w), Triaged(triaged) - Keys(w));
    }
  }

  lemma FollowedUpIsTriaged(t: IncidentTables, taskID: Id, k: Id)
    requires Linked(t) && k in Keys(WindowOf(t.followUps, taskID))
    ensures k in Triaged(TriagedAnchors(t.triages, taskID))
  {
    WindowMembers(t.followUps, taskID);
    var r :| r in WindowOf(t.followUps, taskID) && Key(r) == k;
    var f :| f in t.followUps && f.taskID == taskID
      && r == Receipt(f.receiptID, f.anchorID, f.triageID, f.kind, f.createdAt);
    assert FollowUpLinked(f, t.triages);
    var x :| x in t.triages && x.receiptID == f.triageID && x.taskID == f.taskID
      && x.anchorID == f.anchorID;
    assert TriageLinked(x, t.transitions);
    TriagedAnchorsHas(t.triages, taskID, x);
  }

  // ---- the bounded windows of the reader ------------------------------------------------------

  const TRIAGE_WINDOW: nat := 10

  /** How many triages the follow-up reader looks at. */
  function TriageLimit(limit: nat): nat {
    if 3 * limit < TRIAGE_WINDOW then TRIAGE_WINDOW else 3 * limit
  }

  /** The anchors of the task's newest triages. */
  function TriageWindow(triages: seq<Triage>, taskID: Id, limit: nat): seq<Id> {
    var all := TriagedAnchors(triages, taskID);
    if |all| <= TriageLimit(limit) then all else all[|all| - TriageLimit(limit)..]
  }

  /** Followed-up and untouched anchors are the anchors of either window, each counted once. */
  lemma WindowsAddUp(w: seq<Receipt>, latestTransition: Option<Id>, triages: seq<Id>)
    ensures var r := RollupOf(w, latestTransition, triages);
      && r.distinctAnchors + r.triagedWithout == |Keys(w) + Triaged(triages)|
      && (r.distinctAnchors + r.triagedWithout == |Triaged(triages)| <==>
            Keys(w) <= Triaged(triages))
  {
    UnionSize(Keys(w), Triaged(triages));
  }

  lemma UnionSize(k: set<Id>, t: set<Id>)
    ensures |k| + |t - k| == |k + t|
    ensures |k + t| == |t| <==> k <= t
  {
    SplitSize(k + t, k, t - k);
    SplitSize(k + t, t, k - t);
    if !(k <= t) {
      var x :| x in k && x !in t;
      assert x in k - t;
    }
  }

  /** For any page of the task's follow-ups, in any linked store: the roll-up counts every anchor of
      the triage window once exactly when no followed-up anchor was triaged before that window, and
      so always while the task has no more triages than the window holds. */
  lemma PageAddsUpIff(t: IncidentTables, taskID: Id, w: seq<Receipt>, limit: nat,
                      latestTransition: Option<Id>)
    requires Linked(t) && forall r :: r in w ==> r in WindowOf(t.followUps, taskID)
    ensures var triaged := Triaged(TriageWindow(t.triages, taskID, limit));
      var r := RollupOf(w, latestTransition, TriageWindow(t.triages, taskID, limit));
      && (r.distinctAnchors + r.triagedWithout == |triaged| <==> Keys(w) <= triaged)
      && (|TriagedAnchors(t.triages, taskID)| <= TriageLimit(limit) ==> Keys(w) <= triaged)
  {
    WindowsAddUp(w, latestTransition, TriageWindow(t.triages, taskID, limit));
    if |TriagedAnchors(t.triages, taskID)| <= TriageLimit(limit) {
      forall k | k in Keys(w) ensures k in Triaged(TriageWindow(t.triages, taskID, limit)) {
        var r :| r in w && Key(r) == k;
        assert k in Keys(WindowOf(t.followUps, taskID));
        FollowedUpIsTriaged(t, taskID, k);
      }
    }
  }

  // ---- concrete tables ------------------------------------------------------------------------

  const LAUNCHED := TransitionReceipt("tr", "task", HandoffLaunchTransition, "", "")
  const TRIAGED := Triage("tri", "task", LatestTransition, "tr", ReceiptPaging.NeedsFollowUp, "open")

  /** A follow-up without a summary, recorded and retried at once: it is recorded again. */
  lemma BlankFollowUpTwice() returns (t: IncidentTables, req: FollowUpRequest)
    ensures Linked(t) && Blank(req.summary)
    ensures FollowUpDecision(t, req, "f1", 1).New?
    ensures FollowUpDecision(AddFollowUp(t, FollowUpDecision(t, req, "f1", 1)), req, "f2", 2).New?
  {
    t := IncidentTables({"task"}, [LAUNCHED], [TRIAGED], []);
    req := FollowUpRequest("task", Omitted, "", "", Closed, "");
    assert LAUNCHED in t.transitions;
    assert TrimSpace("task") == "task" && TrimSpace("") == "";
    assert AnchorOf(t, "task", Omitted, "") == Some("tr");
    assert LatestTriage(t.triages, "task", "tr") == Some(TRIAGED);
    FollowUpRetryReusesIff(t, req, "f1", 1, "f2", 2);
  }

  /** A triage without a summary, likewise. */
  lemma BlankTriageTwice() returns (t: IncidentTables, req: TriageRequest)
    ensures Linked(t) && Blank(req.summary)
    ensures TriageDecision(t, req, "t1").New?
    ensures TriageDecision(AddTriage(t, TriageDecision(t, req, "t1")), req, "t2").New?
  {
    t := IncidentTables({"task"}, [LAUNCHED], [], []);
    req := TriageRequest("task", Omitted, "", ReceiptPaging.Deferred, "");
    assert TrimSpace("task") == "task" && TrimSpace("") == "";
    assert AnchorOf(t, "task", Omitted, "") == Some("tr");
    TriageRetryReusesIff(t, req, "t1", "t2");
  }

  function ManyTransitions(n: nat): seq<TransitionReceipt> {
    seq(n, i requires 0 <= i < n => LAUNCHED.(receiptID := Numbered(i + 1)))
  }

  function ManyTriages(n: nat): seq<Triage> {
    seq(n, i requires 0 <= i < n =>
      TRIAGED.(receiptID := Numbered(i + 1), anchorID := Numbered(i + 1)))
  }

  lemma {:induction false} ManyAnchors(triages: seq<Triage>)
    requires forall i :: 0 <= i < |triages| ==>
      triages[i].taskID == "task" && triages[i].anchorID == Numbered(i + 1)
    ensures var all := TriagedAnchors(triages, "task");
      |all| == |triages| && forall i :: 0 <= i < |all| ==> all[i] == Numbered(i + 1)
  {
    if triages != [] {
      ManyAnchors(triages[..|triages| - 1]);
    }
  }

  const LATE := FollowUp("f", "task", TransitionById, Numbered(1), Numbered(1), Closed, "done", 1)

  function ManyTables(n: nat): IncidentTables {
    IncidentTables({"task"}, ManyTransitions(n), ManyTriages(n), [LATE])
  }

  lemma ManyLinked(n: nat)
    requires n > 0
    ensures Linked(ManyTables(n))
  {
    var t := ManyTables(n);
    forall x | x in t.triages ensures TriageLinked(x, t.transitions) {
      var i :| 0 <= i < n && t.triages[i] == x;
      assert t.transitions[i] in t.transitions;
    }
    assert t.triages[0] in t.triages;
  }

  lemma LateWindow()
    ensures WindowOf([LATE], "task") == [Receipt("f", Numbered(1), Numbered(1), Closed, 1)]
    ensures Keys(WindowOf([LATE], "task")) == {Numbered(1)}
  {
    assert [LATE][..0] == [];
    var r := Receipt("f", Numbered(1), Numbered(1), Closed, 1);
    assert WindowOf([LATE], "task") == [r];
    assert r in [r] && Key(r) == Numbered(1);
  }

  /** A triage window of the newest ten of eleven anchors does not hold the first. */
  lemma FirstIsOut(all: seq<Id>)
    requires |all| == 11 && forall i :: 0 <= i < |all| ==> all[i] == Numbered(i + 1)
    ensures Numbered(1) !in Triaged(all[1..])
  {
    forall x | x in all[1..] ensures x != Numbered(1) {
      var i :| 0 <= i < 10 && all[1..][i] == x;
      assert |x| == i + 2;
    }
  }

  /** Eleven triaged anchors, the oldest of them followed up: a page of one counts eleven anchors
      where its triage window holds ten. */
  lemma FollowedUpBeforeTheWindow() returns (t: IncidentTables)
    ensures Linked(t)
    ensures var w := WindowOf(t.followUps, "task");
      var triaged := TriageWindow(t.triages, "task", 1);
      var r := RollupOf(w, None, triaged);
      |w| == 1 && r.distinctAnchors + r.triagedWithout != |Triaged(triaged)|
  {
    t := ManyTables(11);
    ManyLinked(11);
    ManyAnchors(t.triages);
    LateWindow();
    FirstIsOut(TriagedAnchors(t.triages, "task"));
    WindowsAddUp(WindowOf(t.followUps, "task"), None, TriageWindow(t.triages, "task", 1));
  }
}
