/** Regenerating an execution brief from its own output: dedupeNonEmpty (intent_stub.go:408-430),
    buildBriefInputV2 (compiled_brief.go:137-228) and Build (brief_builder.go:31-132). */
module BriefRegeneration {
  import opened Wrappers
  import opened Text
  import opened HandoffRecords

  // ---- deduplication --------------------------------------------------------------------------

  /** The key under which two texts count as the same; the source lower-cases. */
  type Fold = string -> string

  function KeysOf(out: seq<string>, fold: Fold): set<string> {
    set x | x in out :: fold(x)
  }

  function Add(out: seq<string>, item: string, fold: Fold): seq<string> {
    var t := TrimSpace(item);
    if t == "" || fold(t) in KeysOf(out, fold) then out else out + [t]
  }

  /** Scanning on from what was collected so far, up to the limit. */
  function Scan(values: seq<string>, out: seq<string>, limit: int, fold: Fold): seq<string> {
    if values == [] || |out| >= limit then out
    else Scan(values[1..], Add(out, values[0], fold), limit, fold)
  }

  function Dedupe(values: seq<string>, limit: int, fold: Fold): seq<string> {
    if limit <= 0 then [] else Scan(values, [], limit, fold)
  }

  /** dedupeNonEmpty */
  method DedupeNonEmpty(values: seq<string>, limit: int, fold: Fold) returns (out: seq<string>)
    ensures out == Dedupe(values, limit, fold)
  {
    if limit <= 0 {
      return [];
    }
    var seen: set<string> := {};
    out := [];
    for i := 0 to |values|
      invariant |out| < limit && seen == KeysOf(out, fold)
      invariant Scan(values, [], limit, fold) == Scan(values[i..], out, limit, fold)
    {
      var trimmed := TrimSpace(values[i]);
      assert values[i..][0] == values[i] && values[i..][1..] == values[i + 1..];
      if trimmed == "" {
        continue;
      }
      var key := fold(trimmed);
      if key in seen {
        continue;
      }
      seen := seen + {key};
      KeysAdd(out, trimmed, fold);
      out := out + [trimmed];
      if |out| >= limit {
        break;
      }
    }
  }

  lemma KeysAdd(out: seq<string>, t: string, fold: Fold)
    ensures KeysOf(out + [t], fold) == KeysOf(out, fold) + {fold(t)}
  {
    assert forall x :: x in out + [t] <==> x in out || x == t;
  }

  /** Trimmed, not blank, and no two under the same key. */
  ghost predicate Clean(out: seq<string>, fold: Fold) {
    && (forall i :: 0 <= i < |out| ==> out[i] != "" && TrimSpace(out[i]) == out[i])
    && (forall i, j :: 0 <= i < j < |out| ==> fold(out[i]) != fold(out[j]))
  }

  lemma AddKeepsClean(out: seq<string>, item: string, fold: Fold)
    requires Clean(out, fold)
    ensures Clean(Add(out, item, fold), fold) && out <= Add(out, item, fold)
  {
    var t := TrimSpace(item);
    TrimSpaceIdempotent(item);
    if Add(out, item, fold) != out {
      forall i | 0 <= i < |out| ensures fold(out[i]) != fold(t) {
        assert out[i] in out;
        assert fold(out[i]) in KeysOf(out, fold);
      }
      AppendKeepsClean(out, t, fold);
    }
  }

  lemma AppendKeepsClean(out: seq<string>, t: string, fold: Fold)
    requires Clean(out, fold) && t != "" && TrimSpace(t) == t
    requires forall i :: 0 <= i < |out| ==> fold(out[i]) != fold(t)
    ensures Clean(out + [t], fold)
  {
  }

  lemma {:induction false} ScanKeepsClean(values: seq<string>, out: seq<string>, limit: int,
                                          fold: Fold)
    requires Clean(out, fold) && |out| <= limit
    ensures Clean(Scan(values, out, limit, fold), fold)
    ensures out <= Scan(values, out, limit, fold) && |Scan(values, out, limit, fold)| <= limit
  {
    if values != [] && |out| < limit {
      AddKeepsClean(out, values[0], fold);
      ScanKeepsClean(values[1..], Add(out, values[0], fold), limit, fold);
    }
  }

  lemma {:induction false} ScanConcat(a: seq<string>, b: seq<string>, out: seq<string>, limit: int,
                                      fold: Fold)
    ensures Scan(a + b, out, limit, fold) == Scan(b, Scan(a, out, limit, fold), limit, fold)
  {
    if a == [] || |out| >= limit {
      assert a == [] ==> a + b == b;
    } else {
      assert (a + b)[1..] == a[1..] + b;
      ScanConcat(a[1..], b, Add(out, a[0], fold), limit, fold);
    }
  }

  lemma AddNext(d: seq<string>, i: nat, fold: Fold)
    requires Clean(d, fold) && i < |d|
    ensures Add(d[..i], d[i], fold) == d[..i + 1]
  {
    forall x | x in d[..i] ensures fold(x) != fold(d[i]) {
      var k :| 0 <= k < i && d[..i][k] == x;
      assert d[k] == x;
    }
    assert d[..i] + [d[i]] == d[..i + 1];
  }

  /** Scanning the rest of a clean list onto its beginning rebuilds it. */
  lemma {:induction false} ScanRest(d: seq<string>, i: nat, limit: int, fold: Fold)
    requires Clean(d, fold) && |d| <= limit && i <= |d|
    ensures Scan(d[i..], d[..i], limit, fold) == d
    decreases |d| - i
  {
    if i == |d| {
      assert d[..i] == d;
    } else {
      assert d[i..][0] == d[i] && d[i..][1..] == d[i + 1..];
      AddNext(d, i, fold);
      ScanRest(d, i + 1, limit, fold);
    }
  }

  lemma AddKnown(d: seq<string>, i: nat, p: nat, fold: Fold)
    requires Clean(d, fold) && i < p <= |d|
    ensures Add(d[..p], d[i], fold) == d[..p]
  {
    assert d[..p][i] == d[i];
    assert d[i] in d[..p];
  }

  /** Scanning it all onto a prefix skips the prefix and rebuilds it. */
  lemma {:induction false} ScanOwn(d: seq<string>, i: nat, p: nat, limit: int, fold: Fold)
    requires Clean(d, fold) && |d| <= limit && i <= p <= |d|
    ensures Scan(d[i..], d[..p], limit, fold) == d
    decreases p - i
  {
    if i == p {
      ScanRest(d, i, limit, fold);
    } else if p >= limit {
      assert d[..p] == d;
    } else {
      assert d[i..][0] == d[i] && d[i..][1..] == d[i + 1..];
      AddKnown(d, i, p, fold);
      ScanOwn(d, i + 1, p, limit, fold);
    }
  }

  /** Feeding the result back after its first part changes nothing:
      dedupe(A ++ dedupe(A ++ B, n), n) == dedupe(A ++ B, n). */
  lemma DedupeFeedback(a: seq<string>, b: seq<string>, limit: int, fold: Fold)
    ensures Dedupe(a + Dedupe(a + b, limit, fold), limit, fold) == Dedupe(a + b, limit, fold)
  {
    if limit > 0 {
      var p := Scan(a, [], limit, fold);
      var d := Scan(a + b, [], limit, fold);
      ScanConcat(a, b, [], limit, fold);
      ScanConcat(a, d, [], limit, fold);
      ScanKeepsClean(a, [], limit, fold);
      ScanKeepsClean(b, p, limit, fold);
      assert d[0..] == d && d[..|p|] == p;
      ScanOwn(d, 0, |p|, limit, fold);
    }
  }

  lemma {:induction false} ScanFinds(values: seq<string>, out: seq<string>, limit: int, fold: Fold)
    ensures |Scan(values, out, limit, fold)| < limit ==>
      forall x :: x in values && !Blank(x) ==>
        fold(TrimSpace(x)) in KeysOf(Scan(values, out, limit, fold), fold)
    ensures forall y :: y in Scan(values, out, limit, fold) ==>
      y in out || exists x :: x in values && TrimSpace(x) == y
    ensures KeysOf(out, fold) <= KeysOf(Scan(values, out, limit, fold), fold)
  {
    if values != [] && |out| < limit {
      var next := Add(out, values[0], fold);
      if |next| > |out| {
        KeysAdd(out, TrimSpace(values[0]), fold);
      }
      ScanFinds(values[1..], next, limit, fold);
      assert forall x :: x in values <==> x == values[0] || x in values[1..];
    }
  }

  /** What deduplication returns: clean texts that all come from the input, no more than the
      limit, and if it stayed below the limit no text's key is missing. */
  lemma DedupeMeans(values: seq<string>, limit: int, fold: Fold)
    ensures var d := Dedupe(values, limit, fold);
      && Clean(d, fold) && |d| <= (if limit <= 0 then 0 else limit)
      && (forall y :: y in d ==> exists x :: x in values && TrimSpace(x) == y)
      && (|d| < limit ==> forall x :: x in values && !Blank(x) ==>
            fold(TrimSpace(x)) in KeysOf(d, fold))
  {
    if limit > 0 {
      ScanKeepsClean(values, [], limit, fold);
      ScanFinds(values, [], limit, fold);
    }
  }

  // ---- briefs ---------------------------------------------------------------------------------

  datatype BriefPosture = ExecutionReady | ClarificationNeeded | Planning | Validation | Repair
                        | NoPosture

  datatype Readiness = ReadyToExecute | NeedsClarification | PlanningInProgress
                     | ValidationFocused | RepairRecovery | OtherReadiness

  datatype IntentPosture = Exploratory | IntentClarification | OtherIntentPosture

  datatype Intent = Intent(intentID: Id, posture: IntentPosture, readiness: Readiness,
                           objective: string, requestedOutcome: string, normalizedAction: string,
                           scopeSummary: string, constraints: seq<string>,
                           doneCriteria: seq<string>, ambiguityFlags: seq<string>,
                           questions: seq<string>, requiresClarification: bool, evidence: nat)

  /** The part of the capsule a brief is built from. */
  datatype Task = Task(taskID: Id, goal: string, constraints: seq<string>,
                       touchedFiles: seq<string>)

  /** The contents of an execution brief: everything but its id, time, capsule version and hash. */
  datatype Brief = Brief(taskID: Id, intentID: Id, posture: BriefPosture, objective: string,
                         requestedOutcome: string, normalizedAction: string, scopeSummary: string,
                         scopeIn: seq<string>, scopeOut: seq<string>, constraints: seq<string>,
                         doneCriteria: seq<string>, ambiguityFlags: seq<string>,
                         questions: seq<string>, requiresClarification: bool, framing: string,
                         evidence: nat, contextPackID: Id, verbosity: string, policy: string)

  datatype BuildInput = BuildInput(taskID: Id, intentID: Id, posture: BriefPosture, goal: string,
                                   requestedOutcome: string, normalizedAction: string,
                                   scopeSummary: string, constraints: seq<string>,
                                   scopeHints: seq<string>, scopeOutHints: seq<string>,
                                   doneCriteria: seq<string>, ambiguityFlags: seq<string>,
                                   questions: seq<string>, requiresClarification: bool,
                                   framing: string, evidence: nat, contextPackID: Id,
                                   verbosity: string, policy: string)

  function PostureOf(i: Intent): BriefPosture {
    if i.requiresClarification || i.readiness == NeedsClarification
      || i.posture == IntentClarification || i.posture == Exploratory
    then ClarificationNeeded
    else
      match i.readiness
      case PlanningInProgress => Planning
      case ValidationFocused => Validation
      case RepairRecovery => Repair
      case _ => ExecutionReady
  }

  /** The texts the builder falls back on; their wording plays no part. */
  datatype Defaults = Defaults(action: string, scope: string, question: string, policy: string,
                               verbosity: string, builderScope: string, builderObjective: string,
                               doneCriteria: BriefPosture -> string,
                               framing: (BriefPosture, bool) -> string)

  predicate Plain(s: string) {
    !Blank(s) && TrimSpace(s) == s
  }

  /** All default texts are written without outer space, and none is blank. */
  ghost predicate PlainDefaults(w: Defaults) {
    && Plain(w.action) && Plain(w.scope) && Plain(w.policy)
    && (forall p :: Plain(w.doneCriteria(p)))
    && (forall p, c :: Plain(w.framing(p, c)))
  }

  /** The first text that is not blank, trimmed. */
  function FirstText(a: string, b: string): string {
    if Blank(a) then TrimSpace(b) else TrimSpace(a)
  }

  function OrElse(a: string, fallback: string): string {
    if a == "" then fallback else a
  }

  /** buildBriefInputV2 */
  function BuildInputFor(task: Task, i: Intent, previous: Option<Brief>, fold: Fold, w: Defaults)
    : BuildInput
  {
    var posture := PostureOf(i);
    var prior := if previous.Some? then previous.value else NO_BRIEF;
    var questions := Dedupe(i.questions, 6, fold);
    var clarify := i.requiresClarification || posture == ClarificationNeeded;
    var done := Dedupe(i.doneCriteria + prior.doneCriteria, 8, fold);
    BuildInput(task.taskID, i.intentID, posture,
               FirstText(i.objective, FirstText(task.goal, prior.objective)),
               FirstText(i.requestedOutcome, prior.requestedOutcome),
               OrElse(FirstText(i.normalizedAction, prior.normalizedAction), w.action),
               OrElse(FirstText(i.scopeSummary, prior.scopeSummary), w.scope),
               Dedupe(i.constraints + task.constraints + prior.constraints, 16, fold),
               if task.touchedFiles == [] then prior.scopeIn else task.touchedFiles,
               prior.scopeOut,
               if done == [] then [w.doneCriteria(posture)] else done,
               Dedupe(i.ambiguityFlags, 8, fold),
               if clarify && questions == [] then [w.question] else questions,
               clarify, w.framing(posture, clarify), i.evidence, prior.contextPackID,
               OrElse(prior.verbosity, w.verbosity),
               if Blank(prior.policy) then w.policy else prior.policy)
  }

  /** No previous brief: nothing to fall back on. */
  const NO_BRIEF := Brief("", "", NoPosture, "", "", "", "", [], [], [], [], [], [], false, "", 0, "",
                          "", "")

  /** Build */
  function Build(input: BuildInput, w: Defaults): Brief {
    var posture := if input.posture == NoPosture then ClarificationNeeded else input.posture;
    Brief(input.taskID, input.intentID, posture,
          if !Blank(input.goal) then TrimSpace(input.goal)
          else if !Blank(input.normalizedAction) then TrimSpace(input.normalizedAction)
          else w.builderObjective,
          TrimSpace(input.requestedOutcome), input.normalizedAction,
          if Blank(input.scopeSummary) then w.builderScope else TrimSpace(input.scopeSummary),
          input.scopeHints, input.scopeOutHints, input.constraints, input.doneCriteria,
          input.ambiguityFlags, input.questions, input.requiresClarification,
          if Blank(input.framing) then w.framing(posture, input.requiresClarification)
          else TrimSpace(input.framing),
          input.evidence, input.contextPackID, input.verbosity, input.policy)
  }

  // ---- regeneration is a fixpoint -------------------------------------------------------------

  lemma FirstTextFeedback(a: string, b: string)
    ensures TrimSpace(FirstText(a, b)) == FirstText(a, b)
    ensures FirstText(a, FirstText(a, b)) == FirstText(a, b)
  {
    TrimSpaceIdempotent(a);
    TrimSpaceIdempotent(b);
  }

  lemma OrElseFeedback(a: string, b: string, fallback: string)
    requires TrimSpace(fallback) == fallback && fallback != ""
    ensures var r := OrElse(FirstText(a, b), fallback);
      && TrimSpace(r) == r && r != ""
      && OrElse(FirstText(a, r), fallback) == r
  {
    FirstTextFeedback(a, b);
    TrimSpaceIdempotent(a);
  }

  /** The done criteria, default included, survive being fed back. */
  lemma DoneFeedback(own: seq<string>, prior: seq<string>, fallback: string, fold: Fold)
    requires Plain(fallback)
    ensures var d := Dedupe(own + prior, 8, fold);
      var r := if d == [] then [fallback] else d;
      var again := Dedupe(own + r, 8, fold);
      (if again == [] then [fallback] else again) == r
  {
    var d := Dedupe(own + prior, 8, fold);
    if d == [] {
      NothingFound(own, prior, 8, fold);
      ScanConcat(own, [fallback], [], 8, fold);
      assert Scan([fallback], [], 8, fold) == Add([], fallback, fold) by {
        assert [fallback][1..] == [];
      }
      assert KeysOf([], fold) == {};
    } else {
      DedupeFeedback(own, prior, 8, fold);
    }
  }

  lemma NothingFound(own: seq<string>, prior: seq<string>, limit: int, fold: Fold)
    requires limit > 0 && Dedupe(own + prior, limit, fold) == []
    ensures Scan(own, [], limit, fold) == []
  {
    ScanConcat(own, prior, [], limit, fold);
    ScanKeepsClean(own, [], limit, fold);
    ScanKeepsClean(prior, Scan(own, [], limit, fold), limit, fold);
  }

  /** The goal, with its fall-back to the normalized action, survives being fed back. */
  lemma ObjectiveFeedback(own: string, taskGoal: string, prior: string, action: string)
    requires Plain(action)
    ensures var goal := FirstText(own, FirstText(taskGoal, prior));
      var objective := if Blank(goal) then action else TrimSpace(goal);
      var goal2 := FirstText(own, FirstText(taskGoal, objective));
      !Blank(goal2) && TrimSpace(goal2) == objective
  {
    TrimSpaceIdempotent(own);
    TrimSpaceIdempotent(taskGoal);
    TrimSpaceIdempotent(prior);
  }

  /** The brief a task, an intent and a previous brief give. */
  function Regenerate(task: Task, i: Intent, previous: Option<Brief>, fold: Fold, w: Defaults): Brief {
    Build(BuildInputFor(task, i, previous, fold, w), w)
  }

  lemma TextsAreFixed(task: Task, i: Intent, previous: Option<Brief>, fold: Fold, w: Defaults)
    requires PlainDefaults(w)
    ensures var b := Regenerate(task, i, previous, fold, w);
      var c := Regenerate(task, i, Some(b), fold, w);
      && c.objective == b.objective && c.requestedOutcome == b.requestedOutcome
      && c.normalizedAction == b.normalizedAction && c.scopeSummary == b.scopeSummary
  {
    var prior := if previous.Some? then previous.value else NO_BRIEF;
    var action := OrElse(FirstText(i.normalizedAction, prior.normalizedAction), w.action);
    OrElseFeedback(i.normalizedAction, prior.normalizedAction, w.action);
    OrElseFeedback(i.scopeSummary, prior.scopeSummary, w.scope);
    FirstTextFeedback(i.requestedOutcome, prior.requestedOutcome);
    ObjectiveFeedback(i.objective, task.goal, prior.objective, action);
  }

  lemma ListsAreFixed(task: Task, i: Intent, previous: Option<Brief>, fold: Fold, w: Defaults)
    requires PlainDefaults(w)
    ensures var b := Regenerate(task, i, previous, fold, w);
      var c := Regenerate(task, i, Some(b), fold, w);
      && c.constraints == b.constraints && c.doneCriteria == b.doneCriteria
      && c.scopeIn == b.scopeIn && c.scopeOut == b.scopeOut
  {
    var prior := if previous.Some? then previous.value else NO_BRIEF;
    DedupeFeedback(i.constraints + task.constraints, prior.constraints, 16, fold);
    DoneFeedback(i.doneCriteria, prior.doneCriteria, w.doneCriteria(PostureOf(i)), fold);
  }

  /** Regenerating a brief from itself gives the same brief: for every task, intent and previous
      brief or none, only id, time, capsule version and hash can differ. */
  lemma RegenerationIsFixpoint(task: Task, i: Intent, previous: Option<Brief>, fold: Fold,
                               w: Defaults)
    requires PlainDefaults(w)
    ensures var b := Regenerate(task, i, previous, fold, w);
      Regenerate(task, i, Some(b), fold, w) == b
  {
    TextsAreFixed(task, i, previous, fold, w);
    ListsAreFixed(task, i, previous, fold, w);
    assert Plain(w.framing(PostureOf(i), i.requiresClarification || PostureOf(i) == ClarificationNeeded));
  }
}
