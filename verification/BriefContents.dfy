/** What a regenerated brief holds, told by the task, the intent and the previous brief. */
module BriefContents {
  import opened Wrappers
  import opened Text
  import opened HandoffRecords
  import opened BriefRegeneration

  // ---- lists ----------------------------------------------------------------------------------

  /** Position k has a text, and no earlier position has one under the same key. */
  predicate First(values: seq<string>, k: nat, fold: Fold)
    requires k < |values|
  {
    && !Blank(values[k])
    && forall j :: 0 <= j < k && !Blank(values[j]) ==>
         fold(TrimSpace(values[j])) != fold(TrimSpace(values[k]))
  }

  /** The list is made of the first texts of their keys, trimmed and in their order; one is left out
      only if the list is full before it. */
  ghost predicate TakesFirsts(ks: seq<nat>, values: seq<string>, limit: int, d: seq<string>, fold: Fold) {
    && |ks| == |d|
    && (forall m, n :: 0 <= m < n < |ks| ==> ks[m] < ks[n])
    && (forall m :: 0 <= m < |ks| ==>
          ks[m] < |values| && First(values, ks[m], fold) && d[m] == TrimSpace(values[ks[m]]))
    && (forall k :: 0 <= k < |values| && First(values, k, fold) && k !in ks ==>
          |d| == limit && forall m :: 0 <= m < |ks| ==> ks[m] < k)
  }

  lemma DedupeGrows(values: seq<string>, x: string, limit: int, fold: Fold)
    requires limit > 0
    ensures var d := Dedupe(values, limit, fold);
      Dedupe(values + [x], limit, fold) == if |d| >= limit then d else Add(d, x, fold)
  {
    ScanConcat(values, [x], [], limit, fold);
    assert [x][1..] == [];
  }

  lemma FirstInPrefix(values: seq<string>, x: string, k: nat, fold: Fold)
    requires k < |values|
    ensures First(values + [x], k, fold) == First(values, k, fold)
  {
    var all := values + [x];
    assert all[k] == values[k] && forall j :: 0 <= j < k ==> all[j] == values[j];
  }

  /** Once the list is full, a further text changes nothing. */
  lemma FullList(ks: seq<nat>, init: seq<string>, x: string, limit: int, d: seq<string>, fold: Fold)
    requires TakesFirsts(ks, init, limit, d, fold) && |d| == limit
    ensures TakesFirsts(ks, init + [x], limit, d, fold)
  {
    forall k | 0 <= k < |init| ensures First(init + [x], k, fold) == First(init, k, fold) {
      FirstInPrefix(init, x, k, fold);
    }
  }

  /** Below the limit, a further text is left out when it is not the first of its key, and added
      when it is. */
  lemma TextLeftOut(ks: seq<nat>, init: seq<string>, x: string, limit: int, d: seq<string>,
                    fold: Fold)
    requires TakesFirsts(ks, init, limit, d, fold) && !First(init + [x], |init|, fold)
    ensures TakesFirsts(ks, init + [x], limit, d, fold)
  {
    forall k | 0 <= k < |init| ensures First(init + [x], k, fold) == First(init, k, fold) {
      FirstInPrefix(init, x, k, fold);
    }
  }

  lemma TextAdded(ks: seq<nat>, init: seq<string>, x: string, limit: int, d: seq<string>,
                  fold: Fold)
    requires TakesFirsts(ks, init, limit, d, fold) && |d| < limit
    requires First(init + [x], |init|, fold)
    ensures TakesFirsts(ks + [|init|], init + [x], limit, d + [TrimSpace(x)], fold)
  {
    var (all, more, e) := (init + [x], ks + [|init|], d + [TrimSpace(x)]);
    forall m | 0 <= m < |more|
      ensures more[m] < |all| && First(all, more[m], fold) && e[m] == TrimSpace(all[more[m]])
    {
      if m < |ks| {
        FirstInPrefix(init, x, ks[m], fold);
      }
    }
    forall k | 0 <= k < |all| && First(all, k, fold) ensures k in more {
      if k < |init| {
        FirstInPrefix(init, x, k, fold);
        assert k in ks;
      } else {
        assert more[|ks|] == k;
      }
    }
  }

  /** Deduplication keeps the first text of each key, as long as the list is not full. */
  lemma {:induction false} DedupeTakesFirsts(values: seq<string>, limit: int, fold: Fold)
    returns (ks: seq<nat>)
    requires limit > 0
    ensures TakesFirsts(ks, values, limit, Dedupe(values, limit, fold), fold)
    decreases |values|
  {
    if values == [] {
      ks := [];
    } else {
      var (init, x) := (values[..|values| - 1], values[|values| - 1]);
      assert values == init + [x];
      var d := Dedupe(init, limit, fold);
      ks := DedupeTakesFirsts(init, limit, fold);
      DedupeGrows(init, x, limit, fold);
      DedupeFits(init, limit, fold);
      if |d| == limit {
        FullList(ks, init, x, limit, d, fold);
      } else {
        LastIsFirstIff(ks, init, x, limit, d, fold);
        if First(init + [x], |init|, fold) {
          TextAdded(ks, init, x, limit, d, fold);
          ks := ks + [|init|];
        } else {
          TextLeftOut(ks, init, x, limit, d, fold);
        }
      }
    }
  }

  lemma DedupeFits(values: seq<string>, limit: int, fold: Fold)
    requires limit > 0
    ensures |Dedupe(values, limit, fold)| <= limit
  {
    DedupeMeans(values, limit, fold);
  }

  lemma LastIsFirstIff(ks: seq<nat>, init: seq<string>, x: string, limit: int, d: seq<string>,
                       fold: Fold)
    requires TakesFirsts(ks, init, limit, d, fold) && d == Dedupe(init, limit, fold) && |d| < limit
    ensures First(init + [x], |init|, fold)
       <==> !Blank(x) && fold(TrimSpace(x)) !in KeysOf(d, fold)
  {
    var all := init + [x];
    DedupeMeans(init, limit, fold);
    forall j | 0 <= j < |init| && !Blank(all[j])
      ensures fold(TrimSpace(all[j])) in KeysOf(d, fold)
    {
      assert all[j] == init[j] && init[j] in init;
    }
    if !Blank(x) && fold(TrimSpace(x)) in KeysOf(d, fold) {
      var y :| y in d && fold(y) == fold(TrimSpace(x));
      var m :| 0 <= m < |d| && d[m] == y;
      assert all[ks[m]] == init[ks[m]];
    }
  }

  /** What comes first is kept as if it were alone, and in front. */
  lemma FrontIsKept(a: seq<string>, b: seq<string>, limit: int, fold: Fold)
    ensures Dedupe(a, limit, fold) <= Dedupe(a + b, limit, fold)
  {
    if limit > 0 {
      ScanConcat(a, b, [], limit, fold);
      ScanKeepsClean(a, [], limit, fold);
      ScanKeepsClean(b, Scan(a, [], limit, fold), limit, fold);
    }
  }

  // ---- the texts ------------------------------------------------------------------------------

  predicate Said(previous: Option<Brief>, text: Brief -> string) {
    previous.Some? && !Blank(text(previous.value))
  }

  /** The objective: the intent's, else the task's goal, else the previous one, else the action. */
  lemma ObjectiveIs(task: Task, i: Intent, previous: Option<Brief>, fold: Fold, w: Defaults)
    requires PlainDefaults(w)
    ensures var b := Regenerate(task, i, previous, fold, w);
      b.objective == if !Blank(i.objective) then TrimSpace(i.objective)
                     else if !Blank(task.goal) then TrimSpace(task.goal)
                     else if Said(previous, (p: Brief) => p.objective)
                     then TrimSpace(previous.value.objective)
                     else b.normalizedAction
  {
    TrimSpaceIdempotent(i.objective);
    TrimSpaceIdempotent(task.goal);
    TrimSpaceIdempotent(i.normalizedAction);
    if previous.Some? {
      TrimSpaceIdempotent(previous.value.objective);
      TrimSpaceIdempotent(previous.value.normalizedAction);
    }
  }

  /** Outcome, action and scope: the intent's, else the previous one's, else none, the default
      action and the default scope. */
  lemma TextsAre(task: Task, i: Intent, previous: Option<Brief>, fold: Fold, w: Defaults)
    requires PlainDefaults(w)
    ensures var b := Regenerate(task, i, previous, fold, w);
      && (b.requestedOutcome ==
            if !Blank(i.requestedOutcome) then TrimSpace(i.requestedOutcome)
            else if previous.Some? then TrimSpace(previous.value.requestedOutcome)
            else "")
      && (b.normalizedAction ==
            if !Blank(i.normalizedAction) then TrimSpace(i.normalizedAction)
            else if Said(previous, (p: Brief) => p.normalizedAction)
            then TrimSpace(previous.value.normalizedAction)
            else w.action)
      && (b.scopeSummary ==
            if !Blank(i.scopeSummary) then TrimSpace(i.scopeSummary)
            else if Said(previous, (p: Brief) => p.scopeSummary)
            then TrimSpace(previous.value.scopeSummary)
            else w.scope)
  {
    TrimSpaceIdempotent(i.requestedOutcome);
    TrimSpaceIdempotent(i.scopeSummary);
    if previous.Some? {
      TrimSpaceIdempotent(previous.value.requestedOutcome);
      TrimSpaceIdempotent(previous.value.scopeSummary);
    }
  }

  // ---- the posture ----------------------------------------------------------------------------

  /** The intent asks for clarification, in any of the four ways it can. */
  predicate Unclear(i: Intent) {
    || i.requiresClarification || i.readiness.NeedsClarification?
    || i.posture.IntentClarification? || i.posture.Exploratory?
  }

  /** An unclear intent makes a clarification brief; otherwise its readiness decides. The brief asks
      for clarification exactly when that is its posture. */
  lemma PostureIff(task: Task, i: Intent, previous: Option<Brief>, fold: Fold, w: Defaults)
    ensures var b := Regenerate(task, i, previous, fold, w);
      && (b.posture.ClarificationNeeded? <==> Unclear(i))
      && (b.posture.Planning? <==> !Unclear(i) && i.readiness.PlanningInProgress?)
      && (b.posture.Validation? <==> !Unclear(i) && i.readiness.ValidationFocused?)
      && (b.posture.Repair? <==> !Unclear(i) && i.readiness.RepairRecovery?)
      && (b.posture.ExecutionReady? <==>
            !Unclear(i) && (i.readiness.ReadyToExecute? || i.readiness.OtherReadiness?))
      && (b.requiresClarification <==> Unclear(i))
  {
  }

  /** The questions are the intent's, without repetition and at most six; an unclear intent without
      any is given the default one. */
  lemma QuestionsAre(task: Task, i: Intent, previous: Option<Brief>, fold: Fold, w: Defaults)
    returns (ks: seq<nat>)
    ensures var b := Regenerate(task, i, previous, fold, w);
      var none := forall q :: q in i.questions ==> Blank(q);
      if none && Unclear(i) then b.questions == [w.question]
      else TakesFirsts(ks, i.questions, 6, b.questions, fold)
  {
    ks := DedupeTakesFirsts(i.questions, 6, fold);
    NoneLeft(i.questions, 6, fold);
    QuestionsHeld(task, i, previous, fold, w);
  }

  lemma QuestionsHeld(task: Task, i: Intent, previous: Option<Brief>, fold: Fold, w: Defaults)
    ensures var (b, own) := (Regenerate(task, i, previous, fold, w), Dedupe(i.questions, 6, fold));
      b.questions == if own == [] && Unclear(i) then [w.question] else own
  {
    UnclearIff(i);
    var input := BuildInputFor(task, i, previous, fold, w);
    assert Build(input, w).questions == input.questions;
  }

  lemma UnclearIff(i: Intent)
    ensures i.requiresClarification || PostureOf(i) == ClarificationNeeded <==> Unclear(i)
  {
  }

  lemma NoneLeft(values: seq<string>, limit: int, fold: Fold)
    requires limit > 0
    ensures Dedupe(values, limit, fold) == [] <==> forall x :: x in values ==> Blank(x)
  {
    DedupeMeans(values, limit, fold);
    var d := Dedupe(values, limit, fold);
    assert d == [] ==> KeysOf(d, fold) == {};
    assert d != [] ==> d[0] in d;
  }

  // ---- constraints, criteria and scope --------------------------------------------------------

  /** Constraints: the intent's come first and are kept as if they were alone, then the task's, then
      the previous brief's, each key once and at most 16 in all. */
  lemma ConstraintsAre(task: Task, i: Intent, previous: Option<Brief>, fold: Fold, w: Defaults)
    returns (ks: seq<nat>)
    ensures var b := Regenerate(task, i, previous, fold, w);
      var prior := if previous.Some? then previous.value.constraints else [];
      && TakesFirsts(ks, i.constraints + task.constraints + prior, 16, b.constraints, fold)
      && Dedupe(i.constraints, 16, fold) <= b.constraints
      && Dedupe(i.constraints + task.constraints, 16, fold) <= b.constraints
  {
    var prior := if previous.Some? then previous.value.constraints else [];
    ks := DedupeTakesFirsts(i.constraints + task.constraints + prior, 16, fold);
    FrontIsKept(i.constraints + task.constraints, prior, 16, fold);
    FrontIsKept(i.constraints, task.constraints, 16, fold);
  }

  /** Done criteria: the intent's first, then the previous brief's, at most eight; the default of the
      posture exactly when there are none. */
  lemma DoneCriteriaAre(task: Task, i: Intent, previous: Option<Brief>, fold: Fold, w: Defaults)
    returns (ks: seq<nat>)
    ensures var b := Regenerate(task, i, previous, fold, w);
      var all := i.doneCriteria + if previous.Some? then previous.value.doneCriteria else [];
      && Dedupe(i.doneCriteria, 8, fold) <= b.doneCriteria
      && if forall x :: x in all ==> Blank(x) then b.doneCriteria == [w.doneCriteria(b.posture)]
         else TakesFirsts(ks, all, 8, b.doneCriteria, fold)
  {
    var prior := if previous.Some? then previous.value.doneCriteria else [];
    ks := DedupeTakesFirsts(i.doneCriteria + prior, 8, fold);
    FrontIsKept(i.doneCriteria, prior, 8, fold);
    NoneLeft(i.doneCriteria, 8, fold);
    NoneLeft(i.doneCriteria + prior, 8, fold);
    CriteriaHeld(task, i, previous, fold, w);
  }

  lemma CriteriaHeld(task: Task, i: Intent, previous: Option<Brief>, fold: Fold, w: Defaults)
    ensures var b := Regenerate(task, i, previous, fold, w);
      var prior := if previous.Some? then previous.value.doneCriteria else [];
      var own := Dedupe(i.doneCriteria + prior, 8, fold);
      b.doneCriteria == if own == [] then [w.doneCriteria(b.posture)] else own
  {
    PostureKept(task, i, previous, fold, w);
    var input := BuildInputFor(task, i, previous, fold, w);
    assert Build(input, w).doneCriteria == input.doneCriteria;
  }

  lemma PostureKept(task: Task, i: Intent, previous: Option<Brief>, fold: Fold, w: Defaults)
    ensures Regenerate(task, i, previous, fold, w).posture == PostureOf(i)
  {
    IsPosture(i);
    BuiltAs(BuildInputFor(task, i, previous, fold, w), w);
  }

  lemma IsPosture(i: Intent)
    ensures !PostureOf(i).NoPosture?
  {
  }

  /** What the builder takes over from its input as it is, or as the posture says. */
  lemma BuiltAs(input: BuildInput, w: Defaults)
    ensures var b := Build(input, w);
      && (!input.posture.NoPosture? ==> b.posture == input.posture)
      && (Plain(input.framing) ==> b.framing == input.framing)
      && b.requiresClarification == input.requiresClarification
  {
  }

  /** Scope-in are the files the task touched, else the previous scope; scope-out is the previous
      one. */
  lemma ScopeIs(task: Task, i: Intent, previous: Option<Brief>, fold: Fold, w: Defaults)
    ensures var b := Regenerate(task, i, previous, fold, w);
      && (task.touchedFiles != [] ==> b.scopeIn == task.touchedFiles)
      && (task.touchedFiles == [] && previous.Some? ==> b.scopeIn == previous.value.scopeIn)
      && (task.touchedFiles == [] && previous.None? ==> b.scopeIn == [])
      && b.scopeOut == (if previous.Some? then previous.value.scopeOut else [])
  {
  }

  /** The ambiguity flags are the intent's, without repetition and at most eight. */
  lemma FlagsAre(task: Task, i: Intent, previous: Option<Brief>, fold: Fold, w: Defaults)
    returns (ks: seq<nat>)
    ensures TakesFirsts(ks, i.ambiguityFlags, 8,
                        Regenerate(task, i, previous, fold, w).ambiguityFlags, fold)
  {
    ks := DedupeTakesFirsts(i.ambiguityFlags, 8, fold);
  }

  /** The rest: ids and evidence of this intent; context pack, verbosity and policy of the previous
      brief, where it has them; the framing of the posture. */
  lemma RestIs(task: Task, i: Intent, previous: Option<Brief>, fold: Fold, w: Defaults)
    requires PlainDefaults(w)
    ensures var b := Regenerate(task, i, previous, fold, w);
      && b.taskID == task.taskID && b.intentID == i.intentID && b.evidence == i.evidence
      && b.contextPackID == (if previous.Some? then previous.value.contextPackID else "")
      && b.verbosity == (if previous.Some? && previous.value.verbosity != ""
                         then previous.value.verbosity else w.verbosity)
      && b.policy == (if Said(previous, (p: Brief) => p.policy) then previous.value.policy
                      else w.policy)
      && b.framing == w.framing(b.posture, b.requiresClarification)
  {
    PostureKept(task, i, previous, fold, w);
    var input := BuildInputFor(task, i, previous, fold, w);
    assert Plain(w.framing(PostureOf(i), input.requiresClarification));
    assert input.framing == w.framing(PostureOf(i), input.requiresClarification);
    BuiltAs(input, w);
  }
}
