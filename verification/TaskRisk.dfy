/** Task-level incident risk over a closure summary: continuity_incident_task_risk.go:111-199. */
module TaskRisk {
  import opened Wrappers
  import opened Text
  import opened HandoffRecords
  import opened FiniteSets
  import opened Ordering
  import opened Incidents
  import opened IncidentClosure
  import opened ClosureTheorems

  datatype RiskClass = RiskNone | RiskStable | RecurringWeakClosure | RecurringUnresolved
                     | RecurringStagnant | RecurringTriagedNoFollowUp

  datatype Risk = Risk(signal: nat, weakClosure: bool, unresolved: bool, stagnant: bool,
                       triagedNoFollowUp: bool, cls: RiskClass, classes: seq<ClosureClass>)

  /** operationallyUnresolvedAnchorSignal: reopened anchors are open too and count twice. */
  function Signal(r: Rollup): nat {
    r.openAnchors + r.reopenedAnchors + r.triagedWithout
  }

  predicate WeakClosure(c: Counters) {
    c.reopened >= 2 || c.loops >= 1
  }

  predicate UnresolvedRisk(r: Rollup, c: Counters) {
    UnresolvedWindow(r, c) && r.distinctAnchors >= 2 && Signal(r) >= 2
  }

  // ---- the distinct anchor classes, sorted by name --------------------------------------------

  function Name(cls: ClosureClass): string {
    match cls
    case ClosureNone => "NONE"
    case StableBounded => "STABLE_BOUNDED"
    case Unresolved => "OPERATIONALLY_UNRESOLVED"
    case WeakReopened => "WEAK_CLOSURE_REOPENED"
    case WeakLoop => "WEAK_CLOSURE_LOOP"
    case WeakStagnant => "WEAK_CLOSURE_STAGNANT"
  }

  predicate ByName(x: ClosureClass, y: ClosureClass) {
    LexLess(Name(x), Name(y))
  }

  lemma ByNameIsStrict()
    ensures StrictOrder(ByName)
  {
    forall x, y | ByName(x, y) ensures !ByName(y, x) {
      LexTrichotomy(Name(x), Name(y));
    }
    forall x, y, z | ByName(x, y) && ByName(y, z) ensures ByName(x, z) {
      LexTransitive(Name(x), Name(y), Name(z));
    }
  }

  lemma NamesDiffer(x: ClosureClass, y: ClosureClass)
    requires x != y
    ensures ByName(x, y) || ByName(y, x)
  {
    assert Name(x) != Name(y) by {
      assert Name(x) == Name(y) ==> |Name(x)| == |Name(y)|;
      assert "WEAK_CLOSURE_LOOP"[13] != "WEAK_CLOSURE_STAGNANT"[13];
    }
    LexTrichotomy(Name(x), Name(y));
  }

  const MAX_CLASSES: nat := 5

  function Cut(classes: seq<ClosureClass>): seq<ClosureClass> {
    if |classes| > MAX_CLASSES then classes[..MAX_CLASSES] else classes
  }

  /** The classes of the recent anchors: all of them, once each, in order of their names. The cut
      to five never bites, because an anchor item has one of five classes. */
  method DistinctClasses(recent: seq<AnchorItem>) returns (classes: seq<ClosureClass>)
    requires forall i :: 0 <= i < |recent| ==> recent[i].cls != ClosureNone
    ensures Sorted(classes, ByName)
    ensures forall c :: c in classes <==> exists i :: 0 <= i < |recent| && recent[i].cls == c
  {
    var seen: set<ClosureClass> := {};
    classes := [];
    for i := 0 to |recent|
      invariant forall c :: c in classes <==> c in seen
      invariant forall c :: c in seen <==> exists j :: 0 <= j < i && recent[j].cls == c
      invariant forall m, n :: 0 <= m < n < |classes| ==> classes[m] != classes[n]
    {
      var cls := recent[i].cls;
      if cls == ClosureNone || cls in seen {
        continue;
      }
      seen := seen + {cls};
      classes := classes + [cls];
    }
    ghost var found := classes;
    classes := Sort(classes, ByName);
    SortedClasses(found);
    AtMostFive(classes);
    classes := Cut(classes);
  }

  lemma SortedClasses(classes: seq<ClosureClass>)
    requires forall m, n :: 0 <= m < n < |classes| ==> classes[m] != classes[n]
    ensures Sorted(Sort(classes, ByName), ByName)
    ensures forall c :: c in Sort(classes, ByName) <==> c in classes
  {
    ByNameIsStrict();
    forall m, n | 0 <= m < n < |classes|
      ensures ByName(classes[m], classes[n]) || ByName(classes[n], classes[m])
    {
      NamesDiffer(classes[m], classes[n]);
    }
    SortSorted(classes, ByName);
    SortPermutes(classes, ByName);
  }

  lemma AtMostFive(classes: seq<ClosureClass>)
    requires Sorted(classes, ByName) && ClosureNone !in classes
    ensures |classes| <= 5
  {
    ByNameIsStrict();
    var s := set c | c in classes;
    forall m, n | 0 <= m < n < |classes| ensures classes[m] != classes[n] {
      assert ByName(classes[m], classes[n]);
    }
    ListedSize(classes);
    assert s <= {StableBounded, Unresolved, WeakReopened, WeakLoop, WeakStagnant};
    SubsetSize(s, {StableBounded, Unresolved, WeakReopened, WeakLoop, WeakStagnant});
  }

  // ---- the summary ----------------------------------------------------------------------------

  function RiskOf(r: Rollup, c: Counters): RiskClass {
    if WeakClosure(c) then RecurringWeakClosure
    else if c.stagnant >= 2 || r.repeated >= 2 then RecurringStagnant
    else if r.triagedWithout >= 2 then RecurringTriagedNoFollowUp
    else if UnresolvedRisk(r, c) then RecurringUnresolved
    else if r.distinctAnchors > 0 && !UnresolvedWindow(r, c) then RiskStable
    else RiskNone
  }

  /** What a roll-up alone can tell. */
  function RollupRisk(r: Rollup): Risk {
    var triaged := r.triagedWithout >= 2;
    Risk(Signal(r), false, false, false, triaged,
         if triaged then RecurringTriagedNoFollowUp else RiskNone, [])
  }

  /** What a closure summary tells. */
  ghost predicate IsClosureRisk(risk: Risk, closure: Closure) {
    && risk.signal == Signal(closure.rollup)
    && risk.weakClosure == WeakClosure(closure.counters)
    && risk.unresolved == UnresolvedRisk(closure.rollup, closure.counters)
    && risk.stagnant == (closure.counters.stagnant >= 2 || closure.rollup.repeated >= 2)
    && risk.triagedNoFollowUp == (closure.rollup.triagedWithout >= 2)
    && risk.cls == RiskOf(closure.rollup, closure.counters)
    && Sorted(risk.classes, ByName)
    && forall c :: c in risk.classes <==>
         exists i :: 0 <= i < |closure.recent| && closure.recent[i].cls == c
  }

  /** deriveContinuityIncidentTaskRiskSummary: the closure summary decides where there is one, else
      the roll-up, else there is no risk summary. */
  method DeriveTaskRisk(closure: Option<Closure>, rollup: Option<Rollup>)
    returns (out: Option<Risk>)
    requires closure.Some? ==>
      closure.value.unresolved == UnresolvedWindow(closure.value.rollup, closure.value.counters)
    requires closure.Some? ==>
      forall i :: 0 <= i < |closure.value.recent| ==> closure.value.recent[i].cls != ClosureNone
    ensures out.None? <==> closure.None? && rollup.None?
    ensures closure.Some? ==> IsClosureRisk(out.value, closure.value)
    ensures closure.None? && rollup.Some? ==> out == Some(RollupRisk(rollup.value))
  {
    if closure.None? && rollup.None? {
      return None;
    }
    var risk := Risk(0, false, false, false, false, RiskNone, []);
    if closure.Some? {
      var r, c := closure.value.rollup, closure.value.counters;
      risk := risk.(signal := r.openAnchors + r.reopenedAnchors + r.triagedWithout,
                    stagnant := c.stagnant >= 2 || r.repeated >= 2,
                    triagedNoFollowUp := r.triagedWithout >= 2,
                    weakClosure := c.reopened >= 2 || c.loops >= 1);
      risk := risk.(unresolved := closure.value.unresolved && r.distinctAnchors >= 2
                                  && risk.signal >= 2);
      var classes := DistinctClasses(closure.value.recent);
      risk := risk.(classes := classes);
    } else {
      var r := rollup.value;
      risk := risk.(signal := r.openAnchors + r.reopenedAnchors + r.triagedWithout,
                    triagedNoFollowUp := r.triagedWithout >= 2);
    }
    var cls := if risk.weakClosure then RecurringWeakClosure
               else if risk.stagnant then RecurringStagnant
               else if risk.triagedNoFollowUp then RecurringTriagedNoFollowUp
               else if risk.unresolved then RecurringUnresolved
               else if closure.Some? && closure.value.rollup.distinctAnchors > 0
                 && !closure.value.unresolved
               then RiskStable
               else RiskNone;
    out := Some(risk.(cls := cls));
  }

  /** Looking at the roll-up alone never raises more alarm than the closure summary does. */
  lemma RollupRaisesLess(closure: Closure, risk: Risk)
    requires IsClosureRisk(risk, closure)
    ensures var less := RollupRisk(closure.rollup);
      && less.signal == risk.signal && less.triagedNoFollowUp == risk.triagedNoFollowUp
      && (less.cls != RiskNone ==> risk.cls !in {RiskNone, RiskStable, RecurringUnresolved})
  {
  }

  // ---- what it means --------------------------------------------------------------------------

  /** Once a window shows recurring weak closure, every longer window does. */
  lemma WeakClosurePersists(w: seq<Receipt>, older: seq<Receipt>)
    requires WeakClosure(CountersOf(w))
    ensures WeakClosure(CountersOf(w + older))
  {
    WeakCountersGrow(w, older);
  }

  /** The unresolved anchors, each once. */
  function UnresolvedAnchors(r: Rollup): nat {
    r.openAnchors + r.triagedWithout
  }

  /** "Recurring" unresolved does not mean two unresolved anchors: one reopened anchor is enough
      beside any other, because the signal counts it as open and as reopened. */
  lemma UnresolvedRiskIff(w: seq<Receipt>, latestTransition: Option<Id>, triages: seq<Id>)
    ensures var r := RollupOf(w, latestTransition, triages);
      UnresolvedRisk(r, CountersOf(w)) <==>
        && r.distinctAnchors >= 2
        && (UnresolvedAnchors(r) >= 2 || r.reopenedAnchors == UnresolvedAnchors(r) == 1)
  {
    RollupConserves(w, latestTransition, triages);
  }

  lemma PairFacts(x: Receipt, y: Receipt)
    requires x.anchorID == "b" && x.kind == Reopened && y.anchorID == "a" && y.kind == Closed
    ensures Keys([x, y]) == {"a", "b"}
    ensures Newest([x, y], "b") == x && Newest([x, y], "a") == y
  {
    var w := [x, y];
    assert w[1..] == [y];
    assert x in w && y in w && forall r :: r in w ==> r == x || r == y;
    assert Key(x) == "b" && Key(y) == "a" && "a"[0] != "b"[0];
  }

  /** Two anchors, one closed and one reopened: recurring unresolved on one unresolved anchor. */
  lemma OneReopenedAnchorRecurs() returns (w: seq<Receipt>)
    ensures var r := RollupOf(w, None, []);
      UnresolvedRisk(r, CountersOf(w)) && UnresolvedAnchors(r) == 1
  {
    var x := Receipt("r2", "b", "t", Reopened, 2);
    var y := Receipt("r1", "a", "t", Closed, 1);
    w := [x, y];
    PairFacts(x, y);
    assert OpenKeys(w) == {"b"} && KeysNow(w, Reopened) == {"b"};
    assert Triaged([]) == {} && Triaged([]) - Keys(w) == {};
    UnresolvedRiskIff(w, None, []);
  }
}
