/** Closure intelligence over a window of follow-up receipts: continuity_incident_closure.go:134-328.
    One pass over the window, oldest receipt first, then one over a Go map of per-anchor signals. */
module IncidentClosure {
  import opened Wrappers
  import opened Text
  import opened HandoffRecords
  import opened Ordering
  import opened Incidents

  // ---- per-anchor facts, read off the window --------------------------------------------------

  /** The anchors the closure looks at; receipts without an anchor are skipped. */
  function Anchors(w: seq<Receipt>): set<Id> {
    set r | r in w && r.anchorID != "" :: r.anchorID
  }

  function OfKind(w: seq<Receipt>, a: Id, kind: FollowUpKind): nat {
    Count(w, (r: Receipt) => r.anchorID == a && r.kind == kind)
  }

  /** How many REOPENED receipts of the anchor have an older CLOSED one. */
  function ReopenedAfterClose(w: seq<Receipt>, a: Id): nat {
    if w == [] then 0
    else ReopenedAfterClose(w[1..], a)
         + (if w[0].anchorID == a && w[0].kind == Reopened && OfKind(w[1..], a, Closed) > 0 then 1
            else 0)
  }

  /** The anchor's latest receipt by time; of several at that time the oldest, unless the time is
      the zero time. */
  function Latest(w: seq<Receipt>, a: Id): Option<Receipt> {
    if w == [] then None
    else
      var older := Latest(w[1..], a);
      if w[0].anchorID != a then older
      else if older.None? || older.value.createdAt == 0
        || w[0].createdAt > older.value.createdAt
      then Some(w[0])
      else older
  }

  datatype Signals = Signals(closed: nat, reopened: nat, active: nat, afterClose: nat,
                             latest: Option<Receipt>)

  const NO_SIGNALS := Signals(0, 0, 0, 0, None)

  function SignalsOf(w: seq<Receipt>, a: Id): Signals {
    Signals(OfKind(w, a, Closed), OfKind(w, a, Reopened),
            OfKind(w, a, Progressed) + OfKind(w, a, RecordedPending), ReopenedAfterClose(w, a),
            Latest(w, a))
  }

  predicate Stagnant(s: Signals) {
    s.active >= 2 && s.closed == 0 && s.reopened == 0
  }

  // ---- the pass, oldest first -----------------------------------------------------------------

  function Note(s: Signals, r: Receipt): Signals {
    var latest := if s.latest.None? || s.latest.value.createdAt == 0
                     || r.createdAt > s.latest.value.createdAt
                  then Some(r) else s.latest;
    match r.kind
    case Closed => s.(latest := latest, closed := s.closed + 1)
    case Reopened =>
      s.(latest := latest, reopened := s.reopened + 1,
         afterClose := s.afterClose + (if s.closed > 0 then 1 else 0))
    case _ => s.(latest := latest, active := s.active + 1)
  }

  function Fold(w: seq<Receipt>): map<Id, Signals> {
    if w == [] then map[]
    else
      var m := Fold(w[1..]);
      var r := w[0];
      if r.anchorID == "" then m
      else m[r.anchorID := Note(if r.anchorID in m then m[r.anchorID] else NO_SIGNALS, r)]
  }

  lemma {:induction false} UnknownAnchor(w: seq<Receipt>, a: Id)
    requires a !in Anchors(w) && a != ""
    ensures SignalsOf(w, a) == NO_SIGNALS
  {
    if w != [] {
      assert w[0] in w;
      assert forall r :: r in w[1..] ==> r in w;
      UnknownAnchor(w[1..], a);
    }
  }

  lemma AnchorsStep(w: seq<Receipt>)
    requires w != []
    ensures Anchors(w) == Anchors(w[1..]) + (if w[0].anchorID == "" then {} else {w[0].anchorID})
  {
    assert forall r :: r in w <==> r == w[0] || r in w[1..];
  }

  lemma SignalsStep(w: seq<Receipt>, a: Id)
    requires w != []
    ensures SignalsOf(w, a) == if w[0].anchorID == a then Note(SignalsOf(w[1..], a), w[0])
                               else SignalsOf(w[1..], a)
  {
  }

  /** The single pass computes every anchor's facts. */
  lemma {:induction false} FoldIsRight(w: seq<Receipt>)
    ensures Fold(w).Keys == Anchors(w)
    ensures forall a :: a in Fold(w) ==> Fold(w)[a] == SignalsOf(w, a)
  {
    if w != [] {
      FoldIsRight(w[1..]);
      AnchorsStep(w);
      forall a | a in Fold(w) ensures Fold(w)[a] == SignalsOf(w, a) {
        SignalsStep(w, a);
        if a !in Anchors(w[1..]) {
          UnknownAnchor(w[1..], a);
        }
      }
    }
  }

  // ---- anchor items ---------------------------------------------------------------------------

  datatype ClosureClass = ClosureNone | StableBounded | Unresolved | WeakReopened | WeakLoop
                        | WeakStagnant

  datatype AnchorItem = AnchorItem(anchorID: Id, latestID: Id, latestKind: Option<FollowUpKind>,
                                   latestAt: nat, cls: ClosureClass)

  /** deriveContinuityIncidentClosureAnchorItem */
  function ItemClass(s: Signals): ClosureClass {
    if s.afterClose > 1 then WeakLoop
    else if s.afterClose > 0 then WeakReopened
    else if Stagnant(s) then WeakStagnant
    else if s.closed > 0 && s.reopened == 0 then StableBounded
    else Unresolved
  }

  function ItemOf(a: Id, s: Signals): AnchorItem {
    match s.latest
    case None => AnchorItem(a, "", None, 0, ItemClass(s))
    case Some(r) => AnchorItem(a, r.receiptID, Some(r.kind), r.createdAt, ItemClass(s))
  }

  /** Latest first; at equal times the larger anchor id first. */
  predicate Newer(x: AnchorItem, y: AnchorItem) {
    if x.latestAt == y.latestAt then LexLess(y.anchorID, x.anchorID) else x.latestAt > y.latestAt
  }

  lemma NewerIsStrict()
    ensures StrictOrder(Newer)
  {
    forall x, y | Newer(x, y) ensures !Newer(y, x) {
      LexTrichotomy(x.anchorID, y.anchorID);
    }
    forall x, y, z | Newer(x, y) && Newer(y, z) ensures Newer(x, z) {
      if x.latestAt == y.latestAt == z.latestAt {
        LexTransitive(z.anchorID, y.anchorID, x.anchorID);
      }
    }
  }

  const MAX_ITEMS: nat := 5

  function Items(w: seq<Receipt>): set<AnchorItem> {
    set a | a in Anchors(w) :: ItemOf(a, SignalsOf(w, a))
  }

  function FirstFew(items: seq<AnchorItem>): seq<AnchorItem> {
    if |items| <= MAX_ITEMS then items else items[..MAX_ITEMS]
  }

  /** The five newest anchor items: a prefix of all items in order. */
  ghost predicate IsRecent(recent: seq<AnchorItem>, w: seq<Receipt>) {
    exists full: seq<AnchorItem> ::
      Sorted(full, Newer) && (forall x :: x in full <==> x in Items(w)) && recent == FirstFew(full)
  }

  /** There is only one such list, so Go's random map iteration cannot show in it. */
  lemma RecentIsUnique(s: seq<AnchorItem>, t: seq<AnchorItem>, w: seq<Receipt>)
    requires IsRecent(s, w) && IsRecent(t, w)
    ensures s == t
  {
    var a :| Sorted(a, Newer) && (forall x :: x in a <==> x in Items(w)) && s == FirstFew(a);
    var b :| Sorted(b, Newer) && (forall x :: x in b <==> x in Items(w)) && t == FirstFew(b);
    NewerIsStrict();
    SortedUnique(a, b, Newer);
  }

  // ---- the summary ----------------------------------------------------------------------------

  function Reopeners(w: seq<Receipt>): set<Id> {
    set a | a in Anchors(w) && ReopenedAfterClose(w, a) > 0
  }

  function Loopers(w: seq<Receipt>): set<Id> {
    set a | a in Anchors(w) && ReopenedAfterClose(w, a) > 1
  }

  function Stagnants(w: seq<Receipt>): set<Id> {
    set a | a in Anchors(w) && Stagnant(SignalsOf(w, a))
  }

  datatype Counters = Counters(reopened: nat, loops: nat, stagnant: nat)

  function CountersOf(w: seq<Receipt>): Counters {
    Counters(|Reopeners(w)|, |Loopers(w)|, |Stagnants(w)|)
  }

  datatype Closure = Closure(rollup: Rollup, counters: Counters, weak: bool, unresolved: bool,
                             cls: ClosureClass, recent: seq<AnchorItem>)

  predicate StagnantWindow(rollup: Rollup, c: Counters) {
    c.stagnant > 0 || rollup.repeated > 0
  }

  predicate WeakWindow(rollup: Rollup, c: Counters) {
    c.reopened > 0 || c.loops > 0 || StagnantWindow(rollup, c) || rollup.behindLatest > 0
  }

  predicate UnresolvedWindow(rollup: Rollup, c: Counters) {
    || WeakWindow(rollup, c) || rollup.triagedWithout > 0 || rollup.openAnchors > 0
    || rollup.reopenedAnchors > 0
  }

  function WindowClass(rollup: Rollup, c: Counters): ClosureClass {
    if c.loops > 0 then WeakLoop
    else if c.reopened > 0 then WeakReopened
    else if StagnantWindow(rollup, c) then WeakStagnant
    else if UnresolvedWindow(rollup, c) then Unresolved
    else if rollup.closedAnchors > 0 then StableBounded
    else ClosureNone
  }

  // ---- the code -------------------------------------------------------------------------------

  /** The first loop: oldest receipt first. */
  method CollectSignals(w: seq<Receipt>) returns (anchors: map<Id, Signals>)
    ensures anchors == Fold(w)
  {
    anchors := map[];
    var i := |w|;
    while i > 0
      invariant 0 <= i <= |w| && anchors == Fold(w[i..])
    {
      i := i - 1;
      assert w[i..][1..] == w[i + 1..] && w[i..][0] == w[i];
      var item := w[i];
      if item.anchorID == "" {
        continue;
      }
      var sig := if item.anchorID in anchors then anchors[item.anchorID] else NO_SIGNALS;
      if sig.latest.None? || sig.latest.value.createdAt == 0
        || item.createdAt > sig.latest.value.createdAt
      {
        sig := sig.(latest := Some(item));
      }
      match item.kind {
        case Closed => sig := sig.(closed := sig.closed + 1);
        case Reopened =>
          sig := sig.(reopened := sig.reopened + 1);
          if sig.closed > 0 {
            sig := sig.(afterClose := sig.afterClose + 1);
          }
        case _ => sig := sig.(active := sig.active + 1);
      }
      anchors := anchors[item.anchorID := sig];
    }
    assert w[0..] == w;
  }

  function Pick(keys: set<Id>, p: Id -> bool): set<Id> {
    set k | k in keys && p(k)
  }

  lemma PickStep(keys: set<Id>, p: Id -> bool, k: Id)
    requires k !in keys
    ensures |Pick(keys + {k}, p)| == |Pick(keys, p)| + (if p(k) then 1 else 0)
  {
    if p(k) {
      assert Pick(keys + {k}, p) == Pick(keys, p) + {k};
    } else {
      assert Pick(keys + {k}, p) == Pick(keys, p);
    }
  }

  function HasReopened(anchors: map<Id, Signals>): Id -> bool {
    a => a in anchors && anchors[a].afterClose > 0
  }

  function HasLooped(anchors: map<Id, Signals>): Id -> bool {
    a => a in anchors && anchors[a].afterClose > 1
  }

  function IsStagnant(anchors: map<Id, Signals>): Id -> bool {
    a => a in anchors && Stagnant(anchors[a])
  }

  function CountersAt(anchors: map<Id, Signals>, done: set<Id>): Counters {
    Counters(|Pick(done, HasReopened(anchors))|, |Pick(done, HasLooped(anchors))|,
             |Pick(done, IsStagnant(anchors))|)
  }

  function CountSignals(c: Counters, s: Signals): Counters {
    Counters(c.reopened + (if s.afterClose > 0 then 1 else 0),
             c.loops + (if s.afterClose > 1 then 1 else 0),
             c.stagnant + (if Stagnant(s) then 1 else 0))
  }

  lemma CountersStep(anchors: map<Id, Signals>, done: set<Id>, a: Id)
    requires a in anchors && a !in done
    ensures CountersAt(anchors, done + {a}) == CountSignals(CountersAt(anchors, done), anchors[a])
  {
    PickStep(done, HasReopened(anchors), a);
    PickStep(done, HasLooped(anchors), a);
    PickStep(done, IsStagnant(anchors), a);
  }

  /** The items of some anchors, in any order, each once. */
  ghost predicate ItemsOf(items: seq<AnchorItem>, anchors: map<Id, Signals>, done: set<Id>)
    requires done <= anchors.Keys
  {
    && (forall i :: 0 <= i < |items| ==>
          items[i].anchorID in done && items[i] == ItemOf(items[i].anchorID, anchors[items[i].anchorID]))
    && (forall a :: a in done ==> ItemOf(a, anchors[a]) in items)
    && (forall i, j :: 0 <= i < j < |items| ==> items[i].anchorID != items[j].anchorID)
  }

  /** The anchors of `all` that are no longer to do. */
  lemma OneDone(all: set<Id>, todo: set<Id>, a: Id)
    requires todo <= all && a in todo
    ensures all - (todo - {a}) == (all - todo) + {a}
    ensures a !in all - todo && todo - {a} <= all && |todo - {a}| < |todo|
  {
  }

  ghost predicate Visited(c: Counters, items: seq<AnchorItem>, anchors: map<Id, Signals>,
                          done: set<Id>)
  {
    done <= anchors.Keys && c == CountersAt(anchors, done) && ItemsOf(items, anchors, done)
  }

  lemma VisitStep(c: Counters, items: seq<AnchorItem>, anchors: map<Id, Signals>, done: set<Id>,
                  a: Id)
    requires Visited(c, items, anchors, done) && a in anchors && a !in done
    ensures Visited(CountSignals(c, anchors[a]), items + [ItemOf(a, anchors[a])], anchors, done + {a})
  {
    CountersStep(anchors, done, a);
    ItemsStep(items, anchors, done, a);
  }

  /** The second loop: the anchors in whatever order the map gives them. */
  method VisitAnchors(anchors: map<Id, Signals>)
    returns (c: Counters, items: seq<AnchorItem>)
    ensures Visited(c, items, anchors, anchors.Keys)
  {
    c, items := Counters(0, 0, 0), [];
    var todo := anchors.Keys;
    while todo != {}
      invariant todo <= anchors.Keys && Visited(c, items, anchors, anchors.Keys - todo)
      decreases |todo|
    {
      var a :| a in todo;
      OneDone(anchors.Keys, todo, a);
      VisitStep(c, items, anchors, anchors.Keys - todo, a);
      c := CountAnchor(c, anchors[a]);
      items := items + [ItemOf(a, anchors[a])];
      todo := todo - {a};
    }
    assert anchors.Keys - todo == anchors.Keys;
  }

  method CountAnchor(before: Counters, sig: Signals) returns (c: Counters)
    ensures c == CountSignals(before, sig)
  {
    c := before;
    if sig.afterClose > 0 {
      c := c.(reopened := c.reopened + 1);
    }
    if sig.afterClose > 1 {
      c := c.(loops := c.loops + 1);
    }
    if sig.active >= 2 && sig.closed == 0 && sig.reopened == 0 {
      c := c.(stagnant := c.stagnant + 1);
    }
  }

  lemma ItemsStep(items: seq<AnchorItem>, anchors: map<Id, Signals>, done: set<Id>, a: Id)
    requires done <= anchors.Keys && a in anchors && a !in done && ItemsOf(items, anchors, done)
    ensures ItemsOf(items + [ItemOf(a, anchors[a])], anchors, done + {a})
  {
  }

  /** deriveContinuityIncidentClosureSummary: the counters and the class are functions of the
      window, and so is the list of recent anchors. */
  method DeriveClosure(rollup: Rollup, w: seq<Receipt>) returns (out: Closure)
    ensures out.rollup == rollup && out.counters == CountersOf(w)
    ensures out.weak == WeakWindow(rollup, CountersOf(w))
    ensures out.unresolved == UnresolvedWindow(rollup, CountersOf(w))
    ensures out.cls == WindowClass(rollup, CountersOf(w))
    ensures IsRecent(out.recent, w)
  {
    var anchors := CollectSignals(w);
    FoldIsRight(w);
    var c, items := VisitAnchors(anchors);
    CountersAreWindow(anchors, w);
    var sorted := Sort(items, Newer);
    SortedItems(items, anchors, w);
    var recent := if |sorted| > MAX_ITEMS then sorted[..MAX_ITEMS] else sorted;
    assert recent == FirstFew(sorted);
    var weak, unresolved, cls := Judge(rollup, c);
    out := Closure(rollup, c, weak, unresolved, cls, recent);
  }

  /** The flags and the class, by the source's chain of conditions. */
  method Judge(rollup: Rollup, c: Counters)
    returns (weak: bool, unresolved: bool, cls: ClosureClass)
    ensures weak == WeakWindow(rollup, c) && unresolved == UnresolvedWindow(rollup, c)
    ensures cls == WindowClass(rollup, c)
  {
    var stagnant := c.stagnant > 0 || rollup.repeated > 0;
    weak := c.reopened > 0 || c.loops > 0 || stagnant || rollup.behindLatest > 0;
    unresolved := weak || rollup.triagedWithout > 0 || rollup.openAnchors > 0
                  || rollup.reopenedAnchors > 0;
    if c.loops > 0 {
      cls := WeakLoop;
    } else if c.reopened > 0 {
      cls := WeakReopened;
    } else if stagnant {
      cls := WeakStagnant;
    } else if unresolved {
      cls := Unresolved;
    } else if rollup.closedAnchors > 0 {
      cls := StableBounded;
    } else {
      cls := ClosureNone;
    }
  }

  lemma CountersAreWindow(anchors: map<Id, Signals>, w: seq<Receipt>)
    requires anchors.Keys == Anchors(w)
    requires forall a :: a in anchors ==> anchors[a] == SignalsOf(w, a)
    ensures CountersOf(w) == CountersAt(anchors, anchors.Keys)
  {
    assert Reopeners(w) == Pick(anchors.Keys, HasReopened(anchors));
    assert Loopers(w) == Pick(anchors.Keys, HasLooped(anchors));
    assert Stagnants(w) == Pick(anchors.Keys, IsStagnant(anchors));
  }

  lemma SortedItems(items: seq<AnchorItem>, anchors: map<Id, Signals>, w: seq<Receipt>)
    requires anchors.Keys == Anchors(w)
    requires forall a :: a in anchors ==> anchors[a] == SignalsOf(w, a)
    requires ItemsOf(items, anchors, anchors.Keys)
    ensures Sorted(Sort(items, Newer), Newer)
    ensures forall x :: x in Sort(items, Newer) <==> x in Items(w)
  {
    NewerIsStrict();
    forall i, j | 0 <= i < j < |items| ensures Newer(items[i], items[j]) || Newer(items[j], items[i]) {
      LexTrichotomy(items[i].anchorID, items[j].anchorID);
    }
    SortSorted(items, Newer);
    SortPermutes(items, Newer);
    forall x ensures x in items <==> x in Items(w) {
      if x in items {
        assert x == ItemOf(x.anchorID, anchors[x.anchorID]);
      }
    }
  }
}
