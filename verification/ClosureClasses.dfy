/** The roll-up, the closure classes and the risk classes, read off the receipts of a window. */
module ClosureClasses {
  import opened Wrappers
  import opened Text
  import opened HandoffRecords
  import opened FiniteSets
  import opened Ordering
  import opened Incidents
  import opened IncidentClosure
  import opened ClosureTheorems
  import opened TaskRisk

  // ---- receipts under one key -----------------------------------------------------------------

  /** Receipts share a key exactly when they share their anchor; one without an anchor shares its
      key with no other receipt. */
  lemma SameKeyIff(r: Receipt, s: Receipt)
    ensures r.anchorID != "" && s.anchorID != "" ==> (Key(r) == Key(s) <==> r.anchorID == s.anchorID)
    ensures r.anchorID == "" && s.anchorID == "" ==>
      (Key(r) == Key(s) <==> r.receiptID == s.receiptID)
    ensures r.anchorID != "" ==> Key(r) == r.anchorID
  {
    if r.anchorID == "" && s.anchorID == "" {
      assert Key(r)[8..] == r.receiptID && Key(s)[8..] == s.receiptID;
    }
  }

  /** The receipt at position i is the newest of its key. */
  predicate Leads(w: seq<Receipt>, i: nat, key: Id)
    requires i < |w|
  {
    Key(w[i]) == key && forall j :: 0 <= j < i ==> Key(w[j]) != key
  }

  lemma {:induction false} NewestLeads(w: seq<Receipt>, key: Id) returns (i: nat)
    requires key in Keys(w)
    ensures i < |w| && Leads(w, i, key) && Newest(w, key) == w[i]
  {
    if Key(w[0]) == key {
      i := 0;
    } else {
      assert forall r :: r in w ==> r == w[0] || r in w[1..];
      var k := NewestLeads(w[1..], key);
      i := k + 1;
      assert forall j :: 0 < j < |w| ==> w[j] == w[1..][j - 1];
    }
  }

  /** The newest receipt of a key is the first one listed. */
  lemma NewestIs(w: seq<Receipt>, i: nat, key: Id)
    requires i < |w| && Leads(w, i, key)
    ensures key in Keys(w) && Newest(w, key) == w[i]
  {
    assert w[i] in w;
    var j := NewestLeads(w, key);
  }

  // ---- counting -------------------------------------------------------------------------------

  /** The positions of a window at which a condition holds. */
  function Places<T(!new)>(s: seq<T>, p: T -> bool): set<nat> {
    set i: nat | i < |s| && p(s[i])
  }

  lemma {:induction false} CountIsSize<T(!new)>(s: seq<T>, p: T -> bool)
    ensures Count(s, p) == |Places(s, p)|
    decreases |s|
  {
    if s == [] {
      assert Places(s, p) == {};
    } else {
      var n := |s| - 1;
      CountIsSize(s[..n], p);
      CountAppend(s[..n], p, s[n]);
      assert s == s[..n] + [s[n]];
      assert Places(s, p) == Places(s[..n], p) + (if p(s[n]) then {n} else {});
    }
  }

  lemma TwoPlaces(s: set<nat>)
    ensures |s| > 1 <==> exists i, j :: i in s && j in s && i < j
  {
    if |s| > 1 {
      var i :| i in s;
      if s - {i} == {} {
        SubsetSize(s, {i});
      }
      var j :| j in s - {i};
      assert i < j || j < i;
    }
    if i, j :| i in s && j in s && i < j {
      SubsetSize({i, j}, s);
    }
  }

  lemma TwoKeys(s: set<Id>)
    ensures |s| > 1 <==> exists a, b :: a in s && b in s && a != b
  {
    if |s| > 1 {
      var a :| a in s;
      if s - {a} == {} {
        SubsetSize(s, {a});
      }
      var b :| b in s - {a};
    }
    if a, b :| a in s && b in s && a != b {
      SubsetSize({a, b}, s);
    }
  }

  // ---- the roll-up ----------------------------------------------------------------------------

  /** At least two receipts of the key, all of one kind. */
  predicate SameAgain(w: seq<Receipt>, key: Id) {
    && (exists i, j :: 0 <= i < j < |w| && Key(w[i]) == key && Key(w[j]) == key)
    && (forall i, j :: 0 <= i < |w| && 0 <= j < |w| && Key(w[i]) == key && Key(w[j]) == key ==>
          w[i].kind == w[j].kind)
  }

  lemma OneKind(w: seq<Receipt>, key: Id)
    requires key in Keys(w)
    ensures |KindsOf(w, key)| == 1 <==>
      forall i, j :: 0 <= i < |w| && 0 <= j < |w| && Key(w[i]) == key && Key(w[j]) == key ==>
        w[i].kind == w[j].kind
  {
    var r :| r in w && Key(r) == key;
    assert r.kind in KindsOf(w, key);
    assert forall i :: 0 <= i < |w| && Key(w[i]) == key ==> w[i] in w && w[i].kind in KindsOf(w, key);
    if |KindsOf(w, key)| == 1 {
      forall k | k in KindsOf(w, key) ensures k == r.kind {
        if k != r.kind {
          SubsetSize({k, r.kind}, KindsOf(w, key));
        }
      }
    }
    if forall i, j :: 0 <= i < |w| && 0 <= j < |w| && Key(w[i]) == key && Key(w[j]) == key ==>
        w[i].kind == w[j].kind
    {
      assert KindsOf(w, key) == {r.kind};
    }
  }

  lemma TwoOfKey(w: seq<Receipt>, key: Id)
    ensures OfKey(w, key) > 1 <==>
      exists i, j :: 0 <= i < j < |w| && Key(w[i]) == key && Key(w[j]) == key
  {
    var p := (r: Receipt) => Key(r) == key;
    CountIsSize(w, p);
    TwoPlaces(Places(w, p));
    if OfKey(w, key) > 1 {
      var i, j :| i in Places(w, p) && j in Places(w, p) && i < j;
    }
    if i, j :| 0 <= i < j < |w| && Key(w[i]) == key && Key(w[j]) == key {
      assert i in Places(w, p) && j in Places(w, p);
    }
  }

  lemma RepeatsIff(w: seq<Receipt>, key: Id)
    requires key in Keys(w)
    ensures Repeats(w, key) <==> SameAgain(w, key)
  {
    TwoOfKey(w, key);
    OneKind(w, key);
  }

  /** Which keys the roll-up counts as open, closed, reopened, behind the latest transition and
      repeated: told by the key's newest receipt, the last by all of its receipts. */
  lemma CountedKeys(w: seq<Receipt>, latestTransition: Option<Id>, i: nat, key: Id)
    requires i < |w| && Leads(w, i, key)
    ensures var newest := w[i];
      && (key in OpenKeys(w) <==> newest.kind != Closed)
      && (key in KeysNow(w, Closed) <==> newest.kind == Closed)
      && (key in KeysNow(w, Reopened) <==> newest.kind == Reopened)
      && (key in BehindKeys(w, latestTransition) <==>
            newest.kind != Closed && latestTransition.Some? && newest.anchorID != ""
            && newest.anchorID != latestTransition.value)
      && (key in RepeatedKeys(w) <==> SameAgain(w, key))
  {
    NewestIs(w, i, key);
    RepeatsIff(w, key);
  }

  /** The roll-up counts receipts by kind and keys by what their newest receipt says, and is notable
      exactly when the window has receipts and a key is open or repeated or a triaged anchor has no
      receipt. */
  lemma RollupCounts(w: seq<Receipt>, latestTransition: Option<Id>, triages: seq<Id>)
    ensures var r := RollupOf(w, latestTransition, triages);
      && r.windowSize == |w|
      && r.pending == |Places(w, (x: Receipt) => x.kind == RecordedPending)|
      && r.progressed == |Places(w, (x: Receipt) => x.kind == Progressed)|
      && r.closed == |Places(w, (x: Receipt) => x.kind == Closed)|
      && r.reopened == |Places(w, (x: Receipt) => x.kind == Reopened)|
    ensures var r := RollupOf(w, latestTransition, triages);
      && r.distinctAnchors == |Keys(w)|
      && r.openAnchors == |OpenKeys(w)|
      && r.closedAnchors == |KeysNow(w, Closed)|
      && r.reopenedAnchors == |KeysNow(w, Reopened)|
      && r.behindLatest == |BehindKeys(w, latestTransition)|
      && r.repeated == |RepeatedKeys(w)|
      && r.triagedWithout == |Untouched(w, triages)|
      && (r.notable <==> w != [] && (r.openAnchors > 0 || r.repeated > 0 || r.triagedWithout > 0))
  {
    CountIsSize(w, (x: Receipt) => x.kind == RecordedPending);
    CountIsSize(w, (x: Receipt) => x.kind == Progressed);
    CountIsSize(w, (x: Receipt) => x.kind == Closed);
    CountIsSize(w, (x: Receipt) => x.kind == Reopened);
    RollupConserves(w, latestTransition, triages);
    assert Untouched(w, triages) == Triaged(triages) - Keys(w);
  }

  /** The triaged anchors without a receipt in the window. */
  function Untouched(w: seq<Receipt>, triages: seq<Id>): set<Id> {
    set t | t in triages && t != "" && forall r :: r in w ==> Key(r) != t
  }

  // ---- one anchor -----------------------------------------------------------------------------

  /** Some REOPENED receipt of the anchor has an older CLOSED one. */
  predicate ReopensOnce(w: seq<Receipt>, a: Id) {
    exists i :: 0 <= i < |w| && ReopensAt(w, a, i)
  }

  predicate ReopensTwice(w: seq<Receipt>, a: Id) {
    exists i, j :: 0 <= i < j < |w| && ReopensAt(w, a, i) && ReopensAt(w, a, j)
  }

  predicate Has(w: seq<Receipt>, a: Id, kind: FollowUpKind) {
    exists r :: r in w && r.anchorID == a && r.kind == kind
  }

  /** At least two receipts of the anchor, and none of them closes or reopens it. */
  predicate Stagnates(w: seq<Receipt>, a: Id) {
    && (exists i, j :: 0 <= i < j < |w| && w[i].anchorID == a && w[j].anchorID == a)
    && !Has(w, a, Closed) && !Has(w, a, Reopened)
  }

  lemma ReopenedMeans(w: seq<Receipt>, a: Id)
    ensures ReopenedAfterClose(w, a) > 0 <==> ReopensOnce(w, a)
    ensures ReopenedAfterClose(w, a) > 1 <==> ReopensTwice(w, a)
  {
    var places := ReopenedIsCount(w, a);
    if |places| > 0 {
      assert places[0] in places && ReopensAt(w, a, places[0]);
    }
    if |places| > 1 {
      assert places[1] in places && ReopensAt(w, a, places[1]);
      assert places[0] < places[1];
    }
    if ReopensTwice(w, a) {
      var i, j :| 0 <= i < j < |w| && ReopensAt(w, a, i) && ReopensAt(w, a, j);
      assert i in places && j in places;
    }
  }

  lemma HasMeans(w: seq<Receipt>, a: Id, kind: FollowUpKind)
    ensures OfKind(w, a, kind) > 0 <==> Has(w, a, kind)
  {
    CountSome(w, (r: Receipt) => r.anchorID == a && r.kind == kind);
  }

  lemma {:induction false} KindsOfAnchor(w: seq<Receipt>, a: Id)
    ensures OfKind(w, a, Progressed) + OfKind(w, a, RecordedPending) + OfKind(w, a, Closed)
            + OfKind(w, a, Reopened) == Count(w, (r: Receipt) => r.anchorID == a)
  {
    if w != [] {
      KindsOfAnchor(w[1..], a);
    }
  }

  lemma StagnantMeans(w: seq<Receipt>, a: Id)
    ensures Stagnant(SignalsOf(w, a)) <==> Stagnates(w, a)
  {
    var p := (r: Receipt) => r.anchorID == a;
    KindsOfAnchor(w, a);
    HasMeans(w, a, Closed);
    HasMeans(w, a, Reopened);
    CountIsSize(w, p);
    TwoPlaces(Places(w, p));
    if Count(w, p) > 1 {
      var i, j :| i in Places(w, p) && j in Places(w, p) && i < j;
    }
    if i, j :| 0 <= i < j < |w| && w[i].anchorID == a && w[j].anchorID == a {
      assert i in Places(w, p) && j in Places(w, p);
    }
  }

  lemma ReopenedIsReopened(w: seq<Receipt>, a: Id)
    ensures ReopensOnce(w, a) ==> Has(w, a, Closed) && Has(w, a, Reopened)
  {
    if i :| 0 <= i < |w| && ReopensAt(w, a, i) {
      var j :| i < j < |w| && w[j].anchorID == a && w[j].kind == Closed;
      assert w[i] in w && w[j] in w;
    }
  }

  /** The class of an anchor's item, on its receipts, in every window. */
  lemma ItemClassIff(w: seq<Receipt>, a: Id)
    ensures var c := ItemOf(a, SignalsOf(w, a)).cls;
      && (c == WeakLoop <==> ReopensTwice(w, a))
      && (c == WeakReopened <==> ReopensOnce(w, a) && !ReopensTwice(w, a))
      && (c == WeakStagnant <==> Stagnates(w, a))
      && (c == StableBounded <==> Has(w, a, Closed) && !Has(w, a, Reopened))
      && c != ClosureNone
  {
    ReopenedMeans(w, a);
    StagnantMeans(w, a);
    HasMeans(w, a, Closed);
    HasMeans(w, a, Reopened);
    ReopenedIsReopened(w, a);
    ReopensTwiceOnce(w, a);
  }

  lemma ReopensTwiceOnce(w: seq<Receipt>, a: Id)
    ensures ReopensTwice(w, a) ==> ReopensOnce(w, a)
  {
    if i, j :| 0 <= i < j < |w| && ReopensAt(w, a, i) && ReopensAt(w, a, j) {
      assert ReopensOnce(w, a);
    }
  }

  /** What else an anchor's item says: its latest receipt. */
  lemma ItemReceipt(w: seq<Receipt>, a: Id)
    requires a in Anchors(w)
    ensures var item := ItemOf(a, SignalsOf(w, a));
      && item.anchorID == a
      && exists r :: r in w && r.anchorID == a && item.latestID == r.receiptID
                     && item.latestKind == Some(r.kind) && item.latestAt == r.createdAt
                     && forall s :: s in w && s.anchorID == a ==> s.createdAt <= r.createdAt
  {
    LatestIsNewest(w, a);
    var r :| r in w && r.anchorID != "" && r.anchorID == a;
    assert Latest(w, a).value in w;
  }

  /** Of an anchor's receipts at its newest time the latest is the oldest one; only if that time is
      the zero time it is the newest listed. */
  lemma {:induction false} LatestPlace(w: seq<Receipt>, a: Id) returns (i: nat)
    requires exists r :: r in w && r.anchorID == a
    ensures i < |w| && w[i].anchorID == a && Latest(w, a) == Some(w[i])
    ensures forall j :: 0 <= j < i && w[j].anchorID == a ==>
      0 < w[i].createdAt && w[j].createdAt <= w[i].createdAt
    ensures forall j :: i < j < |w| && w[j].anchorID == a ==>
      w[j].createdAt < w[i].createdAt || w[i].createdAt == w[j].createdAt == 0
  {
    var rest := w[1..];
    assert forall r :: r in w <==> r == w[0] || r in rest;
    if exists r :: r in rest && r.anchorID == a {
      var k := LatestPlace(rest, a);
      assert forall j :: 0 < j < |w| ==> w[j] == rest[j - 1];
      i := if w[0].anchorID != a || (rest[k].createdAt != 0 && w[0].createdAt <= rest[k].createdAt)
           then k + 1 else 0;
    } else {
      NoneLatest(rest, a);
      assert forall j :: 0 < j < |w| ==> w[j] in rest;
      i := 0;
    }
  }

  lemma NoneLatest(w: seq<Receipt>, a: Id)
    requires !exists r :: r in w && r.anchorID == a
    ensures Latest(w, a).None?
  {
    LatestIsNewest(w, a);
  }

  // ---- the window -----------------------------------------------------------------------------

  predicate SomeReopens(w: seq<Receipt>) {
    exists a :: a in Anchors(w) && ReopensOnce(w, a)
  }

  predicate SomeLoops(w: seq<Receipt>) {
    exists a :: a in Anchors(w) && ReopensTwice(w, a)
  }

  predicate SomeStagnates(w: seq<Receipt>) {
    || (exists a :: a in Anchors(w) && Stagnates(w, a))
    || (exists k :: k in Keys(w) && SameAgain(w, k))
  }

  predicate SomeOpen(w: seq<Receipt>) {
    exists i: nat :: i < |w| && Leads(w, i, Key(w[i])) && w[i].kind != Closed
  }

  lemma SomeReopensIff(w: seq<Receipt>)
    ensures CountersOf(w).reopened > 0 <==> SomeReopens(w)
    ensures CountersOf(w).loops > 0 <==> SomeLoops(w)
  {
    forall a ensures (ReopenedAfterClose(w, a) > 0 <==> ReopensOnce(w, a))
                     && (ReopenedAfterClose(w, a) > 1 <==> ReopensTwice(w, a))
    {
      ReopenedMeans(w, a);
    }
    SomeElement(Reopeners(w));
    SomeElement(Loopers(w));
    if SomeReopens(w) {
      var a :| a in Anchors(w) && ReopensOnce(w, a);
      assert a in Reopeners(w);
    }
    if SomeLoops(w) {
      var a :| a in Anchors(w) && ReopensTwice(w, a);
      assert a in Loopers(w);
    }
    if Reopeners(w) != {} {
      var a :| a in Reopeners(w);
    }
    if Loopers(w) != {} {
      var a :| a in Loopers(w);
    }
  }

  lemma SomeStagnatesIff(w: seq<Receipt>, latestTransition: Option<Id>, triages: seq<Id>)
    ensures CountersOf(w).stagnant > 0 || RollupOf(w, latestTransition, triages).repeated > 0
       <==> SomeStagnates(w)
  {
    forall a ensures Stagnant(SignalsOf(w, a)) <==> Stagnates(w, a) {
      StagnantMeans(w, a);
    }
    forall k | k in Keys(w) ensures Repeats(w, k) <==> SameAgain(w, k) {
      RepeatsIff(w, k);
    }
    ZeroCounters(w);
    ZeroRollup(w, latestTransition, triages);
  }

  lemma SomeOpenIff(w: seq<Receipt>)
    ensures AllClosed(w) <==> !SomeOpen(w)
  {
    if !AllClosed(w) {
      var k :| k in Keys(w) && Newest(w, k).kind != Closed;
      var i := NewestLeads(w, k);
    }
    if SomeOpen(w) {
      var i: nat :| i < |w| && Leads(w, i, Key(w[i])) && w[i].kind != Closed;
      NewestIs(w, i, Key(w[i]));
    }
  }

  lemma LoopsAreReopened(w: seq<Receipt>)
    ensures SomeLoops(w) ==> SomeReopens(w)
  {
    if a :| a in Anchors(w) && ReopensTwice(w, a) {
      ReopensTwiceOnce(w, a);
    }
  }

  /** The class of a window: a loop, then a reopening after a close, then stagnation or repetition,
      then anything open or triaged without a receipt; each hides the ones after it. */
  lemma WindowClassIff(w: seq<Receipt>, latestTransition: Option<Id>, triages: seq<Id>)
    ensures var c := ClassOf(w, latestTransition, triages);
      var untouched := exists t :: t in triages && t != "" && t !in Keys(w);
      && (c == WeakLoop <==> SomeLoops(w))
      && (c == WeakReopened <==> SomeReopens(w) && !SomeLoops(w))
      && (c == WeakStagnant <==> SomeStagnates(w) && !SomeReopens(w))
      && (c == Unresolved <==>
            (SomeOpen(w) || untouched) && !SomeReopens(w) && !SomeStagnates(w))
      && (c == StableBounded <==>
            w != [] && !SomeOpen(w) && !untouched && !SomeReopens(w) && !SomeStagnates(w))
      && (c == ClosureNone <==> w == [] && !untouched)
  {
    OpenFacts(w, latestTransition, triages);
    SomeReopensIff(w);
    SomeStagnatesIff(w, latestTransition, triages);
    LoopsAreReopened(w);
    NoneIff(w, latestTransition, triages);
    ClassByCounts(RollupOf(w, latestTransition, triages), CountersOf(w));
  }

  /** What the roll-up says about open and triaged anchors. */
  lemma OpenFacts(w: seq<Receipt>, latestTransition: Option<Id>, triages: seq<Id>)
    ensures var r := RollupOf(w, latestTransition, triages);
      && (r.openAnchors > 0 <==> SomeOpen(w))
      && (r.triagedWithout > 0 <==> exists t :: t in triages && t != "" && t !in Keys(w))
      && (r.distinctAnchors > 0 <==> w != [])
      && r.reopenedAnchors <= r.openAnchors && r.behindLatest <= r.openAnchors
      && r.closedAnchors + r.openAnchors == r.distinctAnchors
    ensures Triaged(triages) == {} <==> !exists t :: t in triages && t != ""
  {
    ZeroRollup(w, latestTransition, triages);
    SomeOpenIff(w);
    RollupConserves(w, latestTransition, triages);
    UntouchedIff(w, triages);
    NoKeys(w);
    SomeElement(Keys(w));
  }

  lemma ClassByCounts(r: Rollup, c: Counters)
    requires c.loops > 0 ==> c.reopened > 0
    requires r.reopenedAnchors <= r.openAnchors && r.behindLatest <= r.openAnchors
    requires r.closedAnchors + r.openAnchors == r.distinctAnchors
    ensures var k := WindowClass(r, c);
      var stuck := c.stagnant > 0 || r.repeated > 0;
      var open := r.openAnchors > 0 || r.triagedWithout > 0;
      && (k == WeakLoop <==> c.loops > 0)
      && (k == WeakReopened <==> c.reopened > 0 && c.loops == 0)
      && (k == WeakStagnant <==> stuck && c.reopened == 0)
      && (k == Unresolved <==> open && c.reopened == 0 && !stuck)
      && (k == StableBounded <==> r.distinctAnchors > 0 && !open && c.reopened == 0 && !stuck)
  {
  }

  lemma UntouchedIff(w: seq<Receipt>, triages: seq<Id>)
    ensures Triaged(triages) <= Keys(w) <==> !exists t :: t in triages && t != "" && t !in Keys(w)
    ensures Triaged(triages) == {} <==> !exists t :: t in triages && t != ""
  {
    if t :| t in triages && t != "" {
      assert t in Triaged(triages);
    }
    if t :| t in triages && t != "" && t !in Keys(w) {
      assert t in Triaged(triages);
    }
    if Triaged(triages) != {} {
      var t :| t in Triaged(triages);
    }
  }

  /** The flags of a closure summary. A window whose open work is behind the latest transition is
      weak even where its class is only OPERATIONALLY_UNRESOLVED. */
  lemma FlagsIff(w: seq<Receipt>, latestTransition: Option<Id>, triages: seq<Id>)
    ensures var (r, c) := (RollupOf(w, latestTransition, triages), CountersOf(w));
      && (WeakWindow(r, c) <==>
            SomeReopens(w) || SomeStagnates(w) || r.behindLatest > 0)
      && (UnresolvedWindow(r, c) <==>
            ClassOf(w, latestTransition, triages) !in {StableBounded, ClosureNone})
  {
    SomeReopensIff(w);
    LoopsAreReopened(w);
    SomeStagnatesIff(w, latestTransition, triages);
    RollupConserves(w, latestTransition, triages);
  }

  // ---- the recent anchors ---------------------------------------------------------------------

  /** The list of recent anchors has the newest five, or all of fewer, one item for each, and in
      the order of their latest receipts; equal times are ordered by id, larger first. */
  lemma RecentMeans(recent: seq<AnchorItem>, w: seq<Receipt>)
    requires IsRecent(recent, w)
    ensures |recent| == if |Anchors(w)| < 5 then |Anchors(w)| else 5
    ensures forall x :: x in recent ==>
      x.anchorID in Anchors(w) && x == ItemOf(x.anchorID, SignalsOf(w, x.anchorID))
    ensures forall i, j :: 0 <= i < j < |recent| ==>
      || recent[i].latestAt > recent[j].latestAt
      || (recent[i].latestAt == recent[j].latestAt
          && LexLess(recent[j].anchorID, recent[i].anchorID))
    ensures forall a :: a in Anchors(w) && ItemOf(a, SignalsOf(w, a)) !in recent ==>
      forall x :: x in recent ==> x.latestAt >= ItemOf(a, SignalsOf(w, a)).latestAt
  {
    var full :| Sorted(full, Newer) && (forall x :: x in full <==> x in Items(w))
      && recent == FirstFew(full);
    FullSize(full, w);
    forall a | a in Anchors(w) && ItemOf(a, SignalsOf(w, a)) !in recent
      ensures forall x :: x in recent ==> x.latestAt >= ItemOf(a, SignalsOf(w, a)).latestAt
    {
      var item := ItemOf(a, SignalsOf(w, a));
      assert item in Items(w) && item in full;
      var j :| 0 <= j < |full| && full[j] == item;
      forall x | x in recent ensures x.latestAt >= item.latestAt {
        var i :| 0 <= i < |recent| && recent[i] == x;
        assert full[i] == x && i < j;
        assert Newer(full[i], full[j]);
      }
    }
    forall x | x in recent
      ensures x.anchorID in Anchors(w) && x == ItemOf(x.anchorID, SignalsOf(w, x.anchorID))
    {
      assert x in full && x in Items(w);
    }
    forall i, j | 0 <= i < j < |recent| ensures Newer(recent[i], recent[j]) {
      assert recent[i] == full[i] && recent[j] == full[j];
    }
  }

  lemma FullSize(full: seq<AnchorItem>, w: seq<Receipt>)
    requires Sorted(full, Newer) && forall x :: x in full <==> x in Items(w)
    ensures |full| == |Anchors(w)|
  {
    NewerIsStrict();
    forall i, j | 0 <= i < j < |full| ensures full[i] != full[j] {
      assert Newer(full[i], full[j]);
    }
    ListedSize(full);
    assert (set x | x in full) == Items(w) == ItemsFor(Anchors(w), w);
    ItemsSize(Anchors(w), w);
  }

  lemma {:induction false} ItemsSize(anchors: set<Id>, w: seq<Receipt>)
    ensures |ItemsFor(anchors, w)| == |anchors|
  {
    if anchors == {} {
      assert ItemsFor(anchors, w) == {};
    } else {
      var b :| b in anchors;
      ItemsSize(anchors - {b}, w);
      ItemsAdd(anchors - {b}, b, w);
      assert anchors - {b} + {b} == anchors;
    }
  }

  function ItemsFor(anchors: set<Id>, w: seq<Receipt>): set<AnchorItem> {
    set a | a in anchors :: ItemOf(a, SignalsOf(w, a))
  }

  lemma ItemsAdd(anchors: set<Id>, b: Id, w: seq<Receipt>)
    requires b !in anchors
    ensures |ItemsFor(anchors + {b}, w)| == |ItemsFor(anchors, w)| + 1
  {
    var item := ItemOf(b, SignalsOf(w, b));
    assert forall x :: x in ItemsFor(anchors, w) ==> x.anchorID in anchors;
    assert item !in ItemsFor(anchors, w);
    assert ItemsFor(anchors + {b}, w) == ItemsFor(anchors, w) + {item};
  }

  // ---- the risk -------------------------------------------------------------------------------

  /** Two different ids of a set meet a condition. */
  predicate Two(all: set<Id>, p: Id -> bool) {
    exists a, b :: a in all && b in all && a != b && p(a) && p(b)
  }

  lemma TwoOf(all: set<Id>, chosen: set<Id>, p: Id -> bool)
    requires forall x :: x in chosen <==> x in all && p(x)
    ensures |chosen| > 1 <==> Two(all, p)
  {
    TwoKeys(chosen);
    if Two(all, p) {
      var a, b :| a in all && b in all && a != b && p(a) && p(b);
      assert a in chosen && b in chosen;
    }
  }

  predicate TwoReopen(w: seq<Receipt>) {
    Two(Anchors(w), a => ReopensOnce(w, a))
  }

  predicate TwoStagnate(w: seq<Receipt>) {
    Two(Anchors(w), a => Stagnates(w, a))
  }

  predicate TwoRepeat(w: seq<Receipt>) {
    Two(Keys(w), k => SameAgain(w, k))
  }

  lemma TwoStagnateIff(w: seq<Receipt>)
    ensures |Stagnants(w)| > 1 <==> TwoStagnate(w)
  {
    var p := a => Stagnates(w, a);
    forall a ensures Stagnant(SignalsOf(w, a)) <==> p(a) {
      StagnantMeans(w, a);
    }
    TwoOf(Anchors(w), Stagnants(w), p);
  }

  lemma TwoRepeatIff(w: seq<Receipt>)
    ensures |RepeatedKeys(w)| > 1 <==> TwoRepeat(w)
  {
    var p := k => SameAgain(w, k);
    forall k | k in Keys(w) ensures Repeats(w, k) <==> p(k) {
      RepeatsIff(w, k);
    }
    TwoOf(Keys(w), RepeatedKeys(w), p);
  }

  /** Weak closure recurs when one anchor loops, or two are reopened after a close. */
  lemma WeakClosureIff(w: seq<Receipt>)
    ensures WeakClosure(CountersOf(w)) <==> SomeLoops(w) || TwoReopen(w)
  {
    SomeReopensIff(w);
    var p := a => ReopensOnce(w, a);
    forall a ensures ReopenedAfterClose(w, a) > 0 <==> p(a) {
      ReopenedMeans(w, a);
    }
    TwoOf(Anchors(w), Reopeners(w), p);
  }

  /** Anchors that are open or have no follow-up: two of them, or a single one that is reopened,
      beside any other anchor. */
  predicate OpenRecurs(r: Rollup) {
    && r.distinctAnchors > 1
    && (r.openAnchors + r.triagedWithout > 1
        || r.reopenedAnchors == r.openAnchors + r.triagedWithout == 1)
  }

  lemma RiskByCounts(r: Rollup, c: Counters)
    requires r.reopenedAnchors <= r.openAnchors && r.behindLatest <= r.openAnchors
    requires r.closedAnchors + r.openAnchors == r.distinctAnchors
    ensures var k := RiskOf(r, c);
      var weak := c.reopened > 1 || c.loops > 0;
      var stuck := c.stagnant > 1 || r.repeated > 1;
      && (k == RecurringWeakClosure <==> weak)
      && (k == RecurringStagnant <==> !weak && stuck)
      && (k == RecurringTriagedNoFollowUp <==> !weak && !stuck && r.triagedWithout > 1)
      && (k == RecurringUnresolved <==>
            !weak && !stuck && r.triagedWithout <= 1 && OpenRecurs(r))
      && (k == RiskStable <==> r.distinctAnchors > 0 && !UnresolvedWindow(r, c))
  {
  }

  lemma StableByCounts(r: Rollup, c: Counters)
    requires r.closedAnchors + r.openAnchors == r.distinctAnchors
    ensures WindowClass(r, c) == StableBounded <==> r.distinctAnchors > 0 && !UnresolvedWindow(r, c)
  {
  }

  /** The risk class of a window: recurring weak closure, then recurring stagnation, then triage
      without follow-up, then recurring unresolved work; stable exactly when the window is. */
  lemma RiskClassIff(w: seq<Receipt>, latestTransition: Option<Id>, triages: seq<Id>)
    ensures var r := RollupOf(w, latestTransition, triages);
      var c := RiskOf(r, CountersOf(w));
      var weak := SomeLoops(w) || TwoReopen(w);
      var stuck := TwoStagnate(w) || TwoRepeat(w);
      && (c == RecurringWeakClosure <==> weak)
      && (c == RecurringStagnant <==> !weak && stuck)
      && (c == RecurringTriagedNoFollowUp <==> !weak && !stuck && r.triagedWithout > 1)
      && (c == RecurringUnresolved <==>
            !weak && !stuck && r.triagedWithout <= 1 && OpenRecurs(r))
      && (c == RiskStable <==> ClassOf(w, latestTransition, triages) == StableBounded)
  {
    OpenFacts(w, latestTransition, triages);
    WeakClosureIff(w);
    TwoStagnateIff(w);
    TwoRepeatIff(w);
    RiskByCounts(RollupOf(w, latestTransition, triages), CountersOf(w));
    StableByCounts(RollupOf(w, latestTransition, triages), CountersOf(w));
  }

  lemma {:induction false} LessAt(x: string, y: string, k: nat)
    requires k < |x| && k < |y| && x[..k] == y[..k] && x[k] < y[k]
    ensures LexLess(x, y)
  {
    if k > 0 {
      assert x[0] == x[..k][0] && y[0] == y[..k][0];
      assert x[1..][..k - 1] == x[..k][1..] && y[1..][..k - 1] == y[..k][1..];
      LessAt(x[1..], y[1..], k - 1);
    }
  }

  /** The order in which a risk summary lists the classes. */
  lemma ClassesByName()
    ensures Sorted([Unresolved, StableBounded, WeakLoop, WeakReopened, WeakStagnant], ByName)
  {
    var classes := [Unresolved, StableBounded, WeakLoop, WeakReopened, WeakStagnant];
    assert Name(WeakLoop)[..13] == Name(WeakReopened)[..13] == Name(WeakStagnant)[..13];
    forall i, j | 0 <= i < j < 5 ensures ByName(classes[i], classes[j]) {
      LessAt(Name(classes[i]), Name(classes[j]), if i < 2 then 0 else 13);
    }
  }
}
