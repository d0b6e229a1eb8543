/** What the closure counters and classes mean for the window they were read off. */
module ClosureTheorems {
  import opened Wrappers
  import opened HandoffRecords
  import opened FiniteSets
  import opened Ordering
  import opened Incidents
  import opened IncidentClosure

  // ---- the counters ---------------------------------------------------------------------------

  lemma {:induction false} CountSome<T(!new)>(s: seq<T>, p: T -> bool)
    ensures Count(s, p) > 0 <==> exists x :: x in s && p(x)
  {
    if s != [] {
      CountSome(s[1..], p);
      assert forall x :: x in s <==> x == s[0] || x in s[1..];
    }
  }

  /** Receipt i reopens the anchor after an older close (older receipts come later). */
  predicate ReopensAt(w: seq<Receipt>, a: Id, i: int)
    requires 0 <= i < |w|
  {
    && w[i].anchorID == a && w[i].kind == Reopened
    && exists j :: i < j < |w| && w[j].anchorID == a && w[j].kind == Closed
  }

  /** The places in ascending order, each once. */
  ghost predicate ListsReopens(places: seq<nat>, w: seq<Receipt>, a: Id) {
    && (forall n, m :: 0 <= n < m < |places| ==> places[n] < places[m])
    && (forall i :: 0 <= i < |w| ==> (i in places <==> ReopensAt(w, a, i)))
    && (forall n :: 0 <= n < |places| ==> places[n] < |w|)
  }

  lemma ClosedLater(w: seq<Receipt>, a: Id)
    ensures OfKind(w, a, Closed) > 0
       <==> exists j :: 0 <= j < |w| && w[j].anchorID == a && w[j].kind == Closed
  {
    CountSome(w, (r: Receipt) => r.anchorID == a && r.kind == Closed);
    if OfKind(w, a, Closed) > 0 {
      var x :| x in w && x.anchorID == a && x.kind == Closed;
      var j :| 0 <= j < |w| && w[j] == x;
    }
    assert forall j :: 0 <= j < |w| ==> w[j] in w;
  }

  lemma ReopensTail(w: seq<Receipt>, a: Id, i: int)
    requires 0 <= i < |w| - 1
    ensures ReopensAt(w[1..], a, i) == ReopensAt(w, a, i + 1)
  {
    if ReopensAt(w, a, i + 1) {
      var j :| i + 1 < j < |w| && w[j].anchorID == a && w[j].kind == Closed;
      assert w[1..][j - 1] == w[j];
    }
    if ReopensAt(w[1..], a, i) {
      var j :| i < j < |w[1..]| && w[1..][j].anchorID == a && w[1..][j].kind == Closed;
      assert w[j + 1] == w[1..][j];
    }
  }

  lemma ReopensHead(w: seq<Receipt>, a: Id)
    requires w != []
    ensures ReopensAt(w, a, 0) <==>
      w[0].anchorID == a && w[0].kind == Reopened && OfKind(w[1..], a, Closed) > 0
  {
    ClosedLater(w[1..], a);
    if OfKind(w[1..], a, Closed) > 0 {
      var j :| 0 <= j < |w[1..]| && w[1..][j].anchorID == a && w[1..][j].kind == Closed;
      assert w[j + 1] == w[1..][j];
    }
    if ReopensAt(w, a, 0) {
      var j :| 0 < j < |w| && w[j].anchorID == a && w[j].kind == Closed;
      assert w[1..][j - 1] == w[j];
    }
  }

  function Later(places: seq<nat>): seq<nat> {
    seq(|places|, n requires 0 <= n < |places| => places[n] + 1)
  }

  lemma LaterHas(places: seq<nat>, i: nat)
    ensures i in Later(places) <==> i > 0 && i - 1 in places
  {
    if i > 0 && i - 1 in places {
      var n :| 0 <= n < |places| && places[n] == i - 1;
      assert Later(places)[n] == i;
    }
    if i in Later(places) {
      var n :| 0 <= n < |places| && Later(places)[n] == i;
      assert places[n] == i - 1;
    }
  }

  lemma PlacesCons(tail: seq<nat>, w: seq<Receipt>, a: Id)
    requires w != [] && ListsReopens(tail, w[1..], a)
    ensures ListsReopens((if ReopensAt(w, a, 0) then [0] else []) + Later(tail), w, a)
  {
    var head: seq<nat> := if ReopensAt(w, a, 0) then [0] else [];
    forall i | 0 <= i < |w| ensures i in head + Later(tail) <==> ReopensAt(w, a, i) {
      LaterHas(tail, i);
      if i > 0 {
        ReopensTail(w, a, i - 1);
      }
    }
  }

  /** The pass counts exactly the REOPENED receipts of the anchor that have an older CLOSED one. */
  lemma {:induction false} ReopenedIsCount(w: seq<Receipt>, a: Id) returns (places: seq<nat>)
    ensures ListsReopens(places, w, a) && ReopenedAfterClose(w, a) == |places|
  {
    places := [];
    if w != [] {
      var tail := ReopenedIsCount(w[1..], a);
      ReopensHead(w, a);
      PlacesCons(tail, w, a);
      places := (if ReopensAt(w, a, 0) then [0] else []) + Later(tail);
    }
  }

  /** The latest receipt of an anchor carries the anchor's newest time. */
  lemma {:induction false} LatestIsNewest(w: seq<Receipt>, a: Id)
    ensures Latest(w, a).Some? <==> exists r :: r in w && r.anchorID == a
    ensures Latest(w, a).Some? ==>
      && Latest(w, a).value in w && Latest(w, a).value.anchorID == a
      && forall r :: r in w && r.anchorID == a ==> r.createdAt <= Latest(w, a).value.createdAt
  {
    if w != [] {
      LatestIsNewest(w[1..], a);
      assert forall r :: r in w <==> r == w[0] || r in w[1..];
    }
  }

  lemma {:induction false} ReopenedBoundedByReopens(w: seq<Receipt>, a: Id)
    ensures ReopenedAfterClose(w, a) <= OfKind(w, a, Reopened)
  {
    if w != [] {
      ReopenedBoundedByReopens(w[1..], a);
    }
  }

  lemma AnchorsAreKeys(w: seq<Receipt>)
    ensures Anchors(w) <= Keys(w)
  {
    forall a | a in Anchors(w) ensures a in Keys(w) {
      var r :| r in w && r.anchorID != "" && r.anchorID == a;
      assert Key(r) == a;
    }
  }

  /** Loops are reopened anchors, and an anchor is reopened after a close or stagnant, not both. */
  lemma CountersAreBounded(w: seq<Receipt>, latestTransition: Option<Id>, triages: seq<Id>)
    ensures var c := CountersOf(w);
      && c.loops <= c.reopened
      && c.reopened + c.stagnant <= |Anchors(w)|
      && |Anchors(w)| <= RollupOf(w, latestTransition, triages).distinctAnchors
  {
    SubsetSize(Loopers(w), Reopeners(w));
    forall a | a in Reopeners(w) ensures a !in Stagnants(w) {
      ReopenedBoundedByReopens(w, a);
    }
    assert Reopeners(w) !! Stagnants(w);
    SubsetSize(Reopeners(w) + Stagnants(w), Anchors(w));
    AnchorsAreKeys(w);
    SubsetSize(Anchors(w), Keys(w));
  }

  // ---- the classes ----------------------------------------------------------------------------

  function ClassOf(w: seq<Receipt>, latestTransition: Option<Id>, triages: seq<Id>): ClosureClass {
    WindowClass(RollupOf(w, latestTransition, triages), CountersOf(w))
  }

  lemma SomeElement(s: set<Id>)
    ensures |s| == 0 <==> s == {}
  {
  }

  lemma NoKeys(w: seq<Receipt>)
    ensures Keys(w) == {} <==> w == []
  {
    if w != [] {
      assert w[0] in w;
      assert Key(w[0]) in Keys(w);
    }
  }

  lemma EmptyCounters(latestTransition: Option<Id>, triages: seq<Id>)
    ensures CountersOf([]) == Counters(0, 0, 0)
    ensures var r := RollupOf([], latestTransition, triages);
      r.repeated == 0 && r.behindLatest == 0 && r.openAnchors == 0 && r.reopenedAnchors == 0
  {
    assert Reopeners([]) == {} && Loopers([]) == {} && Stagnants([]) == {};
    assert RepeatedKeys([]) == {} && BehindKeys([], latestTransition) == {};
    assert OpenKeys([]) == {} && KeysNow([], Reopened) == {};
  }

  /** Every anchor of the window ends on a CLOSED receipt. */
  predicate AllClosed(w: seq<Receipt>) {
    forall k :: k in Keys(w) ==> Newest(w, k).kind == Closed
  }

  predicate NeverReopenedAfterClose(w: seq<Receipt>) {
    forall a :: a in Anchors(w) ==> ReopenedAfterClose(w, a) == 0
  }

  predicate NoneRepeats(w: seq<Receipt>) {
    forall k :: k in Keys(w) ==> !Repeats(w, k)
  }

  predicate NoneStagnant(w: seq<Receipt>) {
    forall a :: a in Anchors(w) ==> !Stagnant(SignalsOf(w, a))
  }

  lemma SetsEmpty(w: seq<Receipt>, latestTransition: Option<Id>)
    ensures OpenKeys(w) == {} <==> AllClosed(w)
    ensures AllClosed(w) ==> BehindKeys(w, latestTransition) == {} && KeysNow(w, Reopened) == {}
    ensures RepeatedKeys(w) == {} <==> NoneRepeats(w)
    ensures Reopeners(w) == {} <==> NeverReopenedAfterClose(w)
    ensures Reopeners(w) == {} ==> Loopers(w) == {}
    ensures Stagnants(w) == {} <==> NoneStagnant(w)
  {
    AllClosedIff(w);
    assert forall k :: k in Keys(w) && Repeats(w, k) ==> k in RepeatedKeys(w);
    assert forall a :: a in Loopers(w) ==> a in Reopeners(w);
    assert forall a :: a in Anchors(w) && ReopenedAfterClose(w, a) > 0 ==> a in Reopeners(w);
    assert forall a :: a in Anchors(w) && Stagnant(SignalsOf(w, a)) ==> a in Stagnants(w);
  }

  lemma AllClosedIff(w: seq<Receipt>)
    ensures OpenKeys(w) == {} <==> AllClosed(w)
  {
    assert forall k :: k in Keys(w) && OpenKey(w, k) ==> k in OpenKeys(w);
  }

  /** Each counter is zero exactly when its condition fails everywhere. */
  lemma ZeroRollup(w: seq<Receipt>, latestTransition: Option<Id>, triages: seq<Id>)
    ensures var r := RollupOf(w, latestTransition, triages);
      && (r.openAnchors == 0 <==> AllClosed(w))
      && (AllClosed(w) ==> r.behindLatest == 0 && r.reopenedAnchors == 0
                           && r.closedAnchors == |Keys(w)|)
      && (r.repeated == 0 <==> NoneRepeats(w))
      && (r.triagedWithout == 0 <==> Triaged(triages) <= Keys(w))
  {
    RollupConserves(w, latestTransition, triages);
    SetsEmpty(w, latestTransition);
    assert forall t :: t in Triaged(triages) && t !in Keys(w) ==> t in Triaged(triages) - Keys(w);
  }

  lemma ZeroCounters(w: seq<Receipt>)
    ensures var c := CountersOf(w);
      && (c.reopened == 0 <==> NeverReopenedAfterClose(w)) && (c.reopened == 0 ==> c.loops == 0)
      && (c.stagnant == 0 <==> NoneStagnant(w))
  {
    SetsEmpty(w, None);
  }

  /** No class exactly when there is nothing to look at: no receipts and no triaged anchors. */
  lemma NoneIff(w: seq<Receipt>, latestTransition: Option<Id>, triages: seq<Id>)
    ensures ClassOf(w, latestTransition, triages) == ClosureNone
       <==> w == [] && Triaged(triages) == {}
  {
    RollupConserves(w, latestTransition, triages);
    ZeroRollup(w, latestTransition, triages);
    NoKeys(w);
    NoneClass(RollupOf(w, latestTransition, triages), CountersOf(w));
    if w == [] {
      EmptyCounters(latestTransition, triages);
    }
  }

  /** STABLE_BOUNDED, read off the window: it has receipts, every anchor's newest one is CLOSED,
      none was reopened after a close, none repeats one kind or stagnates, and every triaged anchor
      has a receipt. */
  lemma StableIff(w: seq<Receipt>, latestTransition: Option<Id>, triages: seq<Id>)
    ensures ClassOf(w, latestTransition, triages) == StableBounded <==>
      && w != [] && AllClosed(w) && NeverReopenedAfterClose(w) && NoneRepeats(w)
      && NoneStagnant(w) && Triaged(triages) <= Keys(w)
  {
    ZeroRollup(w, latestTransition, triages);
    ZeroCounters(w);
    NoKeys(w);
    SomeElement(Keys(w));
    StableClass(RollupOf(w, latestTransition, triages), CountersOf(w));
    if w == [] {
      NoneIff(w, latestTransition, triages);
    }
  }

  lemma NoneClass(r: Rollup, c: Counters)
    ensures WindowClass(r, c) == ClosureNone <==>
      && r.closedAnchors == 0 && r.openAnchors == 0 && r.reopenedAnchors == 0
      && r.behindLatest == 0 && r.repeated == 0 && r.triagedWithout == 0
      && c.loops == 0 && c.reopened == 0 && c.stagnant == 0
  {
  }

  lemma StableClass(r: Rollup, c: Counters)
    ensures WindowClass(r, c) == StableBounded <==>
      && r.closedAnchors > 0 && r.openAnchors == 0 && r.reopenedAnchors == 0
      && r.behindLatest == 0 && r.repeated == 0 && r.triagedWithout == 0
      && c.loops == 0 && c.reopened == 0 && c.stagnant == 0
  {
  }

  /** No stand-in key of an anchorless receipt looks like a real anchor. */
  predicate KeysApart(w: seq<Receipt>) {
    forall r, s :: r in w && s in w && r.anchorID == "" ==> Key(r) != s.anchorID
  }

  lemma {:induction false} NewestIn(w: seq<Receipt>, k: Id)
    requires k in Keys(w)
    ensures Newest(w, k) in w && Key(Newest(w, k)) == k
  {
    if Key(w[0]) != k {
      assert forall r :: r in w ==> r == w[0] || r in w[1..];
      NewestIn(w[1..], k);
    }
  }

  /** Then stagnation needs no mention: an anchor that ends on CLOSED has a close. */
  lemma ClosedIsNotStagnant(w: seq<Receipt>)
    requires KeysApart(w) && AllClosed(w)
    ensures NoneStagnant(w)
  {
    forall a | a in Anchors(w) ensures !Stagnant(SignalsOf(w, a)) {
      AnchorHasClose(w, a);
    }
  }

  lemma StableIffApart(w: seq<Receipt>, latestTransition: Option<Id>, triages: seq<Id>)
    requires KeysApart(w)
    ensures ClassOf(w, latestTransition, triages) == StableBounded <==>
      && w != [] && AllClosed(w) && NeverReopenedAfterClose(w) && NoneRepeats(w)
      && Triaged(triages) <= Keys(w)
  {
    StableIff(w, latestTransition, triages);
    if AllClosed(w) {
      ClosedIsNotStagnant(w);
    }
  }

  // ---- a stable window with an unstable item --------------------------------------------------

  lemma AnchorHasClose(w: seq<Receipt>, a: Id)
    requires KeysApart(w) && AllClosed(w) && a in Anchors(w)
    ensures OfKind(w, a, Closed) > 0
  {
    AnchorsAreKeys(w);
    NewestIn(w, a);
    var s :| s in w && s.anchorID != "" && s.anchorID == a;
    assert Newest(w, a).anchorID == a;
    CountSome(w, (x: Receipt) => x.anchorID == a && x.kind == Closed);
  }

  lemma ItemWithoutSignals(s: Signals)
    requires s.afterClose == 0 && s.closed > 0
    ensures ItemClass(s) == if s.reopened == 0 then StableBounded else Unresolved
  {
  }

  /** In a stable window an anchor's own item is stable exactly when it was never reopened at all:
      a reopening before the first close is forgiven by the window but not by the item. */
  lemma StableItemIff(w: seq<Receipt>, latestTransition: Option<Id>, triages: seq<Id>, a: Id)
    requires KeysApart(w) && ClassOf(w, latestTransition, triages) == StableBounded
    requires a in Anchors(w)
    ensures ItemOf(a, SignalsOf(w, a)).cls ==
      if exists r :: r in w && r.anchorID == a && r.kind == Reopened then Unresolved
      else StableBounded
  {
    StableIff(w, latestTransition, triages);
    AnchorHasClose(w, a);
    ItemWithoutSignals(SignalsOf(w, a));
    CountSome(w, (x: Receipt) => x.anchorID == a && x.kind == Reopened);
  }

  lemma PairFacts(newer: Receipt, older: Receipt)
    requires newer.anchorID == older.anchorID == "a"
    requires newer.kind == Closed && older.kind == Reopened
    ensures var w := [newer, older];
      && Keys(w) == {"a"} && Anchors(w) == {"a"} && Newest(w, "a") == newer
      && KindsOf(w, "a") == {Closed, Reopened}
      && SignalsOf(w, "a").closed == 1 && SignalsOf(w, "a").reopened == 1
      && ReopenedAfterClose(w, "a") == 0
  {
    var w := [newer, older];
    assert w[1..] == [older] && w[1..][1..] == [];
    assert newer in w && older in w && forall r :: r in w ==> r == newer || r == older;
    assert Key(newer) == "a" && Key(older) == "a";
    assert [older][1..] == [] && OfKind([], "a", Closed) == 0 && OfKind([], "a", Reopened) == 0;
    assert ReopenedAfterClose([older], "a") == 0;
    assert OfKind([older], "a", Closed) == 0 && OfKind([older], "a", Reopened) == 1;
  }

  /** Reopened, then closed: the window is stable, its only item is not. */
  lemma StableWindowUnstableItem() returns (w: seq<Receipt>)
    ensures ClassOf(w, None, []) == StableBounded
    ensures Anchors(w) == {"a"} && ItemOf("a", SignalsOf(w, "a")).cls == Unresolved
  {
    var newer := Receipt("r2", "a", "t", Closed, 2);
    var older := Receipt("r1", "a", "t", Reopened, 1);
    w := [newer, older];
    PairFacts(newer, older);
    assert Closed in KindsOf(w, "a") && Reopened in KindsOf(w, "a");
    StableIff(w, None, []);
  }

  // ---- longer windows -------------------------------------------------------------------------

  lemma {:induction false} OfKindOlder(w: seq<Receipt>, older: seq<Receipt>, a: Id,
                                       kind: FollowUpKind)
    ensures OfKind(w + older, a, kind) == OfKind(w, a, kind) + OfKind(older, a, kind)
  {
    if w == [] {
      assert w + older == older;
    } else {
      OfKindOlder(w[1..], older, a, kind);
      assert (w + older)[1..] == w[1..] + older;
    }
  }

  /** Looking further back never lowers an anchor's count of reopenings after a close. */
  lemma {:induction false} OlderNeverLowers(w: seq<Receipt>, older: seq<Receipt>, a: Id)
    ensures ReopenedAfterClose(w + older, a) >= ReopenedAfterClose(w, a)
  {
    if w == [] {
    } else {
      OlderNeverLowers(w[1..], older, a);
      OfKindOlder(w[1..], older, a, Closed);
      assert (w + older)[1..] == w[1..] + older;
    }
  }

  /** So the weak-closure counters only grow with the window. */
  lemma WeakCountersGrow(w: seq<Receipt>, older: seq<Receipt>)
    ensures CountersOf(w).reopened <= CountersOf(w + older).reopened
    ensures CountersOf(w).loops <= CountersOf(w + older).loops
  {
    assert forall r :: r in w ==> r in w + older;
    forall a | a in Anchors(w) ensures a in Anchors(w + older) {
    }
    forall a ensures ReopenedAfterClose(w + older, a) >= ReopenedAfterClose(w, a) {
      OlderNeverLowers(w, older, a);
    }
    SubsetSize(Reopeners(w), Reopeners(w + older));
    SubsetSize(Loopers(w), Loopers(w + older));
  }
}
