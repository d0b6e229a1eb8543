/** Follow-up receipts of continuity incidents and the roll-up of a bounded window of them:
    continuity_incident_followup.go:439-543. A window lists receipts newest first. */
module Incidents {
  import opened Wrappers
  import opened HandoffRecords
  import opened FiniteSets

  datatype FollowUpKind = RecordedPending | Progressed | Closed | Reopened

  datatype Receipt = Receipt(receiptID: Id, anchorID: Id, triageID: Id, kind: FollowUpKind,
                             createdAt: nat)

  function Count<T>(s: seq<T>, p: T -> bool): nat {
    if s == [] then 0 else (if p(s[0]) then 1 else 0) + Count(s[1..], p)
  }

  lemma {:induction false} CountAppend<T>(s: seq<T>, p: T -> bool, x: T)
    ensures Count(s + [x], p) == Count(s, p) + (if p(x) then 1 else 0)
  {
    if s == [] {
      assert s + [x] == [x];
    } else {
      CountAppend(s[1..], p, x);
      assert (s + [x])[1..] == s[1..] + [x];
    }
  }

  // ---- what the window says about each anchor -------------------------------------------------

  /** The anchor a receipt is rolled up under; one without an anchor stands for itself. */
  function Key(r: Receipt): Id {
    if r.anchorID == "" then "receipt:" + r.receiptID else r.anchorID
  }

  function Keys(receipts: seq<Receipt>): set<Id> {
    set r | r in receipts :: Key(r)
  }

  /** The newest receipt of a key. */
  function Newest(receipts: seq<Receipt>, key: Id): Receipt
    requires key in Keys(receipts)
  {
    if Key(receipts[0]) == key then receipts[0]
    else
      assert forall r :: r in receipts ==> r == receipts[0] || r in receipts[1..];
      Newest(receipts[1..], key)
  }

  function OfKey(receipts: seq<Receipt>, key: Id): nat {
    Count(receipts, (r: Receipt) => Key(r) == key)
  }

  function KindsOf(receipts: seq<Receipt>, key: Id): set<FollowUpKind> {
    set r | r in receipts && Key(r) == key :: r.kind
  }

  predicate OpenKey(receipts: seq<Receipt>, key: Id)
    requires key in Keys(receipts)
  {
    Newest(receipts, key).kind != Closed
  }

  /** The key's newest receipt is open and hangs on an anchor that is not the latest transition. */
  predicate BehindKey(receipts: seq<Receipt>, latestTransition: Option<Id>, key: Id)
    requires key in Keys(receipts)
  {
    && OpenKey(receipts, key) && latestTransition.Some?
    && Newest(receipts, key).anchorID != ""
    && Newest(receipts, key).anchorID != latestTransition.value
  }

  /** Several receipts, all of one kind. */
  predicate Repeats(receipts: seq<Receipt>, key: Id) {
    OfKey(receipts, key) > 1 && |KindsOf(receipts, key)| == 1
  }

  function Triaged(triages: seq<Id>): set<Id> {
    set t | t in triages && t != ""
  }

  datatype Rollup = Rollup(windowSize: nat, pending: nat, progressed: nat, closed: nat,
                           reopened: nat, distinctAnchors: nat, openAnchors: nat,
                           closedAnchors: nat, reopenedAnchors: nat, behindLatest: nat,
                           repeated: nat, triagedWithout: nat, notable: bool)

  function CountKind(receipts: seq<Receipt>, kind: FollowUpKind): nat {
    Count(receipts, (r: Receipt) => r.kind == kind)
  }

  function OpenKeys(receipts: seq<Receipt>): set<Id> {
    set k | k in Keys(receipts) && OpenKey(receipts, k)
  }

  function BehindKeys(receipts: seq<Receipt>, latestTransition: Option<Id>): set<Id> {
    set k | k in Keys(receipts) && BehindKey(receipts, latestTransition, k)
  }

  function RepeatedKeys(receipts: seq<Receipt>): set<Id> {
    set k | k in Keys(receipts) && Repeats(receipts, k)
  }

  /** The keys whose newest receipt is of the kind. */
  function KeysNow(receipts: seq<Receipt>, kind: FollowUpKind): set<Id> {
    set k | k in Keys(receipts) && Newest(receipts, k).kind == kind
  }

  /** Every counter as the size of the set of anchors it counts. */
  function RollupOf(receipts: seq<Receipt>, latestTransition: Option<Id>, triages: seq<Id>): Rollup {
    var open := |OpenKeys(receipts)|;
    var behind := |BehindKeys(receipts, latestTransition)|;
    var repeated := |RepeatedKeys(receipts)|;
    var untouched := |Triaged(triages) - Keys(receipts)|;
    Rollup(|receipts|, CountKind(receipts, RecordedPending), CountKind(receipts, Progressed),
           CountKind(receipts, Closed), CountKind(receipts, Reopened), |Keys(receipts)|, open,
           |KeysNow(receipts, Closed)|, |KeysNow(receipts, Reopened)|, behind, repeated, untouched,
           receipts != [] && (open > 0 || behind > 0 || repeated > 0 || untouched > 0))
  }

  // ---- the single pass ------------------------------------------------------------------------

  datatype Aggregate = Aggregate(count: nat, kinds: set<FollowUpKind>, latest: Receipt)

  /** The map holds, for each key of a prefix, its count, its kinds and its newest receipt. */
  ghost predicate Aggregated(anchors: map<Id, Aggregate>, receipts: seq<Receipt>) {
    && anchors.Keys == Keys(receipts)
    && forall k :: k in anchors ==>
         && anchors[k].count == OfKey(receipts, k)
         && anchors[k].kinds == KindsOf(receipts, k)
         && anchors[k].latest == Newest(receipts, k)
  }

  lemma KeysAppend(receipts: seq<Receipt>, r: Receipt)
    ensures Keys(receipts + [r]) == Keys(receipts) + {Key(r)}
  {
    assert forall x :: x in receipts + [r] <==> x in receipts || x == r;
  }

  lemma {:induction false} NewestAppend(receipts: seq<Receipt>, r: Receipt, key: Id)
    requires key in Keys(receipts)
    ensures key in Keys(receipts + [r])
    ensures Newest(receipts + [r], key) == Newest(receipts, key)
    decreases |receipts|
  {
    KeysAppend(receipts, r);
    if Key(receipts[0]) != key {
      assert forall x :: x in receipts ==> x == receipts[0] || x in receipts[1..];
      NewestAppend(receipts[1..], r, key);
      assert (receipts + [r])[1..] == receipts[1..] + [r];
    }
  }

  lemma {:induction false} NewestOfNew(receipts: seq<Receipt>, r: Receipt)
    requires Key(r) !in Keys(receipts)
    ensures Key(r) in Keys(receipts + [r])
    ensures Newest(receipts + [r], Key(r)) == r
    decreases |receipts|
  {
    KeysAppend(receipts, r);
    if receipts != [] {
      assert receipts[0] in receipts;
      assert forall x :: x in receipts[1..] ==> x in receipts;
      NewestOfNew(receipts[1..], r);
      assert (receipts + [r])[1..] == receipts[1..] + [r];
    }
  }

  lemma KeyStep(receipts: seq<Receipt>, r: Receipt, k: Id)
    ensures OfKey(receipts + [r], k) == OfKey(receipts, k) + (if Key(r) == k then 1 else 0)
    ensures KindsOf(receipts + [r], k)
         == KindsOf(receipts, k) + (if Key(r) == k then {r.kind} else {})
  {
    CountAppend(receipts, (x: Receipt) => Key(x) == k, r);
    assert forall x :: x in receipts + [r] <==> x in receipts || x == r;
  }

  /** What one receipt does to the aggregate of its key. */
  function Absorb(anchors: map<Id, Aggregate>, r: Receipt): map<Id, Aggregate> {
    var agg := if Key(r) in anchors then anchors[Key(r)] else Aggregate(0, {}, r);
    anchors[Key(r) := Aggregate(agg.count + 1, agg.kinds + {r.kind}, agg.latest)]
  }

  lemma AbsorbNew(receipts: seq<Receipt>, r: Receipt)
    requires Key(r) !in Keys(receipts)
    ensures OfKey(receipts, Key(r)) == 0 && KindsOf(receipts, Key(r)) == {}
    ensures Key(r) in Keys(receipts + [r]) && Newest(receipts + [r], Key(r)) == r
  {
    CountNone(receipts, Key(r));
    NewestOfNew(receipts, r);
  }

  lemma AggregateStep(anchors: map<Id, Aggregate>, receipts: seq<Receipt>, r: Receipt)
    requires Aggregated(anchors, receipts)
    ensures Aggregated(Absorb(anchors, r), receipts + [r])
  {
    KeysAppend(receipts, r);
    if Key(r) !in Keys(receipts) {
      AbsorbNew(receipts, r);
    }
    var after := Absorb(anchors, r);
    forall k | k in after
      ensures after[k].count == OfKey(receipts + [r], k)
      ensures after[k].kinds == KindsOf(receipts + [r], k)
      ensures after[k].latest == Newest(receipts + [r], k)
    {
      KeyStep(receipts, r, k);
      if k in Keys(receipts) {
        NewestAppend(receipts, r, k);
      }
    }
  }

  lemma {:induction false} CountNone(receipts: seq<Receipt>, key: Id)
    requires key !in Keys(receipts)
    ensures OfKey(receipts, key) == 0
  {
    if receipts != [] {
      assert receipts[0] in receipts;
      assert forall x :: x in receipts[1..] ==> x in receipts;
      CountNone(receipts[1..], key);
    }
  }

  // ---- sets of keys counted along the order of first appearance -------------------------------

  /** The per-anchor counters of the second loop. */
  datatype AnchorCounters = AnchorCounters(open: nat, closed: nat, reopened: nat, behind: nat,
                                           repeated: nat)

  predicate IsOpen(agg: Aggregate) {
    agg.latest.kind != Closed
  }

  predicate IsBehind(agg: Aggregate, latestTransition: Option<Id>) {
    && IsOpen(agg) && latestTransition.Some?
    && agg.latest.anchorID != "" && agg.latest.anchorID != latestTransition.value
  }

  predicate IsRepeated(agg: Aggregate) {
    agg.count > 1 && |agg.kinds| == 1
  }

  function OpenOf(anchors: map<Id, Aggregate>, keys: set<Id>): set<Id>
    requires keys <= anchors.Keys
  {
    set k | k in keys && IsOpen(anchors[k])
  }

  function NowOf(anchors: map<Id, Aggregate>, keys: set<Id>, kind: FollowUpKind): set<Id>
    requires keys <= anchors.Keys
  {
    set k | k in keys && anchors[k].latest.kind == kind
  }

  function BehindOf(anchors: map<Id, Aggregate>, keys: set<Id>, latestTransition: Option<Id>)
    : set<Id>
    requires keys <= anchors.Keys
  {
    set k | k in keys && IsBehind(anchors[k], latestTransition)
  }

  function RepeatedOf(anchors: map<Id, Aggregate>, keys: set<Id>): set<Id>
    requires keys <= anchors.Keys
  {
    set k | k in keys && IsRepeated(anchors[k])
  }

  ghost predicate Counted(c: AnchorCounters, anchors: map<Id, Aggregate>, keys: set<Id>,
                          latestTransition: Option<Id>)
    requires keys <= anchors.Keys
  {
    && c.open == |OpenOf(anchors, keys)|
    && c.closed == |NowOf(anchors, keys, Closed)|
    && c.reopened == |NowOf(anchors, keys, Reopened)|
    && c.behind == |BehindOf(anchors, keys, latestTransition)|
    && c.repeated == |RepeatedOf(anchors, keys)|
  }

  /** One more anchor, counted as the source's switch does. */
  function CountAnchor(c: AnchorCounters, agg: Aggregate, latestTransition: Option<Id>)
    : AnchorCounters
  {
    AnchorCounters(c.open + (if IsOpen(agg) then 1 else 0),
                   c.closed + (if agg.latest.kind == Closed then 1 else 0),
                   c.reopened + (if agg.latest.kind == Reopened then 1 else 0),
                   c.behind + (if IsBehind(agg, latestTransition) then 1 else 0),
                   c.repeated + (if IsRepeated(agg) then 1 else 0))
  }

  lemma OpenStep(anchors: map<Id, Aggregate>, keys: set<Id>, k: Id)
    requires keys <= anchors.Keys && k in anchors && k !in keys
    ensures |OpenOf(anchors, keys + {k})|
         == |OpenOf(anchors, keys)| + (if IsOpen(anchors[k]) then 1 else 0)
  {
    assert OpenOf(anchors, keys + {k})
        == OpenOf(anchors, keys) + (if IsOpen(anchors[k]) then {k} else {});
  }

  lemma NowStep(anchors: map<Id, Aggregate>, keys: set<Id>, k: Id, kind: FollowUpKind)
    requires keys <= anchors.Keys && k in anchors && k !in keys
    ensures |NowOf(anchors, keys + {k}, kind)|
         == |NowOf(anchors, keys, kind)| + (if anchors[k].latest.kind == kind then 1 else 0)
  {
    assert NowOf(anchors, keys + {k}, kind)
        == NowOf(anchors, keys, kind) + (if anchors[k].latest.kind == kind then {k} else {});
  }

  lemma BehindStep(anchors: map<Id, Aggregate>, keys: set<Id>, k: Id, latest: Option<Id>)
    requires keys <= anchors.Keys && k in anchors && k !in keys
    ensures |BehindOf(anchors, keys + {k}, latest)|
         == |BehindOf(anchors, keys, latest)| + (if IsBehind(anchors[k], latest) then 1 else 0)
  {
    assert BehindOf(anchors, keys + {k}, latest)
        == BehindOf(anchors, keys, latest) + (if IsBehind(anchors[k], latest) then {k} else {});
  }

  lemma RepeatedStep(anchors: map<Id, Aggregate>, keys: set<Id>, k: Id)
    requires keys <= anchors.Keys && k in anchors && k !in keys
    ensures |RepeatedOf(anchors, keys + {k})|
         == |RepeatedOf(anchors, keys)| + (if IsRepeated(anchors[k]) then 1 else 0)
  {
    assert RepeatedOf(anchors, keys + {k})
        == RepeatedOf(anchors, keys) + (if IsRepeated(anchors[k]) then {k} else {});
  }

  lemma CountedStep(c: AnchorCounters, anchors: map<Id, Aggregate>, keys: set<Id>, k: Id,
                    latestTransition: Option<Id>)
    requires keys <= anchors.Keys && k in anchors && k !in keys
    requires Counted(c, anchors, keys, latestTransition)
    ensures Counted(CountAnchor(c, anchors[k], latestTransition), anchors, keys + {k},
                    latestTransition)
  {
    OpenStep(anchors, keys, k);
    NowStep(anchors, keys, k, Closed);
    NowStep(anchors, keys, k, Reopened);
    BehindStep(anchors, keys, k, latestTransition);
    RepeatedStep(anchors, keys, k);
  }

  /** The counters after the anchors of a list. */
  function CountAll(anchors: map<Id, Aggregate>, order: seq<Id>, latestTransition: Option<Id>)
    : AnchorCounters
    requires forall k :: k in order ==> k in anchors
  {
    if order == [] then AnchorCounters(0, 0, 0, 0, 0)
    else
      CountAnchor(CountAll(anchors, order[..|order| - 1], latestTransition),
                  anchors[order[|order| - 1]], latestTransition)
  }

  lemma {:induction false} CountAllIsRight(anchors: map<Id, Aggregate>, order: seq<Id>,
                                           keys: set<Id>, latestTransition: Option<Id>)
    requires Lists(order, keys) && keys <= anchors.Keys
    ensures Counted(CountAll(anchors, order, latestTransition), anchors, keys, latestTransition)
  {
    if order == [] {
      assert keys == {};
    } else {
      var n := |order| - 1;
      assert forall k :: k in order[..n] <==> k in keys - {order[n]};
      CountAllIsRight(anchors, order[..n], keys - {order[n]}, latestTransition);
      CountedStep(CountAll(anchors, order[..n], latestTransition), anchors, keys - {order[n]},
                  order[n], latestTransition);
      assert keys - {order[n]} + {order[n]} == keys;
    }
  }

  /** The keys listed without repetition. */
  ghost predicate Lists(order: seq<Id>, keys: set<Id>) {
    && (forall k :: k in order <==> k in keys)
    && (forall i, j :: 0 <= i < j < |order| ==> order[i] != order[j])
  }

  lemma ListsSize(order: seq<Id>, keys: set<Id>)
    requires Lists(order, keys)
    ensures |order| == |keys|
  {
    ListedSize(order);
    assert keys == set k | k in order;
  }

  datatype KindCounters = KindCounters(pending: nat, progressed: nat, closed: nat, reopened: nat)

  function KindsOfWindow(receipts: seq<Receipt>): KindCounters {
    KindCounters(CountKind(receipts, RecordedPending), CountKind(receipts, Progressed),
                 CountKind(receipts, Closed), CountKind(receipts, Reopened))
  }

  function CountReceipt(c: KindCounters, kind: FollowUpKind): KindCounters {
    match kind
    case RecordedPending => c.(pending := c.pending + 1)
    case Progressed => c.(progressed := c.progressed + 1)
    case Closed => c.(closed := c.closed + 1)
    case Reopened => c.(reopened := c.reopened + 1)
  }

  lemma KindsStep(receipts: seq<Receipt>, r: Receipt)
    ensures KindsOfWindow(receipts + [r]) == CountReceipt(KindsOfWindow(receipts), r.kind)
  {
    CountAppend(receipts, (x: Receipt) => x.kind == RecordedPending, r);
    CountAppend(receipts, (x: Receipt) => x.kind == Progressed, r);
    CountAppend(receipts, (x: Receipt) => x.kind == Closed, r);
    CountAppend(receipts, (x: Receipt) => x.kind == Reopened, r);
  }

  /** The pass over a window: receipts gathered under their keys, keys in order of first
      appearance. */
  datatype Pass = Pass(anchors: map<Id, Aggregate>, order: seq<Id>, kinds: KindCounters)

  function Visit(p: Pass, r: Receipt): Pass {
    Pass(Absorb(p.anchors, r), if Key(r) in p.anchors then p.order else p.order + [Key(r)],
         CountReceipt(p.kinds, r.kind))
  }

  function PassOver(receipts: seq<Receipt>): Pass {
    if receipts == [] then Pass(map[], [], KindCounters(0, 0, 0, 0))
    else Visit(PassOver(receipts[..|receipts| - 1]), receipts[|receipts| - 1])
  }

  lemma {:induction false} PassIsRight(receipts: seq<Receipt>)
    ensures Aggregated(PassOver(receipts).anchors, receipts)
    ensures Lists(PassOver(receipts).order, Keys(receipts))
    ensures PassOver(receipts).kinds == KindsOfWindow(receipts)
  {
    if receipts != [] {
      var n := |receipts| - 1;
      assert receipts == receipts[..n] + [receipts[n]];
      PassIsRight(receipts[..n]);
      AggregateStep(PassOver(receipts[..n]).anchors, receipts[..n], receipts[n]);
      KindsStep(receipts[..n], receipts[n]);
      KeysAppend(receipts[..n], receipts[n]);
    }
  }

  lemma PassNext(receipts: seq<Receipt>, i: nat)
    requires i < |receipts|
    ensures PassOver(receipts[..i + 1]) == Visit(PassOver(receipts[..i]), receipts[i])
  {
    assert receipts[..i + 1][..i] == receipts[..i];
  }

  /** The first loop. */
  method AggregateWindow(receipts: seq<Receipt>)
    returns (anchors: map<Id, Aggregate>, order: seq<Id>, kinds: KindCounters)
    ensures Pass(anchors, order, kinds) == PassOver(receipts)
  {
    anchors, order := map[], [];
    kinds := KindCounters(0, 0, 0, 0);
    for i := 0 to |receipts|
      invariant Pass(anchors, order, kinds) == PassOver(receipts[..i])
    {
      var r := receipts[i];
      PassNext(receipts, i);
      match r.kind {
        case RecordedPending => kinds := kinds.(pending := kinds.pending + 1);
        case Progressed => kinds := kinds.(progressed := kinds.progressed + 1);
        case Closed => kinds := kinds.(closed := kinds.closed + 1);
        case Reopened => kinds := kinds.(reopened := kinds.reopened + 1);
      }
      if Key(r) !in anchors {
        anchors := anchors[Key(r) := Aggregate(0, {}, r)];
        order := order + [Key(r)];
      }
      var agg := anchors[Key(r)];
      anchors := anchors[Key(r) := agg.(count := agg.count + 1, kinds := agg.kinds + {r.kind})];
    }
    assert receipts[..|receipts|] == receipts;
  }

  /** The second loop, over the anchors in order of first appearance. */
  method CountAnchors(anchors: map<Id, Aggregate>, order: seq<Id>, latestTransition: Option<Id>)
    returns (c: AnchorCounters)
    requires forall k :: k in order ==> k in anchors
    ensures c == CountAll(anchors, order, latestTransition)
  {
    c := AnchorCounters(0, 0, 0, 0, 0);
    for i := 0 to |order|
      invariant c == CountAll(anchors, order[..i], latestTransition)
    {
      var agg := anchors[order[i]];
      assert order[..i + 1][..i] == order[..i];
      var open := false;
      match agg.latest.kind {
        case Closed => c := c.(closed := c.closed + 1);
        case Reopened =>
          c := c.(reopened := c.reopened + 1);
          open := true;
        case _ => open := true;
      }
      if open {
        c := c.(open := c.open + 1);
        if latestTransition.Some? && agg.latest.anchorID != ""
          && agg.latest.anchorID != latestTransition.value
        {
          c := c.(behind := c.behind + 1);
        }
      }
      if agg.count > 1 && |agg.kinds| == 1 {
        c := c.(repeated := c.repeated + 1);
      }
    }
    assert order[..|order|] == order;
  }

  lemma OneVisited(triaged: set<Id>, keys: set<Id>, todo: set<Id>, t: Id)
    requires t in todo && todo <= triaged
    ensures |triaged - keys - (todo - {t})|
         == |triaged - keys - todo| + (if t in keys then 0 else 1)
  {
    if t in keys {
      assert triaged - keys - (todo - {t}) == triaged - keys - todo;
    } else {
      assert triaged - keys - (todo - {t}) == (triaged - keys - todo) + {t};
    }
  }

  /** The third loop, over a map in whatever order Go visits it. */
  method CountUntouched(triaged: set<Id>, keys: set<Id>) returns (n: nat)
    ensures n == |triaged - keys|
  {
    n := 0;
    var todo := triaged;
    while todo != {}
      invariant todo <= triaged && n == |triaged - keys - todo|
      decreases |todo|
    {
      var t :| t in todo;
      OneVisited(triaged, keys, todo, t);
      if t !in keys {
        n := n + 1;
      }
      todo := todo - {t};
    }
    assert triaged - keys - todo == triaged - keys;
  }

  lemma SameOpen(anchors: map<Id, Aggregate>, receipts: seq<Receipt>)
    requires Aggregated(anchors, receipts)
    ensures OpenKeys(receipts) == OpenOf(anchors, anchors.Keys)
  {
  }

  lemma SameBehind(anchors: map<Id, Aggregate>, receipts: seq<Receipt>,
                   latestTransition: Option<Id>)
    requires Aggregated(anchors, receipts)
    ensures BehindKeys(receipts, latestTransition)
         == BehindOf(anchors, anchors.Keys, latestTransition)
  {
  }

  lemma SameRepeated(anchors: map<Id, Aggregate>, receipts: seq<Receipt>)
    requires Aggregated(anchors, receipts)
    ensures RepeatedKeys(receipts) == RepeatedOf(anchors, anchors.Keys)
  {
  }

  lemma SameNewest(anchors: map<Id, Aggregate>, receipts: seq<Receipt>, kind: FollowUpKind)
    requires Aggregated(anchors, receipts)
    ensures KeysNow(receipts, kind) == NowOf(anchors, anchors.Keys, kind)
  {
  }

  /** What the aggregates count is what the window's anchors are. */
  lemma CountersAreRollup(c: AnchorCounters, anchors: map<Id, Aggregate>, receipts: seq<Receipt>,
                          latestTransition: Option<Id>, triages: seq<Id>)
    requires Aggregated(anchors, receipts) && Counted(c, anchors, anchors.Keys, latestTransition)
    ensures var r := RollupOf(receipts, latestTransition, triages);
      && c.open == r.openAnchors && c.closed == r.closedAnchors
      && c.reopened == r.reopenedAnchors && c.behind == r.behindLatest && c.repeated == r.repeated
  {
    SameOpen(anchors, receipts);
    SameBehind(anchors, receipts, latestTransition);
    SameRepeated(anchors, receipts);
    SameNewest(anchors, receipts, Closed);
    SameNewest(anchors, receipts, Reopened);
  }

  /** deriveContinuityIncidentFollowUpHistoryRollup */
  method DeriveRollup(receipts: seq<Receipt>, latestTransition: Option<Id>, triages: seq<Id>)
    returns (rollup: Rollup)
    ensures rollup == RollupOf(receipts, latestTransition, triages)
  {
    if receipts == [] {
      assert Triaged(triages) - Keys(receipts) == Triaged(triages);
      return Rollup(0, 0, 0, 0, 0, 0, 0, 0, 0, 0, 0, |Triaged(triages)|, false);
    }
    var anchors, order, kinds := AggregateWindow(receipts);
    PassIsRight(receipts);
    ListsSize(order, Keys(receipts));
    var c := CountAnchors(anchors, order, latestTransition);
    CountAllIsRight(anchors, order, anchors.Keys, latestTransition);
    CountersAreRollup(c, anchors, receipts, latestTransition, triages);
    var untouched := CountUntouched(Triaged(triages), anchors.Keys);
    rollup := Rollup(|receipts|, kinds.pending, kinds.progressed, kinds.closed, kinds.reopened,
                     |order|, c.open, c.closed, c.reopened, c.behind, c.repeated, untouched,
                     c.open > 0 || c.behind > 0 || c.repeated > 0 || untouched > 0);
  }

  // ---- what the roll-up conserves -------------------------------------------------------------

  lemma {:induction false} KindsPartition(receipts: seq<Receipt>)
    ensures CountKind(receipts, RecordedPending) + CountKind(receipts, Progressed)
          + CountKind(receipts, Closed) + CountKind(receipts, Reopened) == |receipts|
  {
    if receipts != [] {
      KindsPartition(receipts[1..]);
    }
  }

  lemma SplitSize(keys: set<Id>, a: set<Id>, b: set<Id>)
    requires a + b == keys && a !! b
    ensures |a| + |b| == |keys|
  {
  }

  /** Receipts are counted once each by kind, anchors once each as open or closed; what is
      reopened or behind the latest transition is open; the untouched anchors are the triaged ones
      without a receipt. */
  lemma RollupConserves(receipts: seq<Receipt>, latestTransition: Option<Id>, triages: seq<Id>)
    ensures var r := RollupOf(receipts, latestTransition, triages);
      && r.pending + r.progressed + r.closed + r.reopened == r.windowSize == |receipts|
      && r.closedAnchors + r.openAnchors == r.distinctAnchors == |Keys(receipts)|
      && r.reopenedAnchors <= r.openAnchors && r.behindLatest <= r.openAnchors
      && r.triagedWithout == |Triaged(triages) - Keys(receipts)|
  {
    KindsPartition(receipts);
    SplitSize(Keys(receipts), KeysNow(receipts, Closed), OpenKeys(receipts));
    SubsetSize(KeysNow(receipts, Reopened), OpenKeys(receipts));
    SubsetSize(BehindKeys(receipts, latestTransition), OpenKeys(receipts));
  }

  /** An empty window is never notable, even when triaged anchors have no follow-up at all. */
  lemma EmptyWindowIsNotNotable(latestTransition: Option<Id>, triages: seq<Id>)
    ensures !RollupOf([], latestTransition, triages).notable
    ensures RollupOf([], latestTransition, triages).triagedWithout == |Triaged(triages)|
  {
    assert Triaged(triages) - Keys([]) == Triaged(triages);
  }
}
