/** The evidence slice around one transition receipt: continuity_incident_slice.go:123-232 and
    348-559. Nearby records are picked by distance in time, neighbouring receipts by position. */
module IncidentSlice {
  import opened Wrappers
  import opened Text
  import opened HandoffRecords
  import opened FiniteSets
  import opened Ordering
  import opened Tables
  import opened ReceiptPaging

  // ---- picking what is nearest ----------------------------------------------------------------

  /** A run, a recovery action or a proof event. Runs and actions are ranked and listed by their
      time, events by their sequence number. */
  datatype Evidence = Evidence(id: Id, at: nat, position: int)

  function Distance(e: Evidence, anchorAt: nat): nat {
    if e.at >= anchorAt then e.at - anchorAt else anchorAt - e.at
  }

  predicate Nearer(anchorAt: nat, x: Evidence, y: Evidence) {
    if Distance(x, anchorAt) != Distance(y, anchorAt) then
      Distance(x, anchorAt) < Distance(y, anchorAt)
    else if x.position != y.position then x.position > y.position
    else LexLess(y.id, x.id)
  }

  predicate Earlier(x: Evidence, y: Evidence) {
    if x.position != y.position then x.position < y.position else LexLess(x.id, y.id)
  }

  function ByDistance(anchorAt: nat): (Evidence, Evidence) -> bool {
    (x, y) => Nearer(anchorAt, x, y)
  }

  lemma ByDistanceIsStrict(anchorAt: nat)
    ensures StrictOrder(ByDistance(anchorAt))
  {
    forall x, y | Nearer(anchorAt, x, y) ensures !Nearer(anchorAt, y, x) {
      LexTrichotomy(x.id, y.id);
    }
    forall x, y, z | Nearer(anchorAt, x, y) && Nearer(anchorAt, y, z)
      ensures Nearer(anchorAt, x, z)
    {
      if Distance(x, anchorAt) == Distance(y, anchorAt) == Distance(z, anchorAt)
        && x.position == y.position == z.position
      {
        LexTransitive(z.id, y.id, x.id);
      }
    }
  }

  lemma EarlierIsStrict()
    ensures StrictOrder(Earlier)
  {
    forall x, y | Earlier(x, y) ensures !Earlier(y, x) {
      LexTrichotomy(x.id, y.id);
    }
    forall x, y, z | Earlier(x, y) && Earlier(y, z) ensures Earlier(x, z) {
      if x.position == y.position == z.position {
        LexTransitive(x.id, y.id, z.id);
      }
    }
  }

  ghost predicate DistinctEvidence(s: seq<Evidence>) {
    forall i, j :: 0 <= i < j < |s| ==> s[i].id != s[j].id
  }

  lemma Rankable(s: seq<Evidence>, anchorAt: nat)
    requires DistinctEvidence(s)
    ensures Ranked(s, ByDistance(anchorAt)) && Ranked(s, Earlier)
  {
    forall i, j | 0 <= i < j < |s|
      ensures ByDistance(anchorAt)(s[i], s[j]) || ByDistance(anchorAt)(s[j], s[i])
      ensures Earlier(s[i], s[j]) || Earlier(s[j], s[i])
    {
      LexTrichotomy(s[i].id, s[j].id);
    }
  }

  /** The picked records in listing order: as many as fit, each nearer than every one left out. */
  ghost predicate IsNearest(out: seq<Evidence>, scanned: seq<Evidence>, anchorAt: nat, limit: int) {
    && |out| == (if limit <= 0 then 0 else if |scanned| > limit then limit else |scanned|)
    && Sorted(out, Earlier)
    && (forall x :: x in out ==> x in scanned)
    && (forall x, y :: x in out && y in scanned && y !in out ==> Nearer(anchorAt, x, y))
  }

  /** incidentRunsNearAnchor and its two siblings: rank by distance, cut, list in order. */
  method NearestToAnchor(scanned: seq<Evidence>, anchorAt: nat, limit: int)
    returns (out: seq<Evidence>)
    requires DistinctEvidence(scanned)
    ensures IsNearest(out, scanned, anchorAt, limit)
  {
    if limit <= 0 || |scanned| == 0 {
      return [];
    }
    var candidates := Sort(scanned, ByDistance(anchorAt));
    ghost var ranked := candidates;
    RankedCandidates(scanned, anchorAt);
    if |candidates| > limit {
      candidates := candidates[..limit];
    }
    out := Sort(candidates, Earlier);
    ListedInOrder(candidates);
    CutIsNearest(ranked, anchorAt, |candidates|);
  }

  lemma SortHasEvidence(s: seq<Evidence>, less: (Evidence, Evidence) -> bool)
    ensures |Sort(s, less)| == |s| && forall x :: x in Sort(s, less) <==> x in s
  {
    SortPermutes(s, less);
  }

  lemma RankedCandidates(scanned: seq<Evidence>, anchorAt: nat)
    requires DistinctEvidence(scanned)
    ensures var ranked := Sort(scanned, ByDistance(anchorAt));
      && Sorted(ranked, ByDistance(anchorAt)) && |ranked| == |scanned|
      && (forall x :: x in ranked <==> x in scanned)
      && DistinctEvidence(ranked)
  {
    ByDistanceIsStrict(anchorAt);
    Rankable(scanned, anchorAt);
    SortSorted(scanned, ByDistance(anchorAt));
    SortHasEvidence(scanned, ByDistance(anchorAt));
    var ranked := Sort(scanned, ByDistance(anchorAt));
    forall i, j | 0 <= i < j < |ranked| ensures ranked[i].id != ranked[j].id {
      assert ByDistance(anchorAt)(ranked[i], ranked[j]);
      assert ranked[i] in scanned && ranked[j] in scanned;
      var m :| 0 <= m < |scanned| && scanned[m] == ranked[i];
      var n :| 0 <= n < |scanned| && scanned[n] == ranked[j];
    }
  }

  lemma ListedInOrder(candidates: seq<Evidence>)
    requires DistinctEvidence(candidates)
    ensures Sorted(Sort(candidates, Earlier), Earlier)
    ensures |Sort(candidates, Earlier)| == |candidates|
    ensures forall x :: x in Sort(candidates, Earlier) <==> x in candidates
  {
    EarlierIsStrict();
    Rankable(candidates, 0);
    SortSorted(candidates, Earlier);
    SortHasEvidence(candidates, Earlier);
  }

  lemma CutIsNearest(ranked: seq<Evidence>, anchorAt: nat, n: nat)
    requires Sorted(ranked, ByDistance(anchorAt)) && n <= |ranked|
    ensures forall x, y :: x in ranked[..n] && y in ranked && y !in ranked[..n] ==>
      Nearer(anchorAt, x, y)
  {
    forall x, y | x in ranked[..n] && y in ranked && y !in ranked[..n]
      ensures Nearer(anchorAt, x, y)
    {
      var i :| 0 <= i < n && ranked[i] == x;
      var j :| 0 <= j < |ranked| && ranked[j] == y;
      assert forall m :: 0 <= m < n ==> ranked[m] in ranked[..n];
      assert ByDistance(anchorAt)(ranked[i], ranked[j]);
    }
  }

  /** There is one such pick, so the order the records are scanned in does not matter. */
  lemma NearestIsUnique(s: seq<Evidence>, t: seq<Evidence>, scanned: seq<Evidence>,
                        scanned2: seq<Evidence>, anchorAt: nat, limit: int)
    requires IsNearest(s, scanned, anchorAt, limit) && IsNearest(t, scanned2, anchorAt, limit)
    requires |scanned| == |scanned2| && forall x :: x in scanned <==> x in scanned2
    ensures s == t
  {
    EarlierIsStrict();
    forall x ensures x in s <==> x in t {
      if x in s && x !in t {
        var y := SomeMissing(t, s, x);
        NearerOneWay(anchorAt, x, y);
      }
      if x in t && x !in s {
        var y := SomeMissing(s, t, x);
        NearerOneWay(anchorAt, x, y);
      }
    }
    SortedUnique(s, t, Earlier);
  }

  lemma NearerOneWay(anchorAt: nat, x: Evidence, y: Evidence)
    ensures !(Nearer(anchorAt, x, y) && Nearer(anchorAt, y, x))
  {
    LexTrichotomy(x.id, y.id);
  }

  /** Of two equally long listings without repetition, what one has extra the other has too. */
  lemma SomeMissing(t: seq<Evidence>, s: seq<Evidence>, x: Evidence) returns (y: Evidence)
    requires Sorted(s, Earlier) && Sorted(t, Earlier) && |s| == |t|
    requires x in s && x !in t
    ensures y in t && y !in s
  {
    EarlierIsStrict();
    if forall z :: z in t ==> z in s {
      DistinctInto(t, s, x);
      assert false;
    }
    y :| y in t && y !in s;
  }

  lemma DistinctInto(t: seq<Evidence>, s: seq<Evidence>, x: Evidence)
    requires StrictOrder(Earlier) && Sorted(s, Earlier) && Sorted(t, Earlier)
    requires x in s && x !in t && forall z :: z in t ==> z in s
    ensures |t| < |s|
  {
    assert forall i, j :: 0 <= i < j < |s| ==> Earlier(s[i], s[j]);
    assert forall i, j :: 0 <= i < j < |t| ==> Earlier(t[i], t[j]);
    ListedSize(s);
    ListedSize(t);
    var a := set z | z in t;
    var b := set z | z in s;
    assert a <= b - {x};
    SubsetSize(a, b - {x});
  }

  // ---- how far back the scan goes -------------------------------------------------------------

  /** clampPositive */
  function ClampPositive(value: int, fallback: nat, max: nat): int {
    var v := if value <= 0 then fallback else value;
    if v > max then max else v
  }

  /** The scan limit: a multiple of the limit, within bounds. */
  function ScanLimit(limit: nat, factor: nat, low: nat, high: nat): nat {
    var n := limit * factor;
    var m := if n < low then low else n;
    if m > high then high else m
  }

  /** The scans (12 times the limit within 24 and 300 for runs and actions, 20 times within 40 and
      500 for events) always cover the requested limit, whatever was requested. */
  lemma ScansCoverLimits(requested: int)
    ensures var runs := ClampPositive(requested, 3, 20);
      0 < runs <= ScanLimit(runs, 12, 24, 300)
    ensures var proofs := ClampPositive(requested, 8, 50);
      0 < proofs <= ScanLimit(proofs, 20, 40, 500)
  {
  }

  // ---- the neighbouring receipts --------------------------------------------------------------

  function Reverse<T>(s: seq<T>): (r: seq<T>)
    ensures |r| == |s| && forall i :: 0 <= i < |s| ==> r[i] == s[|s| - 1 - i]
  {
    if s == [] then [] else Reverse(s[1..]) + [s[0]]
  }

  function Everything<T>(): T -> bool {
    (b: T) => true
  }

  function Follows<T>(cursor: Row<T>): Row<T> -> bool {
    (r: Row<T>) => Before(r, cursor)
  }

  function Oldest<T>(): (Row<T>, Row<T>) -> bool {
    (x, y) => Before(y, x)
  }

  /** ListByTaskAfter: what follows the cursor, oldest first. */
  function QueryAfter<T(!new)>(rows: seq<Row<T>>, cursor: Row<T>, limit: nat): seq<Row<T>> {
    var following := Sort(Where(rows, Follows(cursor)), Oldest<T>());
    if |following| <= limit then following else following[..limit]
  }

  lemma OldestIsStrict<T(!new)>()
    ensures StrictOrder<Row<T>>(Oldest<T>())
  {
    BeforeIsStrict<T>();
    forall x: Row<T>, y: Row<T> | Oldest<T>()(x, y) ensures !Oldest<T>()(y, x) {
      LexTrichotomy(x.receiptID, y.receiptID);
    }
    forall x: Row<T>, y: Row<T>, z: Row<T> | Oldest<T>()(x, y) && Oldest<T>()(y, z)
      ensures Oldest<T>()(x, z)
    {
      assert Order<T>()(z, y) && Order<T>()(y, x);
    }
  }

  lemma ReverseSorted<T(!new)>(s: seq<Row<T>>)
    requires Sorted(s, Order<T>())
    ensures Sorted(Reverse(s), Oldest<T>())
    ensures forall x :: x in Reverse(s) <==> x in s
  {
    var r := Reverse(s);
    forall i, j | 0 <= i < j < |r| ensures Oldest<T>()(r[i], r[j]) {
      assert Order<T>()(s[|s| - 1 - j], s[|s| - 1 - i]);
    }
    forall x ensures x in r <==> x in s {
      if x in s {
        var i :| 0 <= i < |s| && s[i] == x;
        assert r[|s| - 1 - i] == x;
      }
    }
  }

  /** Before the q-th place of a sorted list stands exactly what precedes it. */
  lemma PrefixIsBefore<T(!new)>(h: seq<Row<T>>, q: nat, x: Row<T>)
    requires Sorted(h, Order<T>()) && q < |h|
    ensures x in h[..q] <==> x in h && Before(x, h[q])
  {
    BeforeIsStrict<T>();
    if x in h[..q] {
      var i :| 0 <= i < q && h[..q][i] == x;
      assert Order<T>()(h[i], h[q]);
    }
    assert forall j :: q < j < |h| ==> Order<T>()(h[q], h[j]);
    assert forall j :: q < j < |h| ==> Before(h[q], h[j]);
    if x in h && Before(x, h[q]) {
      var i :| 0 <= i < |h| && h[i] == x;
      LexTrichotomy(x.receiptID, h[q].receiptID);
      assert i < q;
      assert h[..q][i] == x;
    }
  }

  /** In a history, newest first, what follows the q-th receipt in time is listed before it. */
  lemma AfterIsPrefix<T(!new)>(rows: seq<Row<T>>, h: seq<Row<T>>, q: nat)
    requires DistinctIds(rows) && h == History(rows, Everything<T>()) && q < |h|
    ensures Sort(Where(rows, Follows(h[q])), Oldest<T>()) == Reverse(h[..q])
  {
    HistorySorted(rows, Everything<T>());
    var p := Follows(h[q]);
    OldestIsStrict<T>();
    WhereDistinct(rows, p);
    RankedOldest(Where(rows, p));
    SortSorted(Where(rows, p), Oldest<T>());
    WhereMembers(rows, p);
    ReverseSorted(h[..q]);
    forall x ensures x in Sort(Where(rows, p), Oldest<T>()) <==> x in Reverse(h[..q]) {
      SortHas(Where(rows, p), Oldest<T>(), x);
      PrefixIsBefore(h, q, x);
    }
    SortedUnique(Sort(Where(rows, p), Oldest<T>()), Reverse(h[..q]), Oldest<T>());
  }

  lemma RankedOldest<T(!new)>(rows: seq<Row<T>>)
    requires DistinctIds(rows)
    ensures Ranked(rows, Oldest<T>())
  {
    forall i, j | 0 <= i < j < |rows|
      ensures Oldest<T>()(rows[i], rows[j]) || Oldest<T>()(rows[j], rows[i])
    {
      LexTrichotomy(rows[i].receiptID, rows[j].receiptID);
    }
  }

  datatype Slice<T> = Slice(transitions: seq<Row<T>>, hasOlder: bool, hasNewer: bool,
                            windowStart: nat, windowEnd: nat)

  /** The stretch of up to k places on each side of place q, in a list of n. */
  function From(q: nat, k: nat): (from: nat)
    ensures from <= q
  {
    if q > k then q - k else 0
  }

  function To(n: nat, q: nat, k: nat): (to: nat)
    requires q < n
    ensures q < to <= n
  {
    if q + k + 1 < n then q + k + 1 else n
  }

  /** The slice around the q-th receipt of a history, newest first: up to k receipts on each side,
      oldest first, and whether there are more on each side. */
  function Neighbourhood<T>(h: seq<Row<T>>, q: nat, k: nat): (s: Slice<T>)
    requires q < |h|
  {
    Slice(Reverse(h[From(q, k)..To(|h|, q, k)]), q + k + 1 < |h|, q > k,
          h[To(|h|, q, k) - 1].createdAt, h[From(q, k)].createdAt)
  }

  lemma StretchSorted<T(!new)>(h: seq<Row<T>>, from: nat, to: nat)
    requires Sorted(h, Order<T>()) && from <= to <= |h|
    ensures Sorted(Reverse(h[from..to]), Oldest<T>())
  {
    var window := h[from..to];
    forall i, j | 0 <= i < j < |window| ensures Order<T>()(window[i], window[j]) {
      assert Order<T>()(h[from + i], h[from + j]);
    }
    ReverseSorted(window);
  }

  lemma InOrderOfTime<T(!new)>(h: seq<Row<T>>, i: nat, j: nat)
    requires Sorted(h, Order<T>()) && i <= j < |h|
    ensures h[j].createdAt <= h[i].createdAt
  {
    assert i < j ==> Order<T>()(h[i], h[j]);
  }

  /** The window is a contiguous stretch around the anchor, in order of time, and its bounds
      enclose the anchor. */
  lemma WindowEnclosesAnchor<T(!new)>(h: seq<Row<T>>, q: nat, k: nat)
    requires Sorted(h, Order<T>()) && q < |h|
    ensures var s := Neighbourhood(h, q, k);
      && s.windowStart <= h[q].createdAt <= s.windowEnd
      && h[q] in s.transitions
      && Sorted(s.transitions, Oldest<T>())
  {
    var newest := From(q, k);
    var oldest := To(|h|, q, k);
    StretchSorted(h, newest, oldest);
    InOrderOfTime(h, newest, q);
    InOrderOfTime(h, q, oldest - 1);
    assert Reverse(h[newest..oldest])[oldest - 1 - q] == h[q];
  }

  /** The anchor: the receipt asked for, or the newest one. */
  method ResolveAnchor<T(==, !new)>(rows: seq<Row<T>>, requested: Id)
    returns (anchor: Option<Row<T>>)
    requires DistinctIds(rows)
    ensures anchor.Some? ==>
      var h := History(rows, Everything<T>());
      exists q :: 0 <= q < |h| && h[q] == anchor.value
        && (if requested == "" then q == 0 else h[q].receiptID == requested)
    ensures anchor.None? ==>
      var h := History(rows, Everything<T>());
      if requested == "" then h == [] else forall q :: 0 <= q < |h| ==> h[q].receiptID != requested
  {
    var h := History(rows, Everything<T>());
    HistorySorted(rows, Everything<T>());
    if requested != "" {
      anchor := Find(rows, requested);
      if anchor.Some? {
        assert anchor.value in h;
      }
    } else {
      anchor := if |h| == 0 then None else Some(h[0]);
    }
  }

  /** The slice around a known anchor. */
  method SliceAround<T(==, !new)>(rows: seq<Row<T>>, anchor: Row<T>, k: nat, ghost q: nat)
    returns (slice: Slice<T>)
    requires DistinctIds(rows) && anchor.createdAt != 0
    requires q < |History(rows, Everything<T>())| && History(rows, Everything<T>())[q] == anchor
    ensures slice == Neighbourhood(History(rows, Everything<T>()), q, k)
  {
    ghost var h := History(rows, Everything<T>());
    var older := Query(rows, Everything<T>(), Some(anchor), k + 1);
    var newer := QueryAfter(rows, anchor, k + 1);
    Sides(rows, h, q, k);
    var hasOlder := |older| > k;
    if hasOlder {
      older := older[..k];
    }
    var hasNewer := |newer| > k;
    if hasNewer {
      newer := newer[..k];
    }
    Assembled(h, q, k, older, newer);
    var transitions := Chronological(older, anchor, newer);
    NeighbourhoodIs(h, q, k);
    slice := Slice(transitions, hasOlder, hasNewer, transitions[0].createdAt,
                   transitions[|transitions| - 1].createdAt);
  }

  lemma NeighbourhoodIs<T(!new)>(h: seq<Row<T>>, q: nat, k: nat)
    requires q < |h|
    ensures var s := Neighbourhood(h, q, k);
      && |s.transitions| > 0
      && s == Slice(s.transitions, |h| - q - 1 > k, q > k, s.transitions[0].createdAt,
                    s.transitions[|s.transitions| - 1].createdAt)
  {
  }

  /** ReadContinuityIncidentSlice, the receipts around an anchor. An empty id means the newest
      receipt; an unknown anchor is an error, and so is one with the zero time. */
  method ReadSlice<T(==, !new)>(rows: seq<Row<T>>, anchorID: Id, neighborLimit: int)
    returns (slice: Result<Slice<T>>)
    requires DistinctIds(rows)
    ensures slice.Ok? ==>
      var h := History(rows, Everything<T>());
      exists q :: 0 <= q < |h| && h[q].createdAt != 0
        && (if TrimSpace(anchorID) == "" then q == 0 else h[q].receiptID == TrimSpace(anchorID))
        && slice.value == Neighbourhood(h, q, ClampPositive(neighborLimit, 2, 20))
    ensures slice.Err? ==>
      var h := History(rows, Everything<T>());
      || (TrimSpace(anchorID) == "" && h == [])
      || (TrimSpace(anchorID) != "" && forall q :: 0 <= q < |h| ==> h[q].receiptID != TrimSpace(anchorID))
      || (exists q :: 0 <= q < |h| && (h[q].createdAt == 0 || h[q].receiptID == "")
            && (if TrimSpace(anchorID) == "" then q == 0 else h[q].receiptID == TrimSpace(anchorID)))
  {
    var requested := TrimSpace(anchorID);
    var found := ResolveAnchor(rows, requested);
    if found.None? {
      return Err;
    }
    var anchor := found.value;
    ghost var h := History(rows, Everything<T>());
    ghost var q: nat :| q < |h| && h[q] == anchor
      && (if requested == "" then q == 0 else h[q].receiptID == requested);
    if anchor.receiptID == "" || anchor.createdAt == 0 {
      return Err;
    }
    var around := SliceAround(rows, anchor, ClampPositive(neighborLimit, 2, 20), q);
    slice := Ok(around);
  }

  /** The older receipts from last to first, the anchor, then the newer ones. */
  method Chronological<T>(older: seq<Row<T>>, anchor: Row<T>, newer: seq<Row<T>>)
    returns (transitions: seq<Row<T>>)
    ensures transitions == Reverse(older) + [anchor] + newer
  {
    transitions := [];
    var i := |older|;
    while i > 0
      invariant 0 <= i <= |older| && transitions == Reverse(older)[..|older| - i]
    {
      i := i - 1;
      transitions := transitions + [older[i]];
    }
    assert transitions == Reverse(older);
    transitions := transitions + [anchor];
    ghost var head := transitions;
    for j := 0 to |newer|
      invariant transitions == head + newer[..j]
    {
      transitions := transitions + [newer[j]];
    }
    assert newer[..|newer|] == newer;
  }

  lemma TakeOfSuffix<T>(h: seq<T>, from: nat, n: nat)
    requires from + n <= |h|
    ensures h[from..][..n] == h[from..from + n]
  {
  }

  /** What the two queries return around the q-th receipt. */
  lemma OlderSide<T(!new)>(rows: seq<Row<T>>, h: seq<Row<T>>, q: nat, k: nat)
    requires DistinctIds(rows) && h == History(rows, Everything<T>()) && q < |h|
    requires h[q].createdAt != 0
    ensures Query(rows, Everything<T>(), Some(h[q]), k + 1)
         == if |h| - q - 1 <= k + 1 then h[q + 1..] else h[q + 1..q + 1 + k + 1]
  {
    var rest := Remaining(rows, Everything<T>(), Some(h[q]));
    assert rest == h[q + 1..] by {
      HistorySorted(rows, Everything<T>());
      PastIsSuffix(h, q);
    }
    QueryIsPrefix(rows, Everything<T>(), Some(h[q]), k + 1);
    if |rest| > k + 1 {
      TakeOfSuffix(h, q + 1, k + 1);
    }
  }

  lemma Sides<T(!new)>(rows: seq<Row<T>>, h: seq<Row<T>>, q: nat, k: nat)
    requires DistinctIds(rows) && h == History(rows, Everything<T>()) && q < |h|
    requires h[q].createdAt != 0
    ensures Query(rows, Everything<T>(), Some(h[q]), k + 1)
         == if |h| - q - 1 <= k + 1 then h[q + 1..] else h[q + 1..q + 1 + k + 1]
    ensures QueryAfter(rows, h[q], k + 1)
         == if q <= k + 1 then Reverse(h[..q]) else Reverse(h[..q])[..k + 1]
  {
    OlderSide(rows, h, q, k);
    AfterIsPrefix(rows, h, q);
  }

  lemma {:induction false} ReverseConcat<T>(s: seq<T>, t: seq<T>)
    ensures Reverse(s + t) == Reverse(t) + Reverse(s)
  {
  }

  lemma {:induction false} ReverseTake<T>(s: seq<T>, k: nat)
    requires k <= |s|
    ensures Reverse(s)[..k] == Reverse(s[|s| - k..])
  {
    var tail := s[|s| - k..];
    forall i | 0 <= i < k ensures Reverse(s)[i] == Reverse(tail)[i] {
      assert tail[k - 1 - i] == s[|s| - 1 - i];
    }
  }

  lemma ReverseAround<T>(ahead: seq<T>, x: T, behind: seq<T>)
    ensures Reverse(ahead + [x] + behind) == Reverse(behind) + [x] + Reverse(ahead)
  {
    ReverseConcat(ahead + [x], behind);
    ReverseConcat(ahead, [x]);
    assert Reverse([x]) == [x];
  }

  lemma NewerSide<T>(h: seq<T>, q: nat, k: nat)
    requires q < |h|
    ensures (if q <= k then Reverse(h[..q]) else Reverse(h[..q])[..k])
         == Reverse(h[From(q, k)..q])
  {
    if q > k {
      ReverseTake(h[..q], k);
      assert h[..q][q - k..] == h[q - k..q];
    } else {
      assert h[0..q] == h[..q];
    }
  }

  lemma Stretch<T>(h: seq<T>, from: nat, q: nat, to: nat)
    requires from <= q < to <= |h|
    ensures h[from..to] == h[from..q] + [h[q]] + h[q + 1..to]
  {
  }

  lemma AroundStretch<T>(h: seq<T>, from: nat, q: nat, to: nat)
    requires from <= q < to <= |h|
    ensures Reverse(h[q + 1..to]) + [h[q]] + Reverse(h[from..q]) == Reverse(h[from..to])
  {
    Stretch(h, from, q, to);
    ReverseAround(h[from..q], h[q], h[q + 1..to]);
  }

  lemma OlderStretch<T>(h: seq<T>, q: nat, k: nat)
    requires q < |h|
    ensures (if |h| - q - 1 <= k then h[q + 1..] else h[q + 1..q + 1 + k])
         == h[q + 1..To(|h|, q, k)]
  {
  }

  /** Put together, the two sides and the anchor are the neighbourhood. */
  lemma Assembled<T(!new)>(h: seq<Row<T>>, q: nat, k: nat, older: seq<Row<T>>, newer: seq<Row<T>>)
    requires q < |h|
    requires older == if |h| - q - 1 <= k then h[q + 1..] else h[q + 1..q + 1 + k]
    requires newer == if q <= k then Reverse(h[..q]) else Reverse(h[..q])[..k]
    ensures Reverse(older) + [h[q]] + newer == Neighbourhood(h, q, k).transitions
  {
    NewerSide(h, q, k);
    OlderStretch(h, q, k);
    AroundStretch(h, From(q, k), q, To(|h|, q, k));
  }
}
