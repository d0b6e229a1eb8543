/** What an evidence slice holds, said on times, positions and ids. */
module SliceAnswers {
  import opened Text
  import opened HandoffRecords
  import opened Ordering
  import opened ReceiptPaging
  import opened IncidentSlice

  function Gap(at: int, anchorAt: int): int {
    if at < anchorAt then anchorAt - at else at - anchorAt
  }

  /** The picked records come in order of position, and none that was left out is nearer in time;
      of equally near ones the later position was picked, of those the larger id. */
  lemma NearestMeans(out: seq<Evidence>, scanned: seq<Evidence>, anchorAt: nat, limit: int)
    requires IsNearest(out, scanned, anchorAt, limit)
    ensures forall i, j :: 0 <= i < j < |out| ==>
      || out[i].position < out[j].position
      || (out[i].position == out[j].position && LexLess(out[i].id, out[j].id))
    ensures forall x, y :: x in out && y in scanned && y !in out ==>
      || Gap(x.at, anchorAt) < Gap(y.at, anchorAt)
      || (Gap(x.at, anchorAt) == Gap(y.at, anchorAt)
          && (x.position > y.position || (x.position == y.position && LexLess(y.id, x.id))))
  {
    assert forall x, y :: x in out && y in scanned && y !in out ==> Nearer(anchorAt, x, y);
  }

  /** Two receipts on each side by default, at most twenty. */
  lemma NeighboursAsked(requested: int)
    ensures ClampPositive(requested, 2, 20)
         == if requested <= 0 then 2 else if requested > 20 then 20 else requested
  {
  }

  /** The slice around a receipt has exactly the receipts at most k places away from it in the
      history of all the task's receipts, oldest first; the flags say whether there are others
      before or after them, and the bounds are the times of its first and last receipt. */
  lemma SliceMeans<T(!new)>(rows: seq<Row<T>>, q: nat, k: nat)
    requires DistinctIds(rows) && q < |History(rows, Everything<T>())|
    ensures var h := History(rows, Everything<T>());
      var s := Neighbourhood(h, q, k);
      && (forall r :: r in h <==> r in rows)
      && (forall i, j :: 0 <= i < j < |h| ==> Precedes(h[i], h[j]))
      && (forall i :: 0 <= i < |h| ==> (h[i] in s.transitions <==> q - k <= i <= q + k))
      && (forall r :: r in s.transitions ==> r in h)
      && (s.hasOlder <==> q + k < |h| - 1)
      && (s.hasNewer <==> 0 < q - k)
    ensures var h := History(rows, Everything<T>());
      var s := Neighbourhood(h, q, k);
      && |s.transitions| > 0
      && s.windowStart == s.transitions[0].createdAt
      && s.windowEnd == s.transitions[|s.transitions| - 1].createdAt
      && (forall i, j :: 0 <= i < j < |s.transitions| ==>
            Precedes(s.transitions[j], s.transitions[i]))
  {
    var h := History(rows, Everything<T>());
    HistorySorted(rows, Everything<T>());
    forall i, j | 0 <= i < j < |h| ensures Precedes(h[i], h[j]) {
      assert Order<T>()(h[i], h[j]);
    }
    StretchMeans(h, From(q, k), To(|h|, q, k));
    NeighbourhoodIs(h, q, k);
  }

  /** Position i of the list stands at position to - 1 - i of the reversed stretch, and back. */
  lemma StretchAt<T(!new)>(h: seq<Row<T>>, from: nat, to: nat)
    requires from < to <= |h|
    ensures var s := Reverse(h[from..to]);
      && |s| == to - from
      && (forall i :: from <= i < to ==> s[to - 1 - i] == h[i])
      && (forall j :: 0 <= j < |s| ==> s[j] == h[to - 1 - j])
  {
  }

  lemma StretchHas<T(!new)>(h: seq<Row<T>>, from: nat, to: nat, i: nat)
    requires from < to <= |h| && i < |h|
    requires forall i, j :: 0 <= i < j < |h| ==> Precedes(h[i], h[j])
    ensures h[i] in Reverse(h[from..to]) <==> from <= i < to
  {
    var s := Reverse(h[from..to]);
    StretchAt(h, from, to);
    if from <= i < to {
      assert s[to - 1 - i] == h[i];
    }
    if h[i] in s {
      var j :| 0 <= j < |s| && s[j] == h[i];
      NotBeforeItself(h[i]);
      assert h[to - 1 - j] == h[i];
    }
  }

  lemma StretchMeans<T(!new)>(h: seq<Row<T>>, from: nat, to: nat)
    requires from < to <= |h|
    requires forall i, j :: 0 <= i < j < |h| ==> Precedes(h[i], h[j])
    ensures var s := Reverse(h[from..to]);
      && (forall i :: 0 <= i < |h| ==> (h[i] in s <==> from <= i < to))
      && (forall r :: r in s ==> r in h)
      && (forall i, j :: 0 <= i < j < |s| ==> Precedes(s[j], s[i]))
  {
    StretchAt(h, from, to);
    forall i | 0 <= i < |h| ensures h[i] in Reverse(h[from..to]) <==> from <= i < to {
      StretchHas(h, from, to, i);
    }
  }

  lemma NotBeforeItself<T(!new)>(r: Row<T>)
    ensures !Precedes(r, r)
  {
    LexTrichotomy(r.receiptID, r.receiptID);
  }
}
