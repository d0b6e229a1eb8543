/** Cursor paging over receipts, as the follow-up, triage and transition readers do it
    (continuity_incident_followup.go:320-421, continuity_incident_triage_history.go:59-144,
    continuity_transition_receipts.go:384-457). Receipts are ordered by creation time, then id. */
module ReceiptPaging {
  import opened Wrappers
  import opened Text
  import opened HandoffRecords
  import opened Ordering
  import opened Tables
  import opened Incidents

  datatype Row<T> = Row(receiptID: Id, createdAt: nat, body: T)

  /** Newest first; at equal times the larger id first. */
  predicate Before<T>(x: Row<T>, y: Row<T>) {
    if x.createdAt == y.createdAt then LexLess(y.receiptID, x.receiptID)
    else x.createdAt > y.createdAt
  }

  ghost predicate DistinctIds<T(!new)>(rows: seq<Row<T>>) {
    forall i, j :: 0 <= i < j < |rows| ==> rows[i].receiptID != rows[j].receiptID
  }

  lemma BeforeIsStrict<T(!new)>()
    ensures StrictOrder<Row<T>>((x, y) => Before(x, y))
  {
    forall x: Row<T>, y: Row<T> | Before(x, y) ensures !Before(y, x) {
      LexTrichotomy(x.receiptID, y.receiptID);
    }
    forall x: Row<T>, y: Row<T>, z: Row<T> | Before(x, y) && Before(y, z) ensures Before(x, z) {
      if x.createdAt == y.createdAt == z.createdAt {
        LexTransitive(z.receiptID, y.receiptID, x.receiptID);
      }
    }
  }

  function Order<T>(): (Row<T>, Row<T>) -> bool {
    (x, y) => Before(x, y)
  }

  lemma {:induction false} WhereSorted<T(!new)>(s: seq<T>, p: T -> bool, less: (T, T) -> bool)
    requires Sorted(s, less)
    ensures Sorted(Where(s, p), less)
  {
    if s != [] {
      var n := |s| - 1;
      WhereSorted(s[..n], p, less);
      WhereMembers(s[..n], p);
      var init := Where(s[..n], p);
      forall j | 0 <= j < |init| ensures less(init[j], s[n]) {
        assert init[j] in s[..n];
      }
    }
  }

  lemma {:induction false} WhereDistinct<T(!new)>(rows: seq<Row<T>>, p: Row<T> -> bool)
    requires DistinctIds(rows)
    ensures DistinctIds(Where(rows, p))
  {
    if rows != [] {
      var n := |rows| - 1;
      WhereDistinct(rows[..n], p);
      WhereMembers(rows[..n], p);
      var init := Where(rows[..n], p);
      forall j | 0 <= j < |init| ensures init[j].receiptID != rows[n].receiptID {
        assert init[j] in rows[..n];
      }
    }
  }

  lemma RankedRows<T(!new)>(rows: seq<Row<T>>)
    requires DistinctIds(rows)
    ensures Ranked(rows, Order<T>())
  {
    forall i, j | 0 <= i < j < |rows|
      ensures Before(rows[i], rows[j]) || Before(rows[j], rows[i])
    {
      LexTrichotomy(rows[i].receiptID, rows[j].receiptID);
    }
  }

  function Matching<T>(filter: T -> bool): Row<T> -> bool {
    (r: Row<T>) => filter(r.body)
  }

  function PastCursor<T(==)>(cursor: Option<Row<T>>): Row<T> -> bool {
    (r: Row<T>) => Past(cursor, r)
  }

  function MatchingPast<T(==)>(filter: T -> bool, cursor: Option<Row<T>>): Row<T> -> bool {
    (r: Row<T>) => filter(r.body) && Past(cursor, r)
  }

  // ---- the history and what a cursor leaves of it ---------------------------------------------

  /** All matching receipts, newest first. */
  function History<T(!new)>(rows: seq<Row<T>>, filter: T -> bool): seq<Row<T>> {
    Sort(Where(rows, Matching(filter)), Order<T>())
  }

  /** The cursor condition of the query. A cursor with the zero time is dropped from it. */
  predicate Past<T(==)>(cursor: Option<Row<T>>, r: Row<T>) {
    cursor.Some? && cursor.value.createdAt != 0 ==> Before(cursor.value, r)
  }

  /** What a reader with this cursor still has to see. */
  function Remaining<T(==, !new)>(rows: seq<Row<T>>, filter: T -> bool, cursor: Option<Row<T>>)
    : seq<Row<T>>
  {
    Where(History(rows, filter), PastCursor(cursor))
  }

  /** The query: filter and cursor condition, then newest first, then the limit. */
  function Query<T(==, !new)>(rows: seq<Row<T>>, filter: T -> bool, cursor: Option<Row<T>>, limit: nat)
    : seq<Row<T>>
  {
    var matching := Sort(Where(rows, MatchingPast(filter, cursor)), Order<T>());
    if |matching| <= limit then matching else matching[..limit]
  }

  lemma SortHas<U>(s: seq<U>, less: (U, U) -> bool, x: U)
    ensures x in Sort(s, less) <==> x in s
  {
    SortPermutes(s, less);
  }

  /** A sorted selection of rows is the sorted listing of all rows that pass. */
  lemma SelectionSorted<T(!new)>(rows: seq<Row<T>>, p: Row<T> -> bool)
    requires DistinctIds(rows)
    ensures Sorted(Sort(Where(rows, p), Order<T>()), Order<T>())
    ensures forall r :: r in Sort(Where(rows, p), Order<T>()) <==> r in rows && p(r)
  {
    BeforeIsStrict<T>();
    WhereDistinct(rows, p);
    RankedRows(Where(rows, p));
    SortSorted(Where(rows, p), Order<T>());
    WhereMembers(rows, p);
    var kept := Where(rows, p);
    forall r ensures r in Sort(kept, Order<T>()) <==> r in rows && p(r) {
      SortHas(kept, Order<T>(), r);
    }
  }

  lemma HistorySorted<T(!new)>(rows: seq<Row<T>>, filter: T -> bool)
    requires DistinctIds(rows)
    ensures Sorted(History(rows, filter), Order<T>())
    ensures forall r :: r in History(rows, filter) <==> r in rows && filter(r.body)
  {
    SelectionSorted(rows, Matching(filter));
  }

  lemma RemainingSorted<T(!new)>(rows: seq<Row<T>>, filter: T -> bool, cursor: Option<Row<T>>)
    requires DistinctIds(rows)
    ensures Sorted(Remaining(rows, filter, cursor), Order<T>())
    ensures forall r :: r in Remaining(rows, filter, cursor) <==>
      r in rows && filter(r.body) && Past(cursor, r)
  {
    HistorySorted(rows, filter);
    WhereSorted(History(rows, filter), PastCursor(cursor), Order<T>());
    WhereMembers(History(rows, filter), PastCursor(cursor));
  }

  /** The query returns the beginning of what remains. */
  lemma QueryIsPrefix<T(!new)>(rows: seq<Row<T>>, filter: T -> bool, cursor: Option<Row<T>>,
                               limit: nat)
    requires DistinctIds(rows)
    ensures var rest := Remaining(rows, filter, cursor);
      Query(rows, filter, cursor, limit) == if |rest| <= limit then rest else rest[..limit]
  {
    BeforeIsStrict<T>();
    SelectionSorted(rows, MatchingPast(filter, cursor));
    RemainingSorted(rows, filter, cursor);
    SortedUnique(Sort(Where(rows, MatchingPast(filter, cursor)), Order<T>()),
                 Remaining(rows, filter, cursor), Order<T>());
  }

  /** In a sorted history, what lies past its k-th receipt is what follows it. */
  lemma PastIsSuffix<T(!new)>(h: seq<Row<T>>, k: nat)
    requires Sorted(h, Order<T>()) && k < |h| && h[k].createdAt != 0
    ensures Where(h, PastCursor(Some(h[k]))) == h[k + 1..]
  {
    BeforeIsStrict<T>();
    var p := PastCursor(Some(h[k]));
    WhereMembers(h, p);
    WhereSorted(h, p, Order<T>());
    forall j | 0 <= j < |h| ensures p(h[j]) <==> k < j {
      if j < k {
        assert Order<T>()(h[j], h[k]);
      } else if k < j {
        assert Order<T>()(h[k], h[j]);
      }
    }
    forall r ensures r in Where(h, p) <==> r in h[k + 1..] {
      if r in h[k + 1..] {
        var j :| 0 <= j < |h[k + 1..]| && h[k + 1..][j] == r;
        assert h[k + 1 + j] == r;
      }
      if r in Where(h, p) {
        var j :| 0 <= j < |h| && h[j] == r;
        assert h[k + 1..][j - k - 1] == r;
      }
    }
    SortedUnique(Where(h, p), h[k + 1..], Order<T>());
  }

  /** A cursor continues the history exactly when its receipt does not carry the zero time: with
      the zero time the reader starts over. */
  lemma CursorContinuesIff<T(!new)>(rows: seq<Row<T>>, filter: T -> bool, k: nat)
    requires DistinctIds(rows) && k < |History(rows, filter)|
    ensures var h := History(rows, filter);
      Remaining(rows, filter, Some(h[k])) == h[k + 1..] <==> h[k].createdAt != 0
  {
    var h := History(rows, filter);
    HistorySorted(rows, filter);
    if h[k].createdAt != 0 {
      PastIsSuffix(h, k);
    } else {
      WhereAll(h, PastCursor(Some(h[k])));
      assert |h[k + 1..]| < |h|;
    }
  }

  lemma {:induction false} WhereAll<T(!new)>(s: seq<T>, p: T -> bool)
    requires forall i :: 0 <= i < |s| ==> p(s[i])
    ensures Where(s, p) == s
  {
    if s != [] {
      WhereAll(s[..|s| - 1], p);
    }
  }

  // ---- reading a page -------------------------------------------------------------------------

  datatype Page<T> = Page(receipts: seq<Row<T>>, hasMoreOlder: bool, nextBefore: Id)

  const DEFAULT_LIMIT: nat := 10
  const MAX_LIMIT: nat := 100

  function Clamp(limit: int): nat {
    if limit <= 0 then DEFAULT_LIMIT else if limit > MAX_LIMIT then MAX_LIMIT else limit
  }

  function Find<T>(rows: seq<Row<T>>, id: Id): (r: Option<Row<T>>)
    ensures r.Some? ==> r.value in rows && r.value.receiptID == id
    ensures r.None? ==> forall i :: 0 <= i < |rows| ==> rows[i].receiptID != id
  {
    if rows == [] then None
    else if rows[0].receiptID == id then Some(rows[0])
    else
      assert forall i :: 1 <= i < |rows| ==> rows[i] == rows[1..][i - 1];
      Find(rows[1..], id)
  }

  /** The page for what remains. */
  function PageOf<T>(rest: seq<Row<T>>, limit: nat): Page<T>
    requires limit > 0
  {
    if |rest| > limit then Page(rest[..limit], true, rest[limit - 1].receiptID)
    else Page(rest, false, "")
  }

  /** What a read answers: the page of what remains past its cursor, which must be a receipt of the
      table. */
  function Answer<T(==, !new)>(rows: seq<Row<T>>, filter: T -> bool, limit: int, before: Id)
    : (answer: Result<Page<T>>)
    ensures answer.Err? <==> before != "" && forall i :: 0 <= i < |rows| ==> rows[i].receiptID != before
  {
    if before == "" then Ok(PageOf(Remaining(rows, filter, None), Clamp(limit)))
    else
      match Find(rows, before)
      case None => Err
      case Some(c) =>
        assert c in rows;
        Ok(PageOf(Remaining(rows, filter, Some(c)), Clamp(limit)))
  }

  /** The page cut from a query that asked for one receipt too many. */
  function CutPage<T>(records: seq<Row<T>>, limit: nat): Page<T>
    requires limit > 0
  {
    if |records| > limit then Page(records[..limit], true, records[limit - 1].receiptID)
    else Page(records, false, "")
  }

  lemma CutIsPage<T(!new)>(rows: seq<Row<T>>, filter: T -> bool, cursor: Option<Row<T>>, limit: nat)
    requires DistinctIds(rows) && limit > 0
    ensures CutPage(Query(rows, filter, cursor, limit + 1), limit)
         == PageOf(Remaining(rows, filter, cursor), limit)
  {
    QueryIsPrefix(rows, filter, cursor, limit + 1);
    var rest := Remaining(rows, filter, cursor);
    assert |rest| > limit ==> rest[..limit + 1][..limit] == rest[..limit];
  }

  /** One read: the limit is clamped, one receipt too many is asked for, and the last receipt of a
      cut page is the next cursor. An unknown cursor is an error. */
  method ReadPage<T(==, !new)>(rows: seq<Row<T>>, filter: T -> bool, limit: int, before: Id)
    returns (page: Result<Page<T>>)
    requires DistinctIds(rows)
    ensures page == Answer(rows, filter, limit, before)
    ensures page.Err? <==> before != "" && forall i :: 0 <= i < |rows| ==> rows[i].receiptID != before
  {
    var bounded := Clamp(limit);
    var cursor: Option<Row<T>> := None;
    if before != "" {
      cursor := Find(rows, before);
      if cursor.None? {
        return Err;
      }
    }
    var records := Query(rows, filter, cursor, bounded + 1);
    CutIsPage(rows, filter, cursor, bounded);
    var hasMoreOlder := false;
    if |records| > bounded {
      hasMoreOlder := true;
      records := records[..bounded];
    }
    var next := "";
    if hasMoreOlder && |records| > 0 {
      next := records[|records| - 1].receiptID;
    }
    page := Ok(Page(records, hasMoreOlder, next));
  }

  // ---- following the cursors ------------------------------------------------------------------

  /** The receipts carry a time and an id without outer space, as generated ids are. */
  ghost predicate Stamped<T(!new)>(rows: seq<Row<T>>) {
    forall i :: 0 <= i < |rows| ==>
      && rows[i].createdAt != 0 && rows[i].receiptID != ""
      && TrimSpace(rows[i].receiptID) == rows[i].receiptID
  }

  /** Every receipt of `more` comes before every receipt of `rows` in the listing. */
  ghost predicate AllNewer<T(!new)>(more: seq<Row<T>>, rows: seq<Row<T>>) {
    forall x, y :: x in more && y in rows ==> Before(x, y)
  }

  /** Newer receipts appended to the table do not change what remains past a cursor. */
  lemma NewerDoNotShow<T(!new)>(rows: seq<Row<T>>, more: seq<Row<T>>, filter: T -> bool,
                                cursor: Row<T>)
    requires DistinctIds(rows + more) && cursor.createdAt != 0
    requires forall x :: x in more ==> Before(x, cursor)
    ensures Remaining(rows + more, filter, Some(cursor)) == Remaining(rows, filter, Some(cursor))
  {
    BeforeIsStrict<T>();
    assert DistinctIds(rows) by {
      assert forall i :: 0 <= i < |rows| ==> (rows + more)[i] == rows[i];
    }
    RemainingSorted(rows, filter, Some(cursor));
    RemainingSorted(rows + more, filter, Some(cursor));
    forall x | x in more ensures !Past(Some(cursor), x) {
      assert Order<T>()(x, cursor);
    }
    SortedUnique(Remaining(rows + more, filter, Some(cursor)),
                 Remaining(rows, filter, Some(cursor)), Order<T>());
  }

  /** Receipts newer than all of `rows` arrive in batches, and ids stay distinct. */
  ghost predicate Growth<T(!new)>(rows: seq<Row<T>>, batches: seq<seq<Row<T>>>) {
    && Stamped(rows)
    && (forall i :: 0 <= i <= |batches| ==> DistinctIds(Grown(rows, batches, i)))
    && (forall i :: 0 <= i < |batches| ==> AllNewer(batches[i], rows))
  }

  /** The answer to the cursor after the first k receipts of the history, from a table that has grown
      since. */
  lemma AnswersRest<T(!new)>(rows: seq<Row<T>>, batches: seq<seq<Row<T>>>, turns: nat,
                             filter: T -> bool, limit: int, before: Id, k: nat)
    requires Growth(rows, batches) && turns <= |batches|
    requires 0 < k <= |History(rows, filter)| && before == History(rows, filter)[k - 1].receiptID
    ensures DistinctIds(Grown(rows, batches, turns))
    ensures Answer(Grown(rows, batches, turns), filter, limit, TrimSpace(before))
         == Ok(PageOf(History(rows, filter)[k..], Clamp(limit)))
  {
    var cursor := History(rows, filter)[k - 1];
    GrownHas(rows, batches, turns, filter, cursor, k - 1);
    AnswerPast(Grown(rows, batches, turns), filter, limit, before, cursor,
               History(rows, filter)[k..]);
  }

  /** The answer to a known cursor. */
  lemma AnswerPast<T(!new)>(rows: seq<Row<T>>, filter: T -> bool, limit: int, before: Id,
                            cursor: Row<T>, rest: seq<Row<T>>)
    requires TrimSpace(before) != "" && Find(rows, TrimSpace(before)) == Some(cursor)
    requires Remaining(rows, filter, Some(cursor)) == rest
    ensures Answer(rows, filter, limit, TrimSpace(before)) == Ok(PageOf(rest, Clamp(limit)))
  {
  }

  /** A read as the three readers make it: the cursor is trimmed first. */
  method ReadFrom<T(==, !new)>(rows: seq<Row<T>>, filter: T -> bool, limit: int, before: Id)
    returns (page: Result<Page<T>>)
    requires DistinctIds(rows)
    ensures page == Answer(rows, filter, limit, TrimSpace(before))
  {
    page := ReadPage(rows, filter, limit, TrimSpace(before));
  }

  method ReadOn<T(==, !new)>(rows: seq<Row<T>>, batches: seq<seq<Row<T>>>, turns: nat,
                             filter: T -> bool, limit: int, before: Id, ghost k: nat)
    returns (page: Page<T>)
    requires Growth(rows, batches) && turns <= |batches|
    requires 0 < k <= |History(rows, filter)| && before == History(rows, filter)[k - 1].receiptID
    ensures page == PageOf(History(rows, filter)[k..], Clamp(limit))
  {
    AnswersRest(rows, batches, turns, filter, limit, before, k);
    var result := ReadFrom(Grown(rows, batches, turns), filter, limit, before);
    page := result.value;
  }

  /** What a client sees that follows nextBefore from an empty cursor until hasMoreOlder is false,
      while newer receipts are appended between its reads: exactly the history it started from,
      newest first, nothing skipped or repeated. Each of the three readers is ReadFrom with its own
      filter. */
  method FollowCursors<T(==, !new)>(rows: seq<Row<T>>, filter: T -> bool, limit: int,
                                    batches: seq<seq<Row<T>>>)
    returns (seen: seq<Row<T>>)
    requires Growth(rows, batches)
    ensures seen == History(rows, filter)
  {
    assert Grown(rows, batches, 0) == rows;
    StartsWithAll(rows, filter);
    var first := ReadFrom(rows, filter, limit, "");
    seen := [];
    var page := first.value;
    ghost var history := History(rows, filter);
    assert history[0..] == history;
    var turns := 0;
    while page.hasMoreOlder
      invariant |seen| <= |history| && seen == history[..|seen|] && turns <= |batches|
      invariant page == PageOf(history[|seen|..], Clamp(limit))
      decreases |history| - |seen|
    {
      turns := if turns < |batches| then turns + 1 else turns;
      PageEnds(history, |seen|, Clamp(limit));
      seen := seen + page.receipts;
      page := ReadOn(rows, batches, turns, filter, limit, page.nextBefore, |seen|);
    }
    PageEnds(history, |seen|, Clamp(limit));
    seen := seen + page.receipts;
  }

  /** Where the page that starts at a place of the history ends. */
  function End<T>(history: seq<Row<T>>, start: nat, limit: nat): nat
    requires start <= |history| && limit > 0
  {
    start + |PageOf(history[start..], limit).receipts|
  }

  lemma PageEnds<T(!new)>(history: seq<Row<T>>, start: nat, limit: nat)
    requires start <= |history| && limit > 0
    ensures var page := PageOf(history[start..], limit);
      var end := End(history, start, limit);
      && start <= end <= |history|
      && history[..start] + page.receipts == history[..end]
      && (page.hasMoreOlder <==> end < |history|)
      && (page.hasMoreOlder ==> start < end && page.nextBefore == history[end - 1].receiptID)
  {
  }

  /** The table after some batches were appended. */
  function Grown<T>(rows: seq<Row<T>>, batches: seq<seq<Row<T>>>, n: nat): seq<Row<T>>
    requires n <= |batches|
  {
    if n == 0 then rows else Grown(rows, batches, n - 1) + batches[n - 1]
  }

  lemma StartsWithAll<T(!new)>(rows: seq<Row<T>>, filter: T -> bool)
    requires DistinctIds(rows)
    ensures Remaining(rows, filter, None) == History(rows, filter)
  {
    WhereAll(History(rows, filter), PastCursor<T>(None));
  }

  lemma {:induction false} GrownRemaining<T(!new)>(rows: seq<Row<T>>, batches: seq<seq<Row<T>>>,
                                                   n: nat, filter: T -> bool, cursor: Row<T>)
    requires n <= |batches| && cursor in rows && cursor.createdAt != 0
    requires forall i :: 0 <= i <= |batches| ==> DistinctIds(Grown(rows, batches, i))
    requires forall i :: 0 <= i < |batches| ==> AllNewer(batches[i], rows)
    ensures cursor in Grown(rows, batches, n)
    ensures Remaining(Grown(rows, batches, n), filter, Some(cursor))
         == Remaining(rows, filter, Some(cursor))
  {
    if n > 0 {
      GrownRemaining(rows, batches, n - 1, filter, cursor);
      assert DistinctIds(Grown(rows, batches, n));
      NewerDoNotShow(Grown(rows, batches, n - 1), batches[n - 1], filter, cursor);
    }
  }

  lemma FindsDistinct<T(!new)>(rows: seq<Row<T>>, r: Row<T>)
    requires DistinctIds(rows) && r in rows
    ensures Find(rows, r.receiptID) == Some(r)
  {
    var i :| 0 <= i < |rows| && rows[i] == r;
    var found := Find(rows, r.receiptID);
    if found.Some? {
      var j :| 0 <= j < |rows| && rows[j] == found.value;
    }
  }

  /** The cursor is found in the grown table, and past it lies what lay past it before. */
  lemma GrownHas<T(!new)>(rows: seq<Row<T>>, batches: seq<seq<Row<T>>>, n: nat,
                          filter: T -> bool, cursor: Row<T>, k: nat)
    requires n <= |batches| && Growth(rows, batches)
    requires k < |History(rows, filter)| && History(rows, filter)[k] == cursor
    ensures cursor.receiptID != "" && TrimSpace(cursor.receiptID) == cursor.receiptID
    ensures DistinctIds(Grown(rows, batches, n))
    ensures Find(Grown(rows, batches, n), cursor.receiptID) == Some(cursor)
    ensures Remaining(Grown(rows, batches, n), filter, Some(cursor))
         == History(rows, filter)[k + 1..]
  {
    assert Grown(rows, batches, 0) == rows;
    HistorySorted(rows, filter);
    assert cursor in rows;
    GrownRemaining(rows, batches, n, filter, cursor);
    FindsDistinct(Grown(rows, batches, n), cursor);
    PastIsSuffix(History(rows, filter), k);
  }

  // ---- what a page holds ----------------------------------------------------------------------

  /** x is listed before y: it is newer, or as new with the larger id. */
  predicate Precedes<T>(x: Row<T>, y: Row<T>) {
    || x.createdAt > y.createdAt
    || (x.createdAt == y.createdAt && LexLess(y.receiptID, x.receiptID))
  }

  /** The cursor lets a row through: there is none, or it carries the zero time, or the row is listed
      after it. */
  ghost predicate Reached<T(!new)>(rows: seq<Row<T>>, before: Id, r: Row<T>) {
    before == ""
    || forall c :: c in rows && c.receiptID == before ==> c.createdAt == 0 || Precedes(c, r)
  }

  /** A page is as long as asked, 10 by default and at most 100, and in order; it is full when more
      is left, and then names its last receipt as the next cursor. */
  ghost predicate WellCut<T(!new)>(page: Page<T>, limit: int) {
    var size := if limit <= 0 then 10 else if limit > 100 then 100 else limit;
    && |page.receipts| <= size
    && (forall i, j :: 0 <= i < j < |page.receipts| ==>
          Precedes(page.receipts[i], page.receipts[j]))
    && (page.hasMoreOlder ==>
          |page.receipts| == size && page.nextBefore == page.receipts[size - 1].receiptID)
    && (!page.hasMoreOlder ==> page.nextBefore == "")
  }

  /** More is left, and the row is listed after everything on the page. */
  ghost predicate LeftForLater<T(!new)>(page: Page<T>, r: Row<T>) {
    page.hasMoreOlder && forall x :: x in page.receipts ==> Precedes(x, r)
  }

  /** Every receipt on a page passes filter and cursor, and every receipt of the table that passes
      both is on the page or left for a later one. */
  lemma PageHolds<T(!new)>(rows: seq<Row<T>>, filter: T -> bool, limit: int, before: Id)
    requires DistinctIds(rows) && Answer(rows, filter, limit, before).Ok?
    ensures var page := Answer(rows, filter, limit, before).value;
      && WellCut(page, limit)
      && (forall r :: r in page.receipts ==>
            r in rows && filter(r.body) && Reached(rows, before, r))
      && (forall r :: r in rows && filter(r.body) && Reached(rows, before, r) ==>
            r in page.receipts || LeftForLater(page, r))
  {
    var cursor := if before == "" then None else Find(rows, before);
    var rest := Remaining(rows, filter, cursor);
    RemainingSorted(rows, filter, cursor);
    RestCut(rest, Clamp(limit));
    forall r ensures Past(cursor, r) <==> Reached(rows, before, r) {
      PastIsReached(rows, before, r);
    }
  }

  lemma PastIsReached<T(!new)>(rows: seq<Row<T>>, before: Id, r: Row<T>)
    requires DistinctIds(rows)
    requires before == "" || Find(rows, before).Some?
    ensures Past(if before == "" then None else Find(rows, before), r) <==> Reached(rows, before, r)
  {
    if before != "" {
      forall c | c in rows && c.receiptID == before ensures Find(rows, before) == Some(c) {
        FindsDistinct(rows, c);
      }
    }
  }

  lemma RestCut<T(!new)>(rest: seq<Row<T>>, limit: nat)
    requires limit > 0 && Sorted(rest, Order<T>())
    ensures var page := PageOf(rest, limit);
      && (forall i, j :: 0 <= i < j < |page.receipts| ==>
            Precedes(page.receipts[i], page.receipts[j]))
      && (forall r :: r in page.receipts ==> r in rest)
      && (forall r :: r in rest ==> r in page.receipts || LeftForLater(page, r))
  {
    var page := PageOf(rest, limit);
    forall i, j | 0 <= i < j < |rest| ensures Precedes(rest[i], rest[j]) {
      assert Order<T>()(rest[i], rest[j]);
    }
    forall r | r in rest ensures r in page.receipts || LeftForLater(page, r) {
      var j :| 0 <= j < |rest| && rest[j] == r;
      if j < |page.receipts| {
        assert page.receipts[j] == r;
      }
    }
  }

  // ---- the three readers ----------------------------------------------------------------------

  datatype FollowUpBody = FollowUpBody(anchorID: Id, triageID: Id, kind: FollowUpKind)

  datatype Posture = TriagedPosture | NeedsFollowUp | Deferred

  datatype TriageBody = TriageBody(anchorID: Id, posture: Posture)

  datatype TransitionBody = TransitionBody(kind: TransitionKind, handoffID: Id)

  function FollowUpFilter(anchorID: Id, triageID: Id, kind: Option<FollowUpKind>)
    : FollowUpBody -> bool
  {
    (b: FollowUpBody) =>
      && (anchorID == "" || b.anchorID == anchorID)
      && (triageID == "" || b.triageID == triageID)
      && (kind.None? || b.kind == kind.value)
  }

  function TriageFilter(anchorID: Id, posture: Option<Posture>): TriageBody -> bool {
    (b: TriageBody) =>
      (anchorID == "" || b.anchorID == anchorID) && (posture.None? || b.posture == posture.value)
  }

  function TransitionFilter(kind: Option<TransitionKind>, handoffID: Id): TransitionBody -> bool {
    (b: TransitionBody) =>
      (kind.None? || b.kind == kind.value) && (handoffID == "" || b.handoffID == handoffID)
  }

  /** ReadContinuityIncidentFollowUpHistory, the page. */
  method ReadFollowUps(rows: seq<Row<FollowUpBody>>, anchorID: Id, triageID: Id,
                       kind: Option<FollowUpKind>, limit: int, before: Id)
    returns (page: Result<Page<FollowUpBody>>)
    requires DistinctIds(rows)
    ensures page == Answer(rows, FollowUpFilter(TrimSpace(anchorID), TrimSpace(triageID), kind), limit,
                           TrimSpace(before))
    ensures page.Err? <==>
      TrimSpace(before) != "" && forall i :: 0 <= i < |rows| ==> rows[i].receiptID != TrimSpace(before)
    ensures page.Ok? ==> WellCut(page.value, limit)
    ensures page.Ok? ==> forall r :: r in page.value.receipts ==>
      && r in rows && Reached(rows, TrimSpace(before), r)
      && (!Blank(anchorID) ==> r.body.anchorID == TrimSpace(anchorID))
      && (!Blank(triageID) ==> r.body.triageID == TrimSpace(triageID))
      && (kind.Some? ==> r.body.kind == kind.value)
    ensures page.Ok? ==> forall r ::
      && r in rows && Reached(rows, TrimSpace(before), r)
      && (Blank(anchorID) || r.body.anchorID == TrimSpace(anchorID))
      && (Blank(triageID) || r.body.triageID == TrimSpace(triageID))
      && (kind.None? || r.body.kind == kind.value)
      ==> r in page.value.receipts || LeftForLater(page.value, r)
  {
    page := ReadFrom(rows, FollowUpFilter(TrimSpace(anchorID), TrimSpace(triageID), kind), limit,
                     before);
    if page.Ok? {
      PageHolds(rows, FollowUpFilter(TrimSpace(anchorID), TrimSpace(triageID), kind), limit,
                TrimSpace(before));
    }
  }

  /** ReadContinuityIncidentTriageHistory, the page. */
  method ReadTriages(rows: seq<Row<TriageBody>>, anchorID: Id, posture: Option<Posture>, limit: int,
                     before: Id)
    returns (page: Result<Page<TriageBody>>)
    requires DistinctIds(rows)
    ensures page == Answer(rows, TriageFilter(TrimSpace(anchorID), posture), limit, TrimSpace(before))
    ensures page.Err? <==>
      TrimSpace(before) != "" && forall i :: 0 <= i < |rows| ==> rows[i].receiptID != TrimSpace(before)
    ensures page.Ok? ==> WellCut(page.value, limit)
    ensures page.Ok? ==> forall r :: r in page.value.receipts ==>
      && r in rows && Reached(rows, TrimSpace(before), r)
      && (!Blank(anchorID) ==> r.body.anchorID == TrimSpace(anchorID))
      && (posture.Some? ==> r.body.posture == posture.value)
    ensures page.Ok? ==> forall r ::
      && r in rows && Reached(rows, TrimSpace(before), r)
      && (Blank(anchorID) || r.body.anchorID == TrimSpace(anchorID))
      && (posture.None? || r.body.posture == posture.value)
      ==> r in page.value.receipts || LeftForLater(page.value, r)
  {
    page := ReadFrom(rows, TriageFilter(TrimSpace(anchorID), posture), limit, before);
    if page.Ok? {
      PageHolds(rows, TriageFilter(TrimSpace(anchorID), posture), limit, TrimSpace(before));
    }
  }

  /** ReadContinuityTransitionHistory, the page. */
  method ReadTransitions(rows: seq<Row<TransitionBody>>, kind: Option<TransitionKind>, handoffID: Id,
                         limit: int, before: Id)
    returns (page: Result<Page<TransitionBody>>)
    requires DistinctIds(rows)
    ensures page == Answer(rows, TransitionFilter(kind, TrimSpace(handoffID)), limit,
                           TrimSpace(before))
    ensures page.Err? <==>
      TrimSpace(before) != "" && forall i :: 0 <= i < |rows| ==> rows[i].receiptID != TrimSpace(before)
    ensures page.Ok? ==> WellCut(page.value, limit)
    ensures page.Ok? ==> forall r :: r in page.value.receipts ==>
      && r in rows && Reached(rows, TrimSpace(before), r)
      && (kind.Some? ==> r.body.kind == kind.value)
      && (!Blank(handoffID) ==> r.body.handoffID == TrimSpace(handoffID))
    ensures page.Ok? ==> forall r ::
      && r in rows && Reached(rows, TrimSpace(before), r)
      && (kind.None? || r.body.kind == kind.value)
      && (Blank(handoffID) || r.body.handoffID == TrimSpace(handoffID))
      ==> r in page.value.receipts || LeftForLater(page.value, r)
  {
    page := ReadFrom(rows, TransitionFilter(kind, TrimSpace(handoffID)), limit, before);
    if page.Ok? {
      PageHolds(rows, TransitionFilter(kind, TrimSpace(handoffID)), limit, TrimSpace(before));
    }
  }
}
