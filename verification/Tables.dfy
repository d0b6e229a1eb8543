/** Append-ordered tables. A table is a sequence in creation order, so the newest row is
    the last one; the store's "latest" queries return the last matching row. */
module Tables {
  import opened Wrappers

  /** Row i is the newest row of s that satisfies p. */
  ghost predicate IsNewest<T(!new)>(s: seq<T>, p: T -> bool, i: int) {
    0 <= i < |s| && p(s[i]) && forall j :: i < j < |s| ==> !p(s[j])
  }

  /** The newest row that satisfies p. */
  function LastWhere<T(!new)>(s: seq<T>, p: T -> bool): Option<T> {
    if |s| == 0 then None
    else if p(s[|s| - 1]) then Some(s[|s| - 1])
    else LastWhere(s[..|s| - 1], p)
  }

  /** The query finds nothing exactly when no row matches; otherwise it finds the newest match. */
  lemma {:induction false} LastWhereFinds<T(!new)>(s: seq<T>, p: T -> bool)
    ensures LastWhere(s, p).None? <==> forall x :: x in s ==> !p(x)
    ensures LastWhere(s, p).Some? ==>
      exists i :: IsNewest(s, p, i) && s[i] == LastWhere(s, p).value
  {
    if |s| > 0 {
      var n := |s| - 1;
      if p(s[n]) {
        assert IsNewest(s, p, n);
      } else {
        LastWhereFinds(s[..n], p);
        if LastWhere(s, p).Some? {
          var i :| IsNewest(s[..n], p, i) && s[..n][i] == LastWhere(s, p).value;
          assert IsNewest(s, p, i);
        }
      }
    }
  }

  /** A row that is newest by its position is the one the query returns. */
  lemma LastWhereIs<T(!new)>(s: seq<T>, p: T -> bool, i: int)
    requires IsNewest(s, p, i)
    ensures LastWhere(s, p) == Some(s[i])
  {
    LastWhereFinds(s, p);
    assert s[i] in s;
    var j :| IsNewest(s, p, j) && s[j] == LastWhere(s, p).value;
  }

  /** Appending a row makes it the answer exactly when it matches. */
  lemma LastWhereAppend<T(!new)>(s: seq<T>, p: T -> bool, x: T)
    ensures LastWhere(s + [x], p) == if p(x) then Some(x) else LastWhere(s, p)
  {
    assert (s + [x])[..|s|] == s;
  }

  /** A row-wise rewrite that keeps matching answers with the rewritten row. */
  lemma LastWhereRewrite<T(!new)>(s: seq<T>, t: seq<T>, p: T -> bool)
    requires |s| == |t|
    requires forall i :: 0 <= i < |s| ==> p(s[i]) == p(t[i])
    requires forall i :: 0 <= i < |s| && p(s[i]) ==> s[i] == t[i]
    ensures LastWhere(s, p) == LastWhere(t, p)
  {
    LastWhereFinds(s, p);
    LastWhereFinds(t, p);
    if LastWhere(s, p).Some? {
      var i :| IsNewest(s, p, i) && s[i] == LastWhere(s, p).value;
      assert IsNewest(t, p, i);
      LastWhereIs(t, p, i);
    }
  }

  /** All matching rows, oldest first. */
  function Where<T(!new)>(s: seq<T>, p: T -> bool): seq<T> {
    if s == [] then []
    else Where(s[..|s| - 1], p) + (if p(s[|s| - 1]) then [s[|s| - 1]] else [])
  }

  lemma {:induction false} WhereMembers<T(!new)>(s: seq<T>, p: T -> bool)
    ensures forall x :: x in Where(s, p) <==> x in s && p(x)
  {
    if s != [] {
      WhereMembers(s[..|s| - 1], p);
      assert s == s[..|s| - 1] + [s[|s| - 1]];
    }
  }

  lemma WhereAppend<T(!new)>(s: seq<T>, p: T -> bool, x: T)
    ensures Where(s + [x], p) == Where(s, p) + (if p(x) then [x] else [])
  {
    assert (s + [x])[..|s|] == s;
  }

  /** Rewriting a row that matches neither before nor after changes no answer. */
  lemma {:induction false} WhereUpdate<T(!new)>(s: seq<T>, p: T -> bool, i: nat, x: T)
    requires i < |s| && !p(s[i]) && !p(x)
    ensures Where(s[i := x], p) == Where(s, p)
  {
    var n := |s| - 1;
    if i < n {
      assert s[i := x][..n] == s[..n][i := x];
      WhereUpdate(s[..n], p, i, x);
    } else {
      assert s[i := x][..n] == s[..n];
    }
  }

  /** The matches of a prefix come first among all matches. */
  lemma {:induction false} WherePrefix<T(!new)>(s: seq<T>, p: T -> bool, k: nat)
    requires k <= |s|
    ensures Where(s[..k], p) <= Where(s, p)
  {
    if k == |s| {
      assert s[..k] == s;
    } else {
      WherePrefix(s[..|s| - 1], p, k);
      assert s[..|s| - 1][..k] == s[..k];
    }
  }
}
