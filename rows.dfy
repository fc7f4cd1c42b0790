/**
 * Row selection over parallel per-instance sequences: the single
 * "keep these rows" operation that list comprehensions with a filter
 * (`[x for x in s if p(x)]`) and `BoxList.__getitem__` with a boolean
 * mask both perform.  Every field selected with the same mask keeps the
 * same rows, in the same order.
 */
module RowSelection {

  /** Number of rows a mask keeps. */
  function CountTrue(keep: seq<bool>): (n: nat)
    ensures n <= |keep|
  {
    if keep == [] then 0
    else CountTrue(keep[..|keep| - 1]) + (if keep[|keep| - 1] then 1 else 0)
  }

  /** The rows of `s` whose mask entry is true, in their original order. */
  function Select<T>(s: seq<T>, keep: seq<bool>): (r: seq<T>)
    requires |keep| == |s|
    ensures |r| == CountTrue(keep)
  {
    if s == [] then []
    else Select(s[..|s| - 1], keep[..|keep| - 1]) + (if keep[|keep| - 1] then [s[|s| - 1]] else [])
  }

  predicate StrictlyIncreasing(ix: seq<nat>) {
    forall i, j :: 0 <= i < j < |ix| ==> ix[i] < ix[j]
  }

  /** Positions of the rows a mask keeps: exactly the true positions, ascending. */
  function KeptIndices(keep: seq<bool>): (ix: seq<nat>)
    ensures |ix| == CountTrue(keep)
    ensures StrictlyIncreasing(ix)
    ensures forall j :: 0 <= j < |ix| ==> ix[j] < |keep| && keep[ix[j]]
    ensures forall i :: 0 <= i < |keep| && keep[i] ==> i in ix
  {
    if keep == [] then []
    else
      var prefix := keep[..|keep| - 1];
      var ix0 := KeptIndices(prefix);
      assert forall j :: 0 <= j < |ix0| ==> ix0[j] < |prefix| && keep[ix0[j]] == prefix[ix0[j]];
      ix0 + (if keep[|keep| - 1] then [|keep| - 1] else [])
  }

  /** Row `j` of a selection is the row of the input at the `j`-th kept position. */
  lemma {:induction false} SelectAt<T>(s: seq<T>, keep: seq<bool>, j: nat)
    requires |keep| == |s|
    requires j < CountTrue(keep)
    ensures j < |KeptIndices(keep)| && KeptIndices(keep)[j] < |s|
    ensures Select(s, keep)[j] == s[KeptIndices(keep)[j]]
  {
    var n := |s| - 1;
    var sp, kp := s[..n], keep[..n];
    if j < CountTrue(kp) {
      SelectAt(sp, kp, j);
      assert Select(s, keep)[j] == Select(sp, kp)[j];
      assert KeptIndices(keep)[j] == KeptIndices(kp)[j];
    } else {
      assert keep[n] && j == CountTrue(kp);
      assert KeptIndices(keep)[j] == n;
    }
  }

  /** A selection holds exactly the rows whose mask entry is true. */
  lemma {:induction false} SelectMembership<T>(s: seq<T>, keep: seq<bool>, x: T)
    requires |keep| == |s|
    ensures x in Select(s, keep) <==> exists i :: 0 <= i < |s| && keep[i] && s[i] == x
  {
    if s != [] {
      var n := |s| - 1;
      SelectMembership(s[..n], keep[..n], x);
      if exists i :: 0 <= i < |s| && keep[i] && s[i] == x {
        var i :| 0 <= i < |s| && keep[i] && s[i] == x;
        if i < n {
          assert keep[..n][i] && s[..n][i] == x;
        }
      }
    }
  }

  predicate SortedAsc(s: seq<int>) {
    forall i, j :: 0 <= i < j < |s| ==> s[i] <= s[j]
  }

  /** Selecting rows of an ascending sequence leaves it ascending. */
  lemma {:induction false} SelectSorted(s: seq<int>, keep: seq<bool>)
    requires |keep| == |s|
    requires SortedAsc(s)
    ensures SortedAsc(Select(s, keep))
  {
    var r := Select(s, keep);
    var ix := KeptIndices(keep);
    forall i, j | 0 <= i < j < |r| ensures r[i] <= r[j] {
      SelectAt(s, keep, i);
      SelectAt(s, keep, j);
    }
  }

  /** The mask that keeps every row keeps the sequence unchanged. */
  lemma {:induction false} SelectAll<T>(s: seq<T>, keep: seq<bool>)
    requires |keep| == |s|
    requires forall i :: 0 <= i < |keep| ==> keep[i]
    ensures Select(s, keep) == s
  {
    if s != [] {
      var n := |s| - 1;
      SelectAll(s[..n], keep[..n]);
      assert s[..n] + [s[n]] == s;
    }
  }

  /** The mask that keeps no row leaves nothing. */
  lemma {:induction false} SelectNone<T>(s: seq<T>, keep: seq<bool>)
    requires |keep| == |s|
    requires forall i :: 0 <= i < |keep| ==> !keep[i]
    ensures Select(s, keep) == []
  {
    if s != [] {
      SelectNone(s[..|s| - 1], keep[..|keep| - 1]);
    }
  }
}
