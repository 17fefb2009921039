/**
 * `Array.prototype.sort` with a comparator, which is stable: elements the
 * comparator ranks equal keep their original order.  The comparator is
 * given as a "less than or equal" relation that must be a total preorder.
 */
module Sorting {

  ghost predicate TotalPreorder<T(!new)>(le: (T, T) -> bool) {
    (forall a, b :: le(a, b) || le(b, a)) &&
    (forall a, b, c :: le(a, b) && le(b, c) ==> le(a, c))
  }

  predicate SortedBy<T>(s: seq<T>, le: (T, T) -> bool) {
    forall i, j :: 0 <= i < j < |s| ==> le(s[i], s[j])
  }

  /** Inserts `x` after every element that is not strictly greater. */
  function InsertBy<T>(x: T, s: seq<T>, le: (T, T) -> bool): (r: seq<T>)
    ensures multiset(r) == multiset(s) + multiset{x}
    ensures |r| == |s| + 1
  {
    if s == [] then [x]
    else if le(x, s[0]) && !le(s[0], x) then [x] + s
    else
      assert s == [s[0]] + s[1..];
      [s[0]] + InsertBy(x, s[1..], le)
  }

  /** A sorted sequence stays sorted with a first element ranked before all of it. */
  lemma ConsSorted<T>(h: T, r: seq<T>, le: (T, T) -> bool)
    requires SortedBy(r, le)
    requires forall k :: 0 <= k < |r| ==> le(h, r[k])
    ensures SortedBy([h] + r, le)
  {
    forall i, j | 0 <= i < j < |[h] + r| ensures le(([h] + r)[i], ([h] + r)[j]) {
      assert ([h] + r)[j] == r[j - 1];
      if i > 0 {
        assert ([h] + r)[i] == r[i - 1];
      }
    }
  }

  /** What is ranked after `h` element by element stays so after rearranging and adding `x`. */
  lemma BelowAll<T>(h: T, x: T, t: seq<T>, r: seq<T>, le: (T, T) -> bool)
    requires le(h, x)
    requires forall k :: 0 <= k < |t| ==> le(h, t[k])
    requires multiset(r) == multiset(t) + multiset{x}
    ensures forall k :: 0 <= k < |r| ==> le(h, r[k])
  {
    forall k | 0 <= k < |r| ensures le(h, r[k]) {
      assert r[k] in multiset(r);
      if r[k] != x {
        assert r[k] in multiset(t);
        var m :| 0 <= m < |t| && t[m] == r[k];
      }
    }
  }

  lemma {:induction false} InsertBySorted<T(!new)>(x: T, s: seq<T>, le: (T, T) -> bool)
    requires TotalPreorder(le) && SortedBy(s, le)
    ensures SortedBy(InsertBy(x, s, le), le)
  {
    if s != [] && !(le(x, s[0]) && !le(s[0], x)) {
      var t := s[1..];
      assert SortedBy(t, le) by {
        forall i, j | 0 <= i < j < |t| ensures le(t[i], t[j]) { assert t[i] == s[i + 1] && t[j] == s[j + 1]; }
      }
      InsertBySorted(x, t, le);
      var r := InsertBy(x, t, le);
      assert le(s[0], x);
      forall k | 0 <= k < |t| ensures le(s[0], t[k]) {
        assert t[k] == s[k + 1];
      }
      BelowAll(s[0], x, t, r, le);
      ConsSorted(s[0], r, le);
    } else if s != [] {
      forall k | 0 <= k < |s| ensures le(x, s[k]) {
        if k > 0 {
          assert le(s[0], s[k]);
        }
      }
      ConsSorted(x, s, le);
    }
  }

  /** A prefix of a sorted sequence is sorted, and ranked before everything after it. */
  lemma SortedPrefix<T>(s: seq<T>, n: nat, le: (T, T) -> bool)
    requires SortedBy(s, le) && n <= |s|
    ensures SortedBy(s[..n], le)
    ensures forall i, j :: 0 <= i < n <= j < |s| ==> le(s[..n][i], s[j])
  {
    forall i, j | 0 <= i < n <= j < |s| ensures le(s[..n][i], s[j]) {
      assert s[..n][i] == s[i];
    }
  }

  /** The stable sort of `s` under `le`. */
  function SortBy<T>(s: seq<T>, le: (T, T) -> bool): (r: seq<T>)
    ensures multiset(r) == multiset(s)
    ensures |r| == |s|
  {
    if s == [] then []
    else
      assert s == s[..|s| - 1] + [s[|s| - 1]];
      InsertBy(s[|s| - 1], SortBy(s[..|s| - 1], le), le)
  }

  /** The result of sorting is ordered and a permutation of the input. */
  lemma {:induction false} SortBySorted<T(!new)>(s: seq<T>, le: (T, T) -> bool)
    requires TotalPreorder(le)
    ensures SortedBy(SortBy(s, le), le)
    ensures multiset(SortBy(s, le)) == multiset(s)
  {
    if s != [] {
      SortBySorted(s[..|s| - 1], le);
      InsertBySorted(s[|s| - 1], SortBy(s[..|s| - 1], le), le);
    }
  }

  // ---------------------------------------------------------------- stability

  /** The ordering half of `SortBySorted`, for proofs that do not need the permutation. */
  lemma {:induction false} SortByOrdered<T(!new)>(s: seq<T>, le: (T, T) -> bool)
    requires TotalPreorder(le)
    ensures SortedBy(SortBy(s, le), le)
  {
    SortBySorted(s, le);
  }

  /** The elements of `s` ranked equal to `x`, in their order in `s`. */
  function Ties<T>(s: seq<T>, x: T, le: (T, T) -> bool): seq<T> {
    if s == [] then []
    else (if le(s[0], x) && le(x, s[0]) then [s[0]] else []) + Ties(s[1..], x, le)
  }

  lemma {:induction false} TiesConcat<T>(a: seq<T>, b: seq<T>, x: T, le: (T, T) -> bool)
    ensures Ties(a + b, x, le) == Ties(a, x, le) + Ties(b, x, le)
  {
    if a == [] {
      assert a + b == b;
    } else {
      assert (a + b)[0] == a[0] && (a + b)[1..] == a[1..] + b;
      TiesConcat(a[1..], b, x, le);
    }
  }

  /** The ties of a sequence with a first element `h` are `h`, if it is one, then the ties of the rest. */
  lemma TiesCons<T>(h: T, r: seq<T>, x: T, le: (T, T) -> bool)
    ensures Ties([h] + r, x, le) == (if le(h, x) && le(x, h) then [h] else []) + Ties(r, x, le)
  {
    assert ([h] + r)[0] == h && ([h] + r)[1..] == r;
  }

  /** The ties of a sequence are those of all but its last element, then the last element if it is one. */
  lemma TiesSnoc<T>(s: seq<T>, x: T, le: (T, T) -> bool)
    requires s != []
    ensures Ties(s, x, le) == Ties(s[..|s| - 1], x, le) +
      (if le(s[|s| - 1], x) && le(x, s[|s| - 1]) then [s[|s| - 1]] else [])
  {
    var n := |s| - 1;
    TiesConcat(s[..n], [s[n]], x, le);
    assert s[..n] + [s[n]] == s;
  }

  /** Nothing ranked strictly after `x` is a tie of `x`. */
  lemma {:induction false} NoTies<T>(t: seq<T>, x: T, le: (T, T) -> bool)
    requires forall k :: 0 <= k < |t| ==> !le(t[k], x)
    ensures Ties(t, x, le) == []
  {
    if t != [] {
      assert forall k :: 0 <= k < |t[1..]| ==> t[1..][k] == t[k + 1];
      NoTies(t[1..], x, le);
    }
  }

  /** Inserting `y` into a sorted sequence puts it after the ties it already has. */
  lemma {:induction false} TiesInsert<T(!new)>(y: T, t: seq<T>, x: T, le: (T, T) -> bool)
    requires TotalPreorder(le) && SortedBy(t, le)
    ensures Ties(InsertBy(y, t, le), x, le) == Ties(t, x, le) + (if le(y, x) && le(x, y) then [y] else [])
  {
    if t == [] {
    } else if le(y, t[0]) && !le(t[0], y) {
      TiesInsertFront(y, t, x, le);
    } else {
      var u := t[1..];
      SortedTail(t, le);
      TiesInsert(y, u, x, le);
      TiesCons(t[0], InsertBy(y, u, le), x, le);
    }
  }

  lemma SortedTail<T>(t: seq<T>, le: (T, T) -> bool)
    requires SortedBy(t, le) && t != []
    ensures SortedBy(t[1..], le)
  {
    var u := t[1..];
    forall i, j | 0 <= i < j < |u| ensures le(u[i], u[j]) { assert u[i] == t[i + 1] && u[j] == t[j + 1]; }
  }

  /** An element ranked strictly before a sorted sequence has no tie in it. */
  lemma TiesInsertFront<T(!new)>(y: T, t: seq<T>, x: T, le: (T, T) -> bool)
    requires TotalPreorder(le) && SortedBy(t, le)
    requires t != [] && le(y, t[0]) && !le(t[0], y)
    ensures Ties([y] + t, x, le) == Ties(t, x, le) + (if le(y, x) && le(x, y) then [y] else [])
  {
    assert ([y] + t)[0] == y && ([y] + t)[1..] == t;
    if le(y, x) && le(x, y) {
      forall k | 0 <= k < |t| ensures !le(t[k], x) {
        assert le(t[0], t[k]) by { if k > 0 { assert 0 < k < |t|; } }
      }
      NoTies(t, x, le);
    }
  }

  /** The sort is stable: the elements ranked equal to any `x` come out in their input order. */
  lemma {:induction false} SortByStable<T(!new)>(s: seq<T>, x: T, le: (T, T) -> bool)
    requires TotalPreorder(le)
    ensures Ties(SortBy(s, le), x, le) == Ties(s, x, le)
  {
    if s != [] {
      var n := |s| - 1;
      SortByStable(s[..n], x, le);
      SortByOrdered(s[..n], le);
      TiesInsert(s[n], SortBy(s[..n], le), x, le);
      TiesSnoc(s, x, le);
    }
  }
}
