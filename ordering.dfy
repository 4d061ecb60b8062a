/**
 * Sorted insertion as done by `bisect.insort` (insort_right) and by
 * `SortedList.add`: a new element goes after every element whose key is
 * not greater than its own, so equal keys keep their insertion order.
 */
module Ordering {

  /** Non-decreasing by key. */
  predicate SortedBy<T>(s: seq<T>, key: T -> int) {
    forall i, j :: 0 <= i < j < |s| ==> key(s[i]) <= key(s[j])
  }

  /** Reference definition of insort_right on a sequence. */
  function InsortRight<T>(s: seq<T>, x: T, key: T -> int): (r: seq<T>)
    ensures |r| == |s| + 1
  {
    if s == [] then [x]
    else if key(x) < key(s[0]) then [x] + s
    else [s[0]] + InsortRight(s[1..], x, key)
  }

  /** Inserting every element of `xs`, first to last. */
  function InsertAll<T>(s: seq<T>, xs: seq<T>, key: T -> int): (r: seq<T>)
    ensures |r| == |s| + |xs|
    decreases xs
  {
    if xs == [] then s
    else InsertAll(InsortRight(s, xs[0], key), xs[1..], key)
  }

  /** InsortRight adds `x` and keeps every other element: it permutes `s + [x]`. */
  lemma {:induction false} InsortRightPermutes<T>(s: seq<T>, x: T, key: T -> int)
    ensures multiset(InsortRight(s, x, key)) == multiset(s) + multiset{x}
    decreases |s|
  {
    if s != [] && key(s[0]) <= key(x) {
      InsortRightPermutes(s[1..], x, key);
      assert s == [s[0]] + s[1..];
    }
  }

  /** InsertAll keeps every element of both sequences and adds nothing. */
  lemma {:induction false} InsertAllPermutes<T>(s: seq<T>, xs: seq<T>, key: T -> int)
    ensures multiset(InsertAll(s, xs, key)) == multiset(s) + multiset(xs)
    decreases |xs|
  {
    if xs != [] {
      InsortRightPermutes(s, xs[0], key);
      InsertAllPermutes(InsortRight(s, xs[0], key), xs[1..], key);
      assert xs == [xs[0]] + xs[1..];
    }
  }

  lemma {:induction false} InsortRightSorted<T>(s: seq<T>, x: T, key: T -> int)
    requires SortedBy(s, key)
    ensures SortedBy(InsortRight(s, x, key), key)
  {
    if s != [] && key(s[0]) <= key(x) {
      InsortRightSorted(s[1..], x, key);
      var t := InsortRight(s[1..], x, key);
      InsortRightPermutes(s[1..], x, key);
      assert multiset(t) == multiset(s[1..]) + multiset{x};
      forall k | 0 <= k < |t| ensures key(s[0]) <= key(t[k]) {
        assert t[k] in multiset(t);
        if t[k] != x {
          assert t[k] in multiset(s[1..]);
          var m :| 0 <= m < |s[1..]| && s[1..][m] == t[k];
          assert s[m + 1] == t[k];
        }
      }
    }
  }

  lemma {:induction false} InsertAllSorted<T>(s: seq<T>, xs: seq<T>, key: T -> int)
    requires SortedBy(s, key)
    ensures SortedBy(InsertAll(s, xs, key), key)
    decreases xs
  {
    if xs != [] {
      InsortRightSorted(s, xs[0], key);
      InsertAllSorted(InsortRight(s, xs[0], key), xs[1..], key);
    }
  }

  /**
   * InsortRight puts `x` between `a` and `b` when every key of `a` is at
   * most key(x) and every key of `b` exceeds it.
   */
  lemma {:induction false} InsortRightBetween<T>(a: seq<T>, b: seq<T>, x: T, key: T -> int)
    requires forall j :: 0 <= j < |a| ==> key(a[j]) <= key(x)
    requires forall j :: 0 <= j < |b| ==> key(x) < key(b[j])
    ensures InsortRight(a + b, x, key) == a + [x] + b
    decreases |a|
  {
    if a == [] {
      assert a + b == b;
      if b != [] { assert key(x) < key(b[0]); }
    } else {
      var rest := a[1..];
      forall j | 0 <= j < |rest| ensures key(rest[j]) <= key(x) {
        assert rest[j] == a[j + 1];
      }
      InsortRightBetween(rest, b, x, key);
      assert (a + b)[0] == a[0] && (a + b)[1..] == rest + b;
      assert key(a[0]) <= key(x);
      assert a + [x] + b == [a[0]] + (rest + [x] + b);
    }
  }

  /**
   * InsortRight puts `x` at index `i` when every key before `i` is at most
   * key(x) and every key from `i` on exceeds it.
   */
  lemma InsortRightAt<T>(s: seq<T>, x: T, key: T -> int, i: nat)
    requires i <= |s|
    requires forall j :: 0 <= j < i ==> key(s[j]) <= key(x)
    requires forall j :: i <= j < |s| ==> key(x) < key(s[j])
    ensures InsortRight(s, x, key) == s[..i] + [x] + s[i..]
  {
    var a, b := s[..i], s[i..];
    forall j | 0 <= j < |b| ensures key(x) < key(b[j]) {
      assert b[j] == s[i + j];
    }
    assert s == a + b;
    InsortRightBetween(a, b, x, key);
  }

  /** insort_right: binary search for the insertion point, then splice. */
  method Insort<T>(s: seq<T>, x: T, key: T -> int) returns (r: seq<T>, i: nat)
    requires SortedBy(s, key)
    ensures i <= |s| && r == s[..i] + [x] + s[i..]
    ensures r == InsortRight(s, x, key)
    ensures SortedBy(r, key)
    ensures forall j :: 0 <= j < i ==> key(s[j]) <= key(x)
    ensures forall j :: i <= j < |s| ==> key(x) < key(s[j])
  {
    var lo, hi := 0, |s|;
    while lo < hi
      invariant 0 <= lo <= hi <= |s|
      invariant forall j :: 0 <= j < lo ==> key(s[j]) <= key(x)
      invariant forall j :: hi <= j < |s| ==> key(x) < key(s[j])
    {
      var mid := (lo + hi) / 2;
      if key(x) < key(s[mid]) {
        hi := mid;
      } else {
        lo := mid + 1;
      }
    }
    i := lo;
    r := s[..i] + [x] + s[i..];
    InsortRightAt(s, x, key, i);
    InsortRightSorted(s, x, key);
  }

  /** An element no smaller than every element goes at the end. */
  lemma InsortRightAtEnd<T>(s: seq<T>, x: T, key: T -> int)
    requires forall j :: 0 <= j < |s| ==> key(s[j]) <= key(x)
    ensures InsortRight(s, x, key) == s + [x]
  {
    InsortRightAt(s, x, key, |s|);
    assert s[..|s|] == s && s[|s|..] == [];
  }

  /** Inserting elements that already come in order after `s` appends them: copying a sorted sequence keeps it. */
  lemma {:induction false} InsertAllInOrder<T>(s: seq<T>, xs: seq<T>, key: T -> int)
    requires SortedBy(s + xs, key)
    ensures InsertAll(s, xs, key) == s + xs
    decreases xs
  {
    if xs != [] {
      var x := xs[0];
      assert (s + xs)[|s|] == x;
      assert forall j :: 0 <= j < |s| ==> (s + xs)[j] == s[j];
      InsortRightAtEnd(s, x, key);
      assert (s + [x]) + xs[1..] == s + xs;
      InsertAllInOrder(s + [x], xs[1..], key);
    }
  }
}
