/** Counting and listing the integers of a half-open range that satisfy a predicate. */
module Ranges {

  ghost predicate Increasing(s: seq<int>) {
    forall i, j :: 0 <= i < j < |s| ==> s[i] < s[j]
  }

  lemma NothingIncreases()
    ensures Increasing([])
  {
  }

  lemma AppendLarger(s: seq<int>, x: int)
    requires Increasing(s) && forall y :: y in s ==> y < x
    ensures Increasing(s + [x])
  {
    forall i, j | 0 <= i < j < |s + [x]| ensures (s + [x])[i] < (s + [x])[j] {
      assert s[i] in s;
    }
  }

  /** How many integers of `[lo, hi)` satisfy `p`. */
  ghost function Count(p: int -> bool, lo: int, hi: int): nat
    decreases hi - lo
  {
    if hi <= lo then 0 else Count(p, lo, hi - 1) + (if p(hi - 1) then 1 else 0)
  }

  /** The integers of `[lo, hi)` that satisfy `p`, in ascending order. */
  ghost function List(p: int -> bool, lo: int, hi: int): (r: seq<int>)
    ensures |r| == Count(p, lo, hi)
    decreases hi - lo
  {
    if hi <= lo then [] else List(p, lo, hi - 1) + (if p(hi - 1) then [hi - 1] else [])
  }

  lemma {:induction false} ListMembers(p: int -> bool, lo: int, hi: int)
    ensures Increasing(List(p, lo, hi))
    ensures forall x :: x in List(p, lo, hi) <==> lo <= x < hi && p(x)
    decreases hi - lo
  {
    hide Increasing, Count;
    if lo < hi {
      var earlier := List(p, lo, hi - 1);
      ListMembers(p, lo, hi - 1);
      if p(hi - 1) {
        AppendLarger(earlier, hi - 1);
        assert List(p, lo, hi) == earlier + [hi - 1];
        assert forall x :: x in earlier + [hi - 1] <==> x in earlier || x == hi - 1;
      } else {
        assert List(p, lo, hi) == earlier;
      }
    } else {
      NothingIncreases();
      assert List(p, lo, hi) == [];
    }
  }

  lemma {:induction false} CountAtMost(p: int -> bool, lo: int, hi: int)
    ensures lo <= hi ==> Count(p, lo, hi) <= hi - lo
    decreases hi - lo
  {
    if lo < hi {
      CountAtMost(p, lo, hi - 1);
    }
  }

  lemma {:induction false} CountSplits(p: int -> bool, lo: int, mid: int, hi: int)
    requires lo <= mid <= hi
    ensures Count(p, lo, hi) == Count(p, lo, mid) + Count(p, mid, hi)
    decreases hi - mid
  {
    if mid < hi {
      CountSplits(p, lo, mid, hi - 1);
    }
  }

  lemma {:induction false} CountAgrees(p: int -> bool, q: int -> bool, lo: int, hi: int)
    requires forall x :: lo <= x < hi ==> p(x) == q(x)
    ensures Count(p, lo, hi) == Count(q, lo, hi)
    ensures List(p, lo, hi) == List(q, lo, hi)
    decreases hi - lo
  {
    if lo < hi {
      CountAgrees(p, q, lo, hi - 1);
    }
  }

  lemma {:induction false} CountWeakens(p: int -> bool, q: int -> bool, lo: int, hi: int)
    requires forall x :: lo <= x < hi && p(x) ==> q(x)
    ensures Count(p, lo, hi) <= Count(q, lo, hi)
    decreases hi - lo
  {
    if lo < hi {
      CountWeakens(p, q, lo, hi - 1);
    }
  }

  lemma {:induction false} NoneInRange(p: int -> bool, lo: int, hi: int)
    requires forall x :: lo <= x < hi ==> !p(x)
    ensures Count(p, lo, hi) == 0 && List(p, lo, hi) == []
    decreases hi - lo
  {
    if lo < hi {
      NoneInRange(p, lo, hi - 1);
    }
  }

  lemma {:induction false} AllInRange(p: int -> bool, lo: int, hi: int)
    requires lo <= hi && forall x :: lo <= x < hi ==> p(x)
    ensures Count(p, lo, hi) == hi - lo
    decreases hi - lo
  {
    if lo < hi {
      AllInRange(p, lo, hi - 1);
    }
  }

  /** When exactly the integers from `cut` on match. */
  lemma TailInRange(p: int -> bool, lo: int, cut: int, hi: int)
    requires lo <= cut <= hi && forall x :: lo <= x < hi ==> (p(x) <==> cut <= x)
    ensures Count(p, lo, hi) == hi - cut
  {
    CountSplits(p, lo, cut, hi);
    NoneInRange(p, lo, cut);
    AllInRange(p, cut, hi);
  }

  lemma {:induction false} ListSplits(p: int -> bool, lo: int, mid: int, hi: int)
    requires lo <= mid <= hi
    ensures List(p, lo, hi) == List(p, lo, mid) + List(p, mid, hi)
    decreases hi - mid
  {
    if mid < hi {
      ListSplits(p, lo, mid, hi - 1);
    }
  }

  lemma SoleMatch(p: int -> bool, lo: int, hi: int) returns (z: int)
    requires Count(p, lo, hi) == 1
    ensures lo <= z < hi && p(z)
    ensures forall x :: lo <= x < hi && p(x) ==> x == z
  {
    var q := List(p, lo, hi);
    ListMembers(p, lo, hi);
    z := q[0];
    assert z in q;
    forall x | lo <= x < hi && p(x) ensures x == z {
      assert x in q;
    }
  }

  /** A range that holds no match in `[mid, hi)` lists and counts as `[lo, mid)` does. */
  lemma NoneAfter(p: int -> bool, lo: int, mid: int, hi: int)
    requires lo <= mid <= hi && forall x :: mid <= x < hi ==> !p(x)
    ensures Count(p, lo, hi) == Count(p, lo, mid)
    ensures List(p, lo, hi) == List(p, lo, mid)
  {
    CountSplits(p, lo, mid, hi);
    ListSplits(p, lo, mid, hi);
    NoneInRange(p, mid, hi);
  }

  /** Counting below a match and below a later one: the counts differ by at least one. */
  /** A stretch without matches at its end, whether or not it starts below `lo`. */
  lemma NoneBeyond(p: int -> bool, lo: int, mid: int, hi: int)
    requires mid <= hi && forall x :: mid <= x < hi ==> !p(x)
    ensures Count(p, lo, hi) == Count(p, lo, mid) && List(p, lo, hi) == List(p, lo, mid)
  {
    if lo <= mid {
      NoneAfter(p, lo, mid, hi);
    } else {
      NoneInRange(p, lo, hi);
    }
  }

  lemma CountGrows(p: int -> bool, lo: int, a: int, b: int)
    requires lo <= a <= b
    ensures Count(p, lo, a) <= Count(p, lo, b)
    ensures a < b && p(a) ==> Count(p, lo, a) < Count(p, lo, b)
  {
    CountSplits(p, lo, a, b);
    if a < b && p(a) {
      CountSplits(p, a, a + 1, b);
    }
  }

  /** The entry at `i` has exactly `i` matches before it and the rest after it. */
  lemma {:induction false} RankIsIndex(p: int -> bool, lo: int, hi: int, i: nat)
    requires i < Count(p, lo, hi)
    ensures lo <= List(p, lo, hi)[i] < hi && p(List(p, lo, hi)[i])
    ensures Count(p, lo, List(p, lo, hi)[i]) == i
    ensures Count(p, List(p, lo, hi)[i] + 1, hi) == Count(p, lo, hi) - 1 - i
    decreases hi - lo
  {
    if i < Count(p, lo, hi - 1) {
      RankIsIndex(p, lo, hi - 1, i);
    }
  }

  /** The converse: a match is listed at the index its rank names. */
  lemma IndexIsRank(p: int -> bool, lo: int, hi: int, x: int)
    requires lo <= x < hi && p(x)
    ensures Count(p, lo, x) < Count(p, lo, hi)
    ensures List(p, lo, hi)[Count(p, lo, x)] == x
    ensures Count(p, lo, hi) == Count(p, lo, x) + 1 + Count(p, x + 1, hi)
  {
    ListSplits(p, lo, x + 1, hi);
    CountSplits(p, lo, x + 1, hi);
  }

  /** An increasing sequence is determined by its members. */
  lemma {:induction false} ListingIsUnique(a: seq<int>, b: seq<int>)
    requires Increasing(a) && Increasing(b)
    requires forall x :: x in a <==> x in b
    ensures a == b
    decreases |a|
  {
    assert b != [] ==> b[0] in b;
    if a != [] {
      assert a[0] in a && a[0] in b;
      assert b[0] in a;
      assert a[0] == b[0];
      forall x ensures x in a[1..] <==> x in b[1..] {
        if x in a[1..] {
          var i :| 1 <= i < |a| && a[i] == x;
          assert x in b && x != b[0];
        }
        if x in b[1..] {
          var i :| 1 <= i < |b| && b[i] == x;
          assert x in a && x != a[0];
        }
      }
      ListingIsUnique(a[1..], b[1..]);
      assert a == [a[0]] + a[1..] && b == [b[0]] + b[1..];
    }
  }

  lemma InsertedIsIncreasing(q: seq<int>, i: nat, x: int)
    requires Increasing(q) && i <= |q| && x !in q
    requires forall j :: 0 <= j < i ==> q[j] < x
    requires i < |q| ==> x <= q[i]
    ensures Increasing(q[..i] + [x] + q[i..])
  {
    var r := q[..i] + [x] + q[i..];
    assert forall j :: 0 <= j < |r| ==> r[j] == if j < i then q[j] else if j == i then x else q[j - 1];
    assert i < |q| ==> q[i] in q && x < q[i];
  }

  lemma InsertedMembers(q: seq<int>, i: nat, x: int)
    requires i <= |q|
    ensures forall y :: y in q[..i] + [x] + q[i..] <==> y in q || y == x
  {
    assert q == q[..i] + q[i..];
  }

  /** Inserts `x` into an increasing sequence that does not hold it. */
  method Insert(q: seq<int>, x: int) returns (r: seq<int>)
    requires Increasing(q) && x !in q
    ensures Increasing(r)
    ensures forall y :: y in r <==> y in q || y == x
  {
    var i := 0;
    while i < |q| && q[i] < x
      invariant 0 <= i <= |q|
      invariant forall j :: 0 <= j < i ==> q[j] < x
    {
      i := i + 1;
    }
    r := q[..i] + [x] + q[i..];
    InsertedIsIncreasing(q, i, x);
    InsertedMembers(q, i, x);
  }
}
