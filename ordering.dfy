/** Point ordering: the lexicographic sort the builders start with, and the
    four extreme points the quadrilateral filter is built from. */
module Ordering {
  import opened Geometry

  /** Non-decreasing in Python's tuple order. */
  predicate Sorted(s: seq<Point>) {
    forall i, j :: 0 <= i < j < |s| ==> LexLe(s[i], s[j])
  }

  /** Inserts p into a sorted sequence. */
  function Insert(p: Point, s: seq<Point>): (r: seq<Point>)
    requires Sorted(s)
    ensures Sorted(r)
    ensures multiset(r) == multiset(s) + multiset{p}
    decreases |s|
  {
    if s == [] then [p]
    else if LexLe(p, s[0]) then [p] + s
    else
      var rest := Insert(p, s[1..]);
      assert s == [s[0]] + s[1..];
      assert multiset(s) == multiset{s[0]} + multiset(s[1..]);
      InsertBelowHead(p, s, rest);
      SortedCons(s[0], rest);
      [s[0]] + rest
  }

  /** Inserting p, which exceeds the head of s, into the tail of s leaves
      only points the head does not exceed. */
  lemma InsertBelowHead(p: Point, s: seq<Point>, rest: seq<Point>)
    requires Sorted(s) && |s| >= 1 && !LexLe(p, s[0])
    requires multiset(rest) == multiset(s[1..]) + multiset{p}
    ensures forall q :: q in rest ==> LexLe(s[0], q)
  {
    SameMembers(rest, s[1..] + [p]);
    forall q | q in rest ensures LexLe(s[0], q) {
      if q != p {
        var i :| 0 <= i < |s[1..]| && s[1..][i] == q;
        assert s[1..][i] == s[i + 1];
      }
    }
  }

  /** A point no greater than every element of a sorted list can head it. */
  lemma SortedCons(x: Point, t: seq<Point>)
    requires Sorted(t) && forall q :: q in t ==> LexLe(x, q)
    ensures Sorted([x] + t)
  {
    forall i, j | 0 <= i < j < |[x] + t|
      ensures LexLe(([x] + t)[i], ([x] + t)[j])
    {
      if i > 0 {
        assert ([x] + t)[i] == t[i - 1] && ([x] + t)[j] == t[j - 1];
      } else {
        assert ([x] + t)[j] in t;
      }
    }
  }

  /** Sequences with the same multiset have the same members. */
  lemma SameMembers<T>(a: seq<T>, b: seq<T>)
    requires multiset(a) == multiset(b)
    ensures forall q :: q in a <==> q in b
  {
    forall q ensures q in a <==> q in b {
      assert q in a <==> q in multiset(a);
      assert q in b <==> q in multiset(b);
    }
  }

  /** The sorted permutation of s (what `list.sort` and `sorted` produce). */
  function SortPoints(s: seq<Point>): (r: seq<Point>)
    ensures Sorted(r)
    ensures multiset(r) == multiset(s)
    ensures |r| == |s|
    decreases |s|
  {
    if s == [] then []
    else
      assert s == [s[0]] + s[1..];
      Insert(s[0], SortPoints(s[1..]))
  }

  /** Two sorted sequences with the same elements are equal: the sorted
      order of a point list is unique, so SortPoints agrees with whatever
      sorting algorithm the runtime uses. */
  lemma {:induction false} SortedUnique(a: seq<Point>, b: seq<Point>)
    requires Sorted(a) && Sorted(b) && multiset(a) == multiset(b)
    ensures a == b
    decreases |a|
  {
    assert |b| == |a| by { assert |multiset(a)| == |a| && |multiset(b)| == |b|; }
    if a != [] {
      SameMembers(a, b);
      HeadIsLeast(a, b[0]);
      HeadIsLeast(b, a[0]);
      assert a[0] == b[0];
      TailSorted(a);
      TailSorted(b);
      assert a == [a[0]] + a[1..] && b == [b[0]] + b[1..];
      assert multiset(a[1..]) == multiset(a) - multiset{a[0]};
      assert multiset(b[1..]) == multiset(b) - multiset{b[0]};
      SortedUnique(a[1..], b[1..]);
    }
  }

  lemma HeadIsLeast(s: seq<Point>, x: Point)
    requires Sorted(s) && x in s
    ensures LexLe(s[0], x)
  {
    var i :| 0 <= i < |s| && s[i] == x;
    assert i == 0 || LexLe(s[0], s[i]);
  }

  lemma TailSorted(s: seq<Point>)
    requires Sorted(s) && |s| >= 1
    ensures Sorted(s[1..])
  {
    forall i, j | 0 <= i < j < |s[1..]| ensures LexLe(s[1..][i], s[1..][j]) {
      assert s[1..][i] == s[i + 1] && s[1..][j] == s[j + 1];
    }
  }

  /** SortPoints is the only sorted permutation. */
  lemma SortPointsIsTheSortedPermutation(s: seq<Point>, r: seq<Point>)
    requires Sorted(r) && multiset(r) == multiset(s)
    ensures r == SortPoints(s)
  {
    SortedUnique(r, SortPoints(s));
  }

  /** The first point and the last point of a sorted list bound every
      point's x-coordinate. */
  lemma SortedBounds(s: seq<Point>, i: int)
    requires Sorted(s) && 0 <= i < |s|
    ensures LexLe(s[0], s[i]) || i == 0
    ensures LexLe(s[i], s[|s| - 1]) || i == |s| - 1
    ensures s[0].x <= s[i].x <= s[|s| - 1].x
  {
  }

  /** `min(P)`: the lexicographically smallest point. */
  function MinLex(ps: seq<Point>): (r: Point)
    requires |ps| >= 1
    ensures r in ps
    ensures forall q :: q in ps ==> LexLe(r, q)
    decreases |ps|
  {
    if |ps| == 1 then ps[0]
    else
      var m := MinLex(ps[..|ps| - 1]);
      assert ps == ps[..|ps| - 1] + [ps[|ps| - 1]];
      if LexLt(ps[|ps| - 1], m) then ps[|ps| - 1] else m
  }

  /** `max(P)`: the lexicographically largest point. */
  function MaxLex(ps: seq<Point>): (r: Point)
    requires |ps| >= 1
    ensures r in ps
    ensures forall q :: q in ps ==> LexLe(q, r)
    decreases |ps|
  {
    if |ps| == 1 then ps[0]
    else
      var m := MaxLex(ps[..|ps| - 1]);
      assert ps == ps[..|ps| - 1] + [ps[|ps| - 1]];
      if LexLt(m, ps[|ps| - 1]) then ps[|ps| - 1] else m
  }

  /** Index of `min(P, key=lambda p: p[1])`: the FIRST point of least y. */
  function MinYIndex(ps: seq<Point>): (i: nat)
    requires |ps| >= 1
    ensures i < |ps|
    ensures forall j :: 0 <= j < |ps| ==> ps[i].y <= ps[j].y
    ensures forall j :: 0 <= j < i ==> ps[j].y > ps[i].y
    decreases |ps|
  {
    if |ps| == 1 then 0
    else
      var m := MinYIndex(ps[..|ps| - 1]);
      if ps[|ps| - 1].y < ps[m].y then |ps| - 1 else m
  }

  /** Index of `max(P, key=lambda p: p[1])`: the FIRST point of greatest y. */
  function MaxYIndex(ps: seq<Point>): (i: nat)
    requires |ps| >= 1
    ensures i < |ps|
    ensures forall j :: 0 <= j < |ps| ==> ps[j].y <= ps[i].y
    ensures forall j :: 0 <= j < i ==> ps[j].y < ps[i].y
    decreases |ps|
  {
    if |ps| == 1 then 0
    else
      var m := MaxYIndex(ps[..|ps| - 1]);
      if ps[|ps| - 1].y > ps[m].y then |ps| - 1 else m
  }

  function MinY(ps: seq<Point>): Point
    requires |ps| >= 1
  {
    ps[MinYIndex(ps)]
  }

  function MaxY(ps: seq<Point>): Point
    requires |ps| >= 1
  {
    ps[MaxYIndex(ps)]
  }

  /** The smallest point of a sorted list is its first one. */
  lemma SortedHeadIsMin(ps: seq<Point>)
    requires |ps| >= 1
    ensures var s := SortPoints(ps); s[0] == MinLex(ps) && s[|s| - 1] == MaxLex(ps)
  {
    SortedEnds(SortPoints(ps), ps);
  }

  lemma SortedEnds(s: seq<Point>, ps: seq<Point>)
    requires |ps| >= 1 && Sorted(s) && multiset(s) == multiset(ps)
    ensures |s| == |ps| && s[0] == MinLex(ps) && s[|s| - 1] == MaxLex(ps)
  {
    assert |multiset(s)| == |s| && |multiset(ps)| == |ps|;
    SameMembers(s, ps);
    var m, mx := MinLex(ps), MaxLex(ps);
    HeadIsLeast(s, m);
    assert s[0] in ps && s[|s| - 1] in ps;
    assert LexLe(m, s[0]) && LexLe(s[|s| - 1], mx);
    var j :| 0 <= j < |s| && s[j] == mx;
    assert LexLe(s[j], s[|s| - 1]) || j == |s| - 1;
  }

  /** A list drawn from ps that keeps ps's smallest and largest points has
      the same smallest and largest points. */
  lemma KeptExtremes(r: seq<Point>, ps: seq<Point>)
    requires |ps| >= 1 && forall q :: q in r ==> q in ps
    requires MinLex(ps) in r && MaxLex(ps) in r
    ensures |r| >= 1 && MinLex(r) == MinLex(ps) && MaxLex(r) == MaxLex(ps)
  {
    var m, mr := MinLex(ps), MinLex(r);
    assert LexLe(mr, m) && LexLe(m, mr);
    var x, xr := MaxLex(ps), MaxLex(r);
    assert LexLe(x, xr) && LexLe(xr, x);
  }

  /** `P.sort()`: sorts the caller's list in place. */
  method SortInPlace(a: array<Point>)
    modifies a
    ensures a[..] == SortPoints(old(a[..]))
  {
    var s := SortPoints(a[..]);
    forall i | 0 <= i < a.Length {
      a[i] := s[i];
    }
    assert a[..] == s;
  }
}
