/** `andrews_version`: the single-pass builder with one fixed separating
    line through the two endpoints. Every middle point joins exactly one
    chain; the upper chain pops on a strict left turn, the lower chain on
    its negation; the right endpoint is appended to the upper chain only. */
module FixedLine {
  import opened Geometry
  import opened Seqs
  import opened Ordering
  import opened Chains
  import opened Preprocess

  /** P[1:len(P)-1]: the points strictly between the two endpoints, and
      none when the list has a single point. */
  function Middle(S: seq<Point>): (m: seq<Point>)
    ensures |S| >= 2 ==> S == [S[0]] + m + [S[|S| - 1]]
    ensures |S| <= 1 ==> m == []
  {
    if |S| >= 2 then S[1..|S| - 1] else []
  }

  /** Lines 75-103: the y-range fast path, then the line through p0 and pn.
      True sends p to the upper chain. */
  function GoesUpper(p0: Point, pn: Point, p: Point): bool
    requires p0.x <= pn.x
  {
    if p.y > Max(p0.y, pn.y) then true
    else if p.y < Min(p0.y, pn.y) then false
    else p.y > LineThrough(p0, pn).At(p.x)
  }

  /** The fast path is only a shortcut: for any point between the endpoints
      in x, the y-range tests decide exactly as the line test does, because
      the line stays within the endpoints' y-range there. */
  lemma FastPathAgreesWithLine(p0: Point, pn: Point, p: Point)
    requires p0.x <= p.x <= pn.x
    ensures GoesUpper(p0, pn, p) <==> p.y > LineThrough(p0, pn).At(p.x)
  {
    var l := LineThrough(p0, pn);
    LineStaysInRange(p0, pn, l.k, p.x);
  }

  /** The points of ps, in order, that GoesUpper sends to the upper chain
      (side == true) or to the lower chain (side == false). */
  function Side(p0: Point, pn: Point, ps: seq<Point>, side: bool): (r: seq<Point>)
    requires p0.x <= pn.x
    ensures IsSubseq(r, ps)
    ensures forall q :: q in r ==> q in ps && GoesUpper(p0, pn, q) == side
    decreases |ps|
  {
    if ps == [] then []
    else
      var ps', x := ps[..|ps| - 1], ps[|ps| - 1];
      var r' := Side(p0, pn, ps', side);
      assert ps == ps' + [x];
      if GoesUpper(p0, pn, x) == side then
        SubseqAppend(r', ps', x);
        r' + [x]
      else
        SubseqExtend(r', ps', x);
        r'
  }

  lemma SideSnoc(p0: Point, pn: Point, ps: seq<Point>, x: Point, side: bool)
    requires p0.x <= pn.x
    ensures Side(p0, pn, ps + [x], side) ==
      if GoesUpper(p0, pn, x) == side then Side(p0, pn, ps, side) + [x] else Side(p0, pn, ps, side)
  {
    assert (ps + [x])[..|ps|] == ps;
  }

  /** Each point goes to exactly one chain: the two sides split ps. */
  lemma {:induction false} SidesPartition(p0: Point, pn: Point, ps: seq<Point>)
    requires p0.x <= pn.x
    ensures multiset(Side(p0, pn, ps, true)) + multiset(Side(p0, pn, ps, false)) == multiset(ps)
    decreases |ps|
  {
    if ps != [] {
      var ps', x := ps[..|ps| - 1], ps[|ps| - 1];
      SidesPartition(p0, pn, ps');
      SidesSnoc(p0, pn, ps', x);
      assert ps == ps' + [x];
    }
  }

  /** One more point lands on exactly one side. */
  lemma SidesSnoc(p0: Point, pn: Point, ps: seq<Point>, x: Point)
    requires p0.x <= pn.x
    ensures multiset(Side(p0, pn, ps + [x], true)) + multiset(Side(p0, pn, ps + [x], false))
      == multiset(Side(p0, pn, ps, true)) + multiset(Side(p0, pn, ps, false)) + multiset{x}
  {
    SideSnoc(p0, pn, ps, x, true);
    SideSnoc(p0, pn, ps, x, false);
  }

  /** The slope denominators pn.x - p.x + EPS of lines 79, 146, 166 and 176
      are positive for every point p of a sorted list: no division by zero
      can happen. */
  lemma SlopeDenominatorPositive(S: seq<Point>, j: int)
    requires Sorted(S) && 0 <= j < |S|
    ensures S[|S| - 1].x - S[j].x + EPS > 0.0
  {
    SortedBounds(S, j);
  }

  /** For a sorted list, the middle points on the upper side are exactly
      those strictly above the line through the endpoints. */
  lemma SortedSides(S: seq<Point>, j: int)
    requires Sorted(S) && 1 <= j < |S| - 1
    ensures GoesUpper(S[0], S[|S| - 1], S[j]) <==> S[j].y > LineThrough(S[0], S[|S| - 1]).At(S[j].x)
  {
    SortedBounds(S, j);
    FastPathAgreesWithLine(S[0], S[|S| - 1], S[j]);
  }

  function FixedUpperInput(S: seq<Point>): seq<Point>
    requires |S| >= 1 && Sorted(S)
  {
    [S[0]] + Side(S[0], S[|S| - 1], Middle(S), true)
  }

  function FixedLowerInput(S: seq<Point>): seq<Point>
    requires |S| >= 1 && Sorted(S)
  {
    [S[0]] + Side(S[0], S[|S| - 1], Middle(S), false)
  }

  /** Lines 83-122: the upper chain, with pn pushed onto it. */
  function FixedUpper(S: seq<Point>): seq<Point>
    requires |S| >= 1 && Sorted(S)
  {
    Push(PopOnLeft, Scan(PopOnLeft, FixedUpperInput(S)), S[|S| - 1])
  }

  /** Lines 83-120: the lower chain, popped against pn, which it never
      receives. */
  function FixedLower(S: seq<Point>): seq<Point>
    requires |S| >= 1 && Sorted(S)
  {
    Pop(PopOnNonLeft, Scan(PopOnNonLeft, FixedLowerInput(S)), S[|S| - 1])
  }

  /** Lines 125-128. */
  function FixedHull(S: seq<Point>): seq<Point>
    requires |S| >= 1 && Sorted(S)
  {
    FixedUpper(S) + Reverse(FixedLower(S))
  }

  /** The two chains. The upper one is a subsequence of p0, the upper side
      and pn; it starts with p0, ends with pn and has no strict left turn
      (collinear points stay). The lower one is a subsequence of p0 and the
      lower side; it starts with p0, every triple in it is a strict left
      turn (collinear points are popped), and so is the turn from its last
      two points to pn. */
  lemma FixedChains(S: seq<Point>)
    requires |S| >= 1 && Sorted(S)
    ensures var u, l, p0, pn := FixedUpper(S), FixedLower(S), S[0], S[|S| - 1];
      && IsSubseq(u, FixedUpperInput(S) + [pn]) && IsSubseq(l, FixedLowerInput(S))
      && |u| >= 2 && u[0] == p0 && u[|u| - 1] == pn
      && |l| >= 1 && l[0] == p0
      && Stable(PopOnLeft, u) && Stable(PopOnNonLeft, l)
      && (|l| >= 2 ==> IsLeftTurn(l[|l| - 2], l[|l| - 1], pn))
  {
    FixedUpperFacts(S);
    FixedLowerFacts(S);
  }

  lemma FixedUpperFacts(S: seq<Point>)
    requires |S| >= 1 && Sorted(S)
    ensures var u, pn := FixedUpper(S), S[|S| - 1];
      && IsSubseq(u, FixedUpperInput(S) + [pn])
      && |u| >= 2 && u[0] == S[0] && u[|u| - 1] == pn
      && Stable(PopOnLeft, u)
  {
    var U, pn := FixedUpperInput(S), S[|S| - 1];
    assert U != [] && U[0] == S[0];
    ScanPushFacts(PopOnLeft, U, pn);
    assert FixedUpper(S) == Push(PopOnLeft, Scan(PopOnLeft, U), pn);
  }

  /** A lower chain scanned over L and popped against pn. */
  lemma LowerScanFacts(L: seq<Point>, pn: Point)
    requires L != []
    ensures var l := Pop(PopOnNonLeft, Scan(PopOnNonLeft, L), pn);
      && IsSubseq(l, L) && |l| >= 1 && l[0] == L[0] && Stable(PopOnNonLeft, l)
      && (|l| >= 2 ==> IsLeftTurn(l[|l| - 2], l[|l| - 1], pn))
  {
    ScanFacts(PopOnNonLeft, L);
    LowerPopFacts(Scan(PopOnNonLeft, L), pn, L);
  }

  lemma FixedLowerFacts(S: seq<Point>)
    requires |S| >= 1 && Sorted(S)
    ensures var l, pn := FixedLower(S), S[|S| - 1];
      && IsSubseq(l, FixedLowerInput(S))
      && |l| >= 1 && l[0] == S[0]
      && Stable(PopOnNonLeft, l)
      && (|l| >= 2 ==> IsLeftTurn(l[|l| - 2], l[|l| - 1], pn))
  {
    var L, pn := FixedLowerInput(S), S[|S| - 1];
    assert L != [] && L[0] == S[0];
    LowerScanFacts(L, pn);
  }

  /** For two or more points both chain inputs, and so both chains, are
      subsequences of the sorted list itself. */
  lemma FixedChainsInList(S: seq<Point>)
    requires |S| >= 2 && Sorted(S)
    ensures IsSubseq(FixedUpper(S), S) && IsSubseq(FixedLower(S), S)
  {
    FixedChains(S);
    InputsInList(S);
    SubseqTrans(FixedUpper(S), FixedUpperInput(S) + [S[|S| - 1]], S);
    SubseqTrans(FixedLower(S), FixedLowerInput(S), S);
  }

  lemma InputsInList(S: seq<Point>)
    requires |S| >= 2 && Sorted(S)
    ensures IsSubseq(FixedUpperInput(S) + [S[|S| - 1]], S) && IsSubseq(FixedLowerInput(S), S)
  {
    var p0, pn, M := S[0], S[|S| - 1], Middle(S);
    var U, L := Side(p0, pn, M, true), Side(p0, pn, M, false);
    SubseqPrepend(p0, U, M);
    SubseqAppend([p0] + U, [p0] + M, pn);
    SubseqPrepend(p0, L, M);
    SubseqExtend([p0] + L, [p0] + M, pn);
  }

  /** The hull starts and ends with p0, has pn as the last point of the
      upper chain (the only chain pn is appended to), has |upper| + |lower|
      points, and holds only points of the list. */
  lemma FixedHullFacts(S: seq<Point>)
    requires |S| >= 1 && Sorted(S)
    ensures var u, l, h := FixedUpper(S), FixedLower(S), FixedHull(S);
      && |h| == |u| + |l| && |h| >= 3
      && h[0] == S[0] && h[|h| - 1] == S[0] && h[|u| - 1] == S[|S| - 1]
      && (forall q :: q in h ==> q in S)
  {
    FixedChains(S);
    InputMembers(S);
    var u, l := FixedUpper(S), FixedLower(S);
    SubseqMultiset(u, FixedUpperInput(S) + [S[|S| - 1]]);
    SubseqMultiset(l, FixedLowerInput(S));
    ReverseMultiset(l);
    JoinMembers(S, u, l);
  }

  lemma InputMembers(S: seq<Point>)
    requires |S| >= 1 && Sorted(S)
    ensures forall q :: q in FixedUpperInput(S) + [S[|S| - 1]] ==> q in S
    ensures forall q :: q in FixedLowerInput(S) ==> q in S
  {
    var M := Middle(S);
    assert forall q :: q in M ==> q in S;
  }

  lemma JoinMembers(S: seq<Point>, u: seq<Point>, l: seq<Point>)
    requires forall q :: q in u ==> q in S
    requires forall q :: q in l ==> q in S
    ensures forall q :: q in u + Reverse(l) ==> q in S
  {
    ReverseMultiset(l);
  }

  /** One iteration of the loop: the chain of the side p belongs to grows
      by one push of p, the other chain is unchanged. */
  lemma SideStep(rule: PopRule, side: bool, p0: Point, pn: Point, ps: seq<Point>, p: Point)
    requires p0.x <= pn.x
    ensures var C := [p0] + Side(p0, pn, ps, side);
      Scan(rule, [p0] + Side(p0, pn, ps + [p], side))
        == if GoesUpper(p0, pn, p) == side then Push(rule, Scan(rule, C), p) else Scan(rule, C)
  {
    var C := [p0] + Side(p0, pn, ps, side);
    SideSnoc(p0, pn, ps, p, side);
    if GoesUpper(p0, pn, p) == side {
      assert [p0] + Side(p0, pn, ps + [p], side) == C + [p];
      ScanSnoc(rule, C, p);
    }
  }

  /** Lines 67-113: the two chains over the middle points, each point
      tested against the endpoints' y-range, then against the line. */
  method FixedSides(S: seq<Point>) returns (upper: seq<Point>, lower: seq<Point>)
    requires |S| >= 1 && Sorted(S)
    ensures upper == Scan(PopOnLeft, FixedUpperInput(S))
    ensures lower == Scan(PopOnNonLeft, FixedLowerInput(S))
  {
    upper, lower := [], [];
    var p0, pn := S[0], S[|S| - 1];
    var miny, maxy := Min(p0.y, pn.y), Max(p0.y, pn.y);
    var line := LineThrough(p0, pn);
    upper := upper + [p0];
    lower := lower + [p0];
    assert upper == Scan(PopOnLeft, [p0]) by { assert [p0][..0] == []; }
    assert lower == Scan(PopOnNonLeft, [p0]) by { assert [p0][..0] == []; }

    var j := 1;
    while j < |S| - 1
      invariant 1 <= j <= |S|
      invariant j <= |S| - 1 || |S| == 1
      invariant upper == Scan(PopOnLeft, [p0] + Side(p0, pn, S[1..j], true))
      invariant lower == Scan(PopOnNonLeft, [p0] + Side(p0, pn, S[1..j], false))
    {
      var p := S[j];
      assert S[1..j + 1] == S[1..j] + [p];
      SideStep(PopOnLeft, true, p0, pn, S[1..j], p);
      SideStep(PopOnNonLeft, false, p0, pn, S[1..j], p);
      if p.y > maxy {
        upper := PushOnto(PopOnLeft, upper, p);
      } else if p.y < miny {
        lower := PushOnto(PopOnNonLeft, lower, p);
      } else if p.y > line.At(p.x) {
        upper := PushOnto(PopOnLeft, upper, p);
      } else {
        lower := PushOnto(PopOnNonLeft, lower, p);
      }
      j := j + 1;
    }
    assert S[1..j] == Middle(S);
  }

  /** `andrews_version` after the preprocessing, over a list the caller has
      sorted: lines 67-128. */
  method BuildFixedLine(S: seq<Point>) returns (hull: seq<Point>)
    requires |S| >= 1 && Sorted(S)
    ensures hull == FixedHull(S)
    ensures hull[0] == S[0] && hull[|hull| - 1] == S[0]
    ensures forall q :: q in hull ==> q in S
  {
    var upper, lower := FixedSides(S);
    var pn := S[|S| - 1];
    upper := PopFrom(PopOnLeft, upper, pn);
    lower := PopFrom(PopOnNonLeft, lower, pn);
    upper := upper + [pn];
    lower := Reverse(lower);
    hull := upper + lower;
    FixedHullFacts(S);
  }

  /** `andrews_version(P, filtered)`. The filter needs a non-empty list
      (`min()` fails otherwise) and, since it keeps the extreme points,
      leaves one; without it the caller's list is sorted in place and an
      empty one makes `P[0]` fail. */
  method AndrewsVersion(P: array<Point>, filtered: bool) returns (r: Result<seq<Point>>)
    modifies P
    ensures filtered ==> P[..] == old(P[..])
    ensures !filtered ==> P[..] == SortPoints(old(P[..]))
    ensures P.Length == 0 ==> r == Err(if filtered then EmptyArgument else IndexOutOfRange)
    ensures filtered && P.Length >= 1 ==> r == Ok(FixedHull(SortPoints(Prefilter(old(P[..])))))
    ensures !filtered && P.Length >= 1 ==> r == Ok(FixedHull(SortPoints(old(P[..]))))
    ensures r.Ok? ==>
      var h := r.value; |h| >= 1 && h[0] == MinLex(old(P[..])) && h[|h| - 1] == MinLex(old(P[..]))
    ensures r.Ok? ==> forall q :: q in r.value ==> q in old(P[..])
  {
    var S: seq<Point>;
    if filtered {
      if P.Length == 0 {
        return Err(EmptyArgument);
      }
      var ps := P[..];
      S := SortPoints(Prefilter(ps));
      PrefilterKeepsEnds(ps);
      SubseqMultiset(Prefilter(ps), ps);
      SameMembers(S, Prefilter(ps));
    } else {
      SortInPlace(P);
      S := P[..];
      if P.Length == 0 {
        return Err(IndexOutOfRange);
      }
      SortedHeadIsMin(old(P[..]));
      SameMembers(S, old(P[..]));
    }
    var hull := BuildFixedLine(S);
    r := Ok(hull);
  }
}
