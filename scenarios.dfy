/** Worked inputs that pin down what the builders return: the hull runs
    clockwise from the smallest point and comes back to it. */
module Scenarios {
  import opened Geometry
  import opened Seqs
  import opened Chains
  import opened Ordering
  import opened TwoPass
  import opened FixedLine
  import opened AdaptiveLine

  /** A pop loop that stops at once. */
  lemma PopKeeps(rule: PopRule, c: seq<Point>, p: Point)
    requires |c| <= 1 || !Pops(rule, c[|c| - 2], c[|c| - 1], p)
    ensures Pop(rule, c, p) == c
  {
  }

  /** One point, or two, are never popped while scanning. */
  lemma ScanOne(rule: PopRule, a: Point)
    ensures Scan(rule, [a]) == [a]
  {
    ScanSnoc(rule, [], a);
    assert [] + [a] == [a];
  }

  lemma ScanTwo(rule: PopRule, a: Point, b: Point)
    ensures Scan(rule, [a, b]) == [a, b]
  {
    ScanOne(rule, a);
    ScanSnoc(rule, [a], b);
    assert [a] + [b] == [a, b];
    PushKeeps(rule, [a], b);
  }

  /** A push that pops nothing. */
  lemma PushKeeps(rule: PopRule, c: seq<Point>, p: Point)
    requires |c| <= 1 || !Pops(rule, c[|c| - 2], c[|c| - 1], p)
    ensures Push(rule, c, p) == c + [p]
  {
  }

  /** A push that pops exactly one point. */
  lemma PushPopsOne(rule: PopRule, c: seq<Point>, p: Point)
    requires |c| >= 2 && Pops(rule, c[|c| - 2], c[|c| - 1], p)
    requires |c| == 2 || !Pops(rule, c[|c| - 3], c[|c| - 2], p)
    ensures Push(rule, c, p) == c[..|c| - 1] + [p]
  {
    var c' := c[..|c| - 1];
    assert c'[|c'| - 1] == c[|c| - 2];
    assert |c'| >= 2 ==> c'[|c'| - 2] == c[|c| - 3];
    assert Pop(rule, c', p) == c';
    assert Pop(rule, c, p) == Pop(rule, c', p);
  }

  /** A push that pops exactly two points. */
  lemma PushPopsTwo(rule: PopRule, c: seq<Point>, p: Point)
    requires |c| >= 3 && Pops(rule, c[|c| - 2], c[|c| - 1], p) && Pops(rule, c[|c| - 3], c[|c| - 2], p)
    requires |c| == 3 || !Pops(rule, c[|c| - 4], c[|c| - 3], p)
    ensures Push(rule, c, p) == c[..|c| - 2] + [p]
  {
    var c' := c[..|c| - 1];
    assert c'[|c'| - 1] == c[|c| - 2] && c'[|c'| - 2] == c[|c| - 3];
    assert |c'| >= 3 ==> c'[|c'| - 3] == c[|c| - 4];
    assert Pop(rule, c, p) == Pop(rule, c', p);
    PushPopsOne(rule, c', p);
    assert c'[..|c'| - 1] == c[..|c| - 2];
  }

  /** Four points that push without popping, then a fifth that pops the
      third and the fourth. */
  lemma ScanFivePopsTwo(rule: PopRule, a: Point, b: Point, e: Point, c: Point, d: Point)
    requires !Pops(rule, a, b, e) && !Pops(rule, b, e, c)
    requires Pops(rule, e, c, d) && Pops(rule, b, e, d) && !Pops(rule, a, b, d)
    ensures Scan(rule, [a, b, e, c, d]) == [a, b, d]
  {
    ScanFourKeeps(rule, a, b, e, c);
    ScanSnoc(rule, [a, b, e, c], d);
    assert [a, b, e, c] + [d] == [a, b, e, c, d];
    PushPopsTwo(rule, [a, b, e, c], d);
    assert [a, b, e, c][..2] == [a, b];
  }

  /** The square with side 10 and its centre, sorted. */
  function SquareWithCentre(): seq<Point> {
    [Point(0.0, 0.0), Point(0.0, 10.0), Point(5.0, 5.0), Point(10.0, 0.0), Point(10.0, 10.0)]
  }

  /** `public_version` on the square with its centre returns the four
      corners clockwise from (0, 0), closes the polygon by repeating (0, 0),
      and drops the centre. */
  lemma SquareTwoPass()
    ensures TwoPassHull(SquareWithCentre()) ==
      [Point(0.0, 0.0), Point(0.0, 10.0), Point(10.0, 10.0), Point(10.0, 0.0), Point(0.0, 0.0)]
  {
    SquareUpperTurns();
    SquareUpperPops();
    SquareLowerTurns();
    SquareLowerPops();
    TwoPassOfSquare(Point(0.0, 0.0), Point(0.0, 10.0), Point(5.0, 5.0), Point(10.0, 0.0), Point(10.0, 10.0));
  }

  /** Five points whose third is popped, together with the fourth, by the
      fifth on the way out, and together with the second by the first on
      the way back. */
  lemma TwoPassOfSquare(a: Point, b: Point, e: Point, c: Point, d: Point)
    requires !IsLeftTurn(a, b, e) && !IsLeftTurn(b, e, c)
    requires IsLeftTurn(e, c, d) && IsLeftTurn(b, e, d) && !IsLeftTurn(a, b, d)
    requires !IsLeftTurn(d, c, e) && !IsLeftTurn(c, e, b)
    requires IsLeftTurn(e, b, a) && IsLeftTurn(c, e, a) && !IsLeftTurn(d, c, a)
    ensures TwoPassHull([a, b, e, c, d]) == [a, b, d, c, a]
  {
    ScanFivePopsTwo(PopOnLeft, a, b, e, c, d);
    assert Reverse([a, b, e, c, d]) == [d, c, e, b, a];
    ScanFivePopsTwo(PopOnLeft, d, c, e, b, a);
    assert DropLast([a, b, d]) == [a, b];
  }

  /** The turns of the square with its centre, scanned left to right. */
  lemma SquareUpperTurns()
    ensures var a, b, e, c, d := Point(0.0, 0.0), Point(0.0, 10.0), Point(5.0, 5.0), Point(10.0, 0.0), Point(10.0, 10.0);
      !IsLeftTurn(a, b, e) && !IsLeftTurn(b, e, c) && IsLeftTurn(e, c, d)
  {
  }

  lemma SquareUpperPops()
    ensures var a, b, e, c, d := Point(0.0, 0.0), Point(0.0, 10.0), Point(5.0, 5.0), Point(10.0, 0.0), Point(10.0, 10.0);
      IsLeftTurn(b, e, d) && !IsLeftTurn(a, b, d)
  {
  }

  /** The same turns, scanned right to left. */
  lemma SquareLowerTurns()
    ensures var a, b, e, c, d := Point(0.0, 0.0), Point(0.0, 10.0), Point(5.0, 5.0), Point(10.0, 0.0), Point(10.0, 10.0);
      !IsLeftTurn(d, c, e) && !IsLeftTurn(c, e, b) && IsLeftTurn(e, b, a)
  {
  }

  lemma SquareLowerPops()
    ensures var a, b, e, c, d := Point(0.0, 0.0), Point(0.0, 10.0), Point(5.0, 5.0), Point(10.0, 0.0), Point(10.0, 10.0);
      IsLeftTurn(c, e, a) && !IsLeftTurn(d, c, a)
  {
  }

  /** An upper chain over a, b, e to which d is pushed, popping e only. */
  lemma UpperPopsLast(a: Point, b: Point, e: Point, d: Point)
    requires !IsLeftTurn(a, b, e) && IsLeftTurn(b, e, d) && !IsLeftTurn(a, b, d)
    ensures Push(PopOnLeft, Scan(PopOnLeft, [a, b, e]), d) == [a, b, d]
  {
    ScanThreeKeeps(PopOnLeft, a, b, e);
    PushPopsOne(PopOnLeft, [a, b, e], d);
    assert [a, b, e][..2] == [a, b];
  }

  /** An upper chain over a, b, c to which d is pushed, popping nothing. */
  lemma UpperKeepsAll(a: Point, b: Point, c: Point, d: Point)
    requires !IsLeftTurn(a, b, c) && !IsLeftTurn(b, c, d)
    ensures Push(PopOnLeft, Scan(PopOnLeft, [a, b, c]), d) == [a, b, c, d]
  {
    ScanThreeKeeps(PopOnLeft, a, b, c);
    PushKeeps(PopOnLeft, [a, b, c], d);
  }

  /** A lower chain over a, c popped against d: kept when a, c, d turn left. */
  lemma LowerKeepsTwo(a: Point, c: Point, d: Point)
    requires IsLeftTurn(a, c, d)
    ensures Pop(PopOnNonLeft, Scan(PopOnNonLeft, [a, c]), d) == [a, c]
  {
    ScanTwo(PopOnNonLeft, a, c);
    PopKeeps(PopOnNonLeft, [a, c], d);
  }

  /** A lower chain of p0 alone is never popped. */
  lemma LowerKeepsOne(a: Point, d: Point)
    ensures Pop(PopOnNonLeft, Scan(PopOnNonLeft, [a]), d) == [a]
  {
    ScanOne(PopOnNonLeft, a);
  }

  /** Scanning points none of which pops an earlier one. */
  lemma ScanThreeKeeps(rule: PopRule, a: Point, b: Point, c: Point)
    requires !Pops(rule, a, b, c)
    ensures Scan(rule, [a, b, c]) == [a, b, c]
  {
    ScanTwo(rule, a, b);
    ScanSnoc(rule, [a, b], c);
    assert [a, b] + [c] == [a, b, c];
    PushKeeps(rule, [a, b], c);
  }

  lemma ScanFourKeeps(rule: PopRule, a: Point, b: Point, c: Point, d: Point)
    requires !Pops(rule, a, b, c) && !Pops(rule, b, c, d)
    ensures Scan(rule, [a, b, c, d]) == [a, b, c, d]
  {
    ScanThreeKeeps(rule, a, b, c);
    ScanSnoc(rule, [a, b, c], d);
    assert [a, b, c] + [d] == [a, b, c, d];
    PushKeeps(rule, [a, b, c], d);
  }

  /** Four points on the diagonal y = x, sorted. */
  function Diagonal(): seq<Point> {
    [Point(0.0, 0.0), Point(1.0, 1.0), Point(2.0, 2.0), Point(3.0, 3.0)]
  }

  /** `public_version` keeps collinear points in both chains: on the
      diagonal every point appears on the way out and again on the way
      back. */
  lemma DiagonalTwoPass()
    ensures TwoPassHull(Diagonal()) ==
      [Point(0.0, 0.0), Point(1.0, 1.0), Point(2.0, 2.0),
       Point(3.0, 3.0), Point(2.0, 2.0), Point(1.0, 1.0), Point(0.0, 0.0)]
  {
    DiagonalCollinear();
    DiagonalCollinearBack();
    TwoPassOfCollinearFour(Point(0.0, 0.0), Point(1.0, 1.0), Point(2.0, 2.0), Point(3.0, 3.0));
  }

  /** Four points with no strict left turn either way: both chains keep
      all four. */
  lemma TwoPassOfCollinearFour(a: Point, b: Point, c: Point, d: Point)
    requires !IsLeftTurn(a, b, c) && !IsLeftTurn(b, c, d)
    requires !IsLeftTurn(d, c, b) && !IsLeftTurn(c, b, a)
    ensures TwoPassHull([a, b, c, d]) == [a, b, c, d, c, b, a]
  {
    OutwardScanOfFour(a, b, c, d);
    BackwardScanOfFour(a, b, c, d);
    assert DropLast([a, b, c, d]) == [a, b, c];
  }

  /** The upper chain of four points with no strict left turn keeps them all. */
  lemma OutwardScanOfFour(a: Point, b: Point, c: Point, d: Point)
    requires !IsLeftTurn(a, b, c) && !IsLeftTurn(b, c, d)
    ensures TwoPassUpper([a, b, c, d]) == [a, b, c, d]
  {
    ScanFourKeeps(PopOnLeft, a, b, c, d);
  }

  /** So does the lower chain, over the same points collinear backwards. */
  lemma BackwardScanOfFour(a: Point, b: Point, c: Point, d: Point)
    requires !IsLeftTurn(d, c, b) && !IsLeftTurn(c, b, a)
    ensures TwoPassLower([a, b, c, d]) == [d, c, b, a]
  {
    assert Reverse([a, b, c, d]) == [d, c, b, a];
    ScanFourKeeps(PopOnLeft, d, c, b, a);
  }

  lemma DiagonalSorted()
    ensures Sorted(Diagonal())
  {
  }

  /** `andrews_version` on four sorted points whose two middle points both
      go to the upper chain and are collinear with their neighbours there:
      the upper chain keeps them all, the lower chain is p0 alone. */
  lemma FourOnUpperSide(a: Point, b: Point, c: Point, d: Point)
    requires a.x <= d.x && Sorted([a, b, c, d])
    requires Side(a, d, [b, c], true) == [b, c] && Side(a, d, [b, c], false) == []
    requires !IsLeftTurn(a, b, c) && !IsLeftTurn(b, c, d)
    ensures FixedHull([a, b, c, d]) == [a, b, c, d, a]
  {
    var S := [a, b, c, d];
    FourOnUpperSideUpper(a, b, c, d);
    FourOnUpperSideLower(a, b, c, d);
    assert FixedHull(S) == [a, b, c, d] + Reverse([a]);
    assert Reverse([a]) == [a];
  }

  lemma FourOnUpperSideUpper(a: Point, b: Point, c: Point, d: Point)
    requires a.x <= d.x && Sorted([a, b, c, d])
    requires Side(a, d, [b, c], true) == [b, c]
    requires !IsLeftTurn(a, b, c) && !IsLeftTurn(b, c, d)
    ensures FixedUpper([a, b, c, d]) == [a, b, c, d]
  {
    var S := [a, b, c, d];
    assert S[0] == a && S[|S| - 1] == d;
    assert Middle(S) == [b, c];
    assert FixedUpperInput(S) == [a] + [b, c] == [a, b, c];
    UpperKeepsAll(a, b, c, d);
  }

  lemma FourOnUpperSideLower(a: Point, b: Point, c: Point, d: Point)
    requires a.x <= d.x && Sorted([a, b, c, d])
    requires Side(a, d, [b, c], false) == []
    ensures FixedLower([a, b, c, d]) == [a]
  {
    var S := [a, b, c, d];
    assert S[0] == a && S[|S| - 1] == d;
    assert Middle(S) == [b, c];
    assert FixedLowerInput(S) == [a] + [] == [a];
    LowerKeepsOne(a, d);
  }

  lemma DiagonalCollinear()
    ensures !IsLeftTurn(Point(0.0, 0.0), Point(1.0, 1.0), Point(2.0, 2.0))
    ensures !IsLeftTurn(Point(1.0, 1.0), Point(2.0, 2.0), Point(3.0, 3.0))
  {
  }

  lemma DiagonalCollinearBack()
    ensures !IsLeftTurn(Point(3.0, 3.0), Point(2.0, 2.0), Point(1.0, 1.0))
    ensures !IsLeftTurn(Point(2.0, 2.0), Point(1.0, 1.0), Point(0.0, 0.0))
  {
  }

  /** Because of the EPS term the line through (0, 0) and (3, 3) runs
      just below the diagonal, so both middle points go to the upper chain. */
  lemma DiagonalGoesUpper()
    ensures GoesUpper(Point(0.0, 0.0), Point(3.0, 3.0), Point(1.0, 1.0))
    ensures GoesUpper(Point(0.0, 0.0), Point(3.0, 3.0), Point(2.0, 2.0))
  {
    var k := 3.0 / (3.0 + EPS);
    assert LineThrough(Point(0.0, 0.0), Point(3.0, 3.0)) == Line(k, 0.0);
    assert k < 1.0;
  }

  lemma DiagonalSides()
    ensures Side(Point(0.0, 0.0), Point(3.0, 3.0), [Point(1.0, 1.0), Point(2.0, 2.0)], true)
      == [Point(1.0, 1.0), Point(2.0, 2.0)]
    ensures Side(Point(0.0, 0.0), Point(3.0, 3.0), [Point(1.0, 1.0), Point(2.0, 2.0)], false) == []
  {
    var a, b, c, d := Point(0.0, 0.0), Point(1.0, 1.0), Point(2.0, 2.0), Point(3.0, 3.0);
    DiagonalGoesUpper();
    SideSnoc(a, d, [], b, true);
    SideSnoc(a, d, [], b, false);
    assert [] + [b] == [b];
    SideSnoc(a, d, [b], c, true);
    SideSnoc(a, d, [b], c, false);
    assert [b] + [c] == [b, c];
  }

  /** `andrews_version` on the diagonal: the collinear middle points stay
      in the upper chain, the lower chain holds only (0, 0), and the hull
      closes over it. */
  lemma DiagonalFixedLine()
    ensures Sorted(Diagonal())
    ensures FixedHull(Diagonal()) ==
      [Point(0.0, 0.0), Point(1.0, 1.0), Point(2.0, 2.0), Point(3.0, 3.0), Point(0.0, 0.0)]
  {
    var a, b, c, d := Point(0.0, 0.0), Point(1.0, 1.0), Point(2.0, 2.0), Point(3.0, 3.0);
    DiagonalSorted();
    DiagonalSides();
    DiagonalCollinear();
    FourOnUpperSide(a, b, c, d);
  }

  /** `andrews_version` on five sorted points of which the second and third
      go to the upper chain and the fourth to the lower one. */
  lemma FiveSplit(a: Point, b: Point, e: Point, c: Point, d: Point)
    requires a.x <= d.x && Sorted([a, b, e, c, d])
    requires Side(a, d, [b, e, c], true) == [b, e] && Side(a, d, [b, e, c], false) == [c]
    requires !IsLeftTurn(a, b, e) && IsLeftTurn(b, e, d) && !IsLeftTurn(a, b, d)
    requires IsLeftTurn(a, c, d)
    ensures FixedHull([a, b, e, c, d]) == [a, b, d, c, a]
  {
    var S := [a, b, e, c, d];
    FiveSplitUpper(a, b, e, c, d);
    FiveSplitLower(a, b, e, c, d);
    assert FixedHull(S) == [a, b, d] + Reverse([a, c]);
    assert Reverse([a, c]) == [c, a];
  }

  lemma FiveSplitUpper(a: Point, b: Point, e: Point, c: Point, d: Point)
    requires a.x <= d.x && Sorted([a, b, e, c, d])
    requires Side(a, d, [b, e, c], true) == [b, e]
    requires !IsLeftTurn(a, b, e) && IsLeftTurn(b, e, d) && !IsLeftTurn(a, b, d)
    ensures FixedUpper([a, b, e, c, d]) == [a, b, d]
  {
    var S := [a, b, e, c, d];
    assert S[0] == a && S[|S| - 1] == d;
    assert Middle(S) == [b, e, c];
    assert FixedUpperInput(S) == [a] + [b, e] == [a, b, e];
    UpperPopsLast(a, b, e, d);
  }

  lemma FiveSplitLower(a: Point, b: Point, e: Point, c: Point, d: Point)
    requires a.x <= d.x && Sorted([a, b, e, c, d])
    requires Side(a, d, [b, e, c], false) == [c]
    requires IsLeftTurn(a, c, d)
    ensures FixedLower([a, b, e, c, d]) == [a, c]
  {
    var S := [a, b, e, c, d];
    assert S[0] == a && S[|S| - 1] == d;
    assert Middle(S) == [b, e, c];
    assert FixedLowerInput(S) == [a] + [c] == [a, c];
    LowerKeepsTwo(a, c, d);
  }

  /** The square's corner (0, 10) lies above the line through (0, 0) and
      (10, 10); so does the centre, because the EPS term makes the line run
      just below the diagonal; the corner (10, 0) lies below it. */
  lemma SquareGoesUpper()
    ensures var a, b, e, c, d := Point(0.0, 0.0), Point(0.0, 10.0), Point(5.0, 5.0), Point(10.0, 0.0), Point(10.0, 10.0);
      GoesUpper(a, d, b) && GoesUpper(a, d, e) && !GoesUpper(a, d, c)
  {
    var k := 10.0 / (10.0 + EPS);
    assert LineThrough(Point(0.0, 0.0), Point(10.0, 10.0)) == Line(k, 0.0);
    assert 0.0 < k < 1.0;
  }

  lemma SquareSides()
    ensures var a, b, e, c, d := Point(0.0, 0.0), Point(0.0, 10.0), Point(5.0, 5.0), Point(10.0, 0.0), Point(10.0, 10.0);
      Side(a, d, [b, e, c], true) == [b, e] && Side(a, d, [b, e, c], false) == [c]
  {
    var a, b, e, c, d := Point(0.0, 0.0), Point(0.0, 10.0), Point(5.0, 5.0), Point(10.0, 0.0), Point(10.0, 10.0);
    SquareGoesUpper();
    SideSnoc(a, d, [], b, true);
    SideSnoc(a, d, [], b, false);
    assert [] + [b] == [b];
    SideSnoc(a, d, [b], e, true);
    SideSnoc(a, d, [b], e, false);
    assert [b] + [e] == [b, e];
    SideSnoc(a, d, [b, e], c, true);
    SideSnoc(a, d, [b, e], c, false);
    assert [b, e] + [c] == [b, e, c];
  }

  lemma SquareSorted()
    ensures Sorted(SquareWithCentre())
  {
  }

  lemma SquareFixedTurns()
    ensures var a, b, e, c, d := Point(0.0, 0.0), Point(0.0, 10.0), Point(5.0, 5.0), Point(10.0, 0.0), Point(10.0, 10.0);
      !IsLeftTurn(a, b, e) && IsLeftTurn(b, e, d) && !IsLeftTurn(a, b, d) && IsLeftTurn(a, c, d)
  {
  }

  /** `andrews_version` on the square with its centre returns what
      `public_version` does: the centre is sent to the upper chain and
      popped there by (10, 10). */
  lemma SquareFixedLine()
    ensures Sorted(SquareWithCentre())
    ensures FixedHull(SquareWithCentre()) ==
      [Point(0.0, 0.0), Point(0.0, 10.0), Point(10.0, 10.0), Point(10.0, 0.0), Point(0.0, 0.0)]
  {
    var a, b, e, c, d := Point(0.0, 0.0), Point(0.0, 10.0), Point(5.0, 5.0), Point(10.0, 0.0), Point(10.0, 10.0);
    SquareSorted();
    SquareSides();
    SquareFixedTurns();
    FiveSplit(a, b, e, c, d);
  }

  /** A single point: `public_version` returns it once; the single-pass
      builders return it three times, p0 and pn from the upper chain and p0
      again from the lower chain. */
  lemma SinglePoint(p: Point)
    ensures TwoPassHull([p]) == [p]
    ensures FixedHull([p]) == [p, p, p]
    ensures AdaptiveHull([p]) == [p, p, p]
  {
    ScanOne(PopOnLeft, p);
    assert Reverse([p]) == [p];
    SinglePointFixed(p);
    SinglePointAdaptive(p);
  }

  lemma SinglePointFixed(p: Point)
    ensures FixedHull([p]) == [p, p, p]
  {
    assert FixedUpperInput([p]) == [p] && FixedLowerInput([p]) == [p];
    ScanOne(PopOnLeft, p);
    LowerKeepsOne(p, p);
    assert Reverse([p]) == [p];
  }

  lemma SinglePointAdaptive(p: Point)
    ensures AdaptiveHull([p]) == [p, p, p]
  {
    assert SweepOf([p]) == Sweep([p], [p], LineThrough(p, p), LineThrough(p, p));
    assert Reverse([p]) == [p];
  }
}
