/** `optimised_version`: the single-pass builder whose two separating lines
    move. Each chain has its own line, first the one through p0 and pn;
    after a push the chain's line is reset to run through the new point and
    pn. A middle point strictly above the upper line joins the upper chain,
    else one strictly below the lower line joins the lower chain, and any
    other point is dropped. */
module AdaptiveLine {
  import opened Geometry
  import opened Seqs
  import opened Ordering
  import opened Chains
  import opened Preprocess
  import opened FixedLine

  /** The loop state of lines 138-177: both chains and both lines. */
  datatype Sweep = Sweep(upper: seq<Point>, lower: seq<Point>, up: Line, low: Line)

  /** Every point lies to the left of pn, or level with it: the condition
      under which every slope denominator of the sweep is positive. */
  predicate LeftOf(ps: seq<Point>, pn: Point) {
    forall i :: 0 <= i < |ps| ==> ps[i].x <= pn.x
  }

  /** One iteration of lines 157-177. A point strictly above the upper line
      is pushed onto the upper chain and the upper line is reset through it;
      otherwise a point strictly below the lower line is pushed onto the
      lower chain and the lower line is reset through it; the other chain
      and its line are untouched, and a point passing neither test leaves
      the state as it was. */
  function Step(s: Sweep, pn: Point, p: Point): (r: Sweep)
    requires p.x <= pn.x
    ensures p.y > s.up.At(p.x) ==>
      && r.upper == Push(PopOnLeft, s.upper, p) && r.up.At(p.x) == p.y
      && r.lower == s.lower && r.low == s.low
    ensures !(p.y > s.up.At(p.x)) && p.y < s.low.At(p.x) ==>
      && r.lower == Push(PopOnNonLeft, s.lower, p) && r.low.At(p.x) == p.y
      && r.upper == s.upper && r.up == s.up
    ensures !(p.y > s.up.At(p.x)) && !(p.y < s.low.At(p.x)) ==> r == s
  {
    if p.y > s.up.At(p.x) then
      s.(upper := Push(PopOnLeft, s.upper, p), up := LineThrough(p, pn))
    else if p.y < s.low.At(p.x) then
      s.(lower := Push(PopOnNonLeft, s.lower, p), low := LineThrough(p, pn))
    else
      s
  }

  /** The state after the middle points ps, starting from both chains
      holding p0 and both lines through p0 and pn (lines 145-153). */
  function Sweeps(p0: Point, pn: Point, ps: seq<Point>): Sweep
    requires p0.x <= pn.x && LeftOf(ps, pn)
    decreases |ps|
  {
    if ps == [] then
      Sweep([p0], [p0], LineThrough(p0, pn), LineThrough(p0, pn))
    else
      Step(Sweeps(p0, pn, ps[..|ps| - 1]), pn, ps[|ps| - 1])
  }

  lemma SweepsSnoc(p0: Point, pn: Point, ps: seq<Point>, p: Point)
    requires p0.x <= pn.x && LeftOf(ps + [p], pn)
    ensures LeftOf(ps, pn)
    ensures Sweeps(p0, pn, ps + [p]) == Step(Sweeps(p0, pn, ps), pn, p)
  {
    assert (ps + [p])[..|ps|] == ps;
    assert forall i :: 0 <= i < |ps| ==> ps[i] == (ps + [p])[i];
  }

  /** The sweep invariants: both chains are subsequences of b, the points
      swept so far, in sweep order, and start with p0, which is never
      popped; the upper chain has no strict left turn and every triple of
      the lower chain is one; and each line runs through the last point of
      its chain. */
  predicate SweepInv(s: Sweep, p0: Point, b: seq<Point>) {
    && IsSubseq(s.upper, b) && IsSubseq(s.lower, b)
    && |s.upper| >= 1 && s.upper[0] == p0 && |s.lower| >= 1 && s.lower[0] == p0
    && Stable(PopOnLeft, s.upper) && Stable(PopOnNonLeft, s.lower)
    && s.up.At(s.upper[|s.upper| - 1].x) == s.upper[|s.upper| - 1].y
    && s.low.At(s.lower[|s.lower| - 1].x) == s.lower[|s.lower| - 1].y
  }

  /** One step keeps the sweep invariants. */
  lemma StepInv(s: Sweep, pn: Point, p: Point, p0: Point, b: seq<Point>)
    requires p.x <= pn.x && SweepInv(s, p0, b)
    ensures SweepInv(Step(s, pn, p), p0, b + [p])
  {
    var r := Step(s, pn, p);
    StepKeepsChain(PopOnLeft, s.upper, r.upper, p, b);
    StepKeepsChain(PopOnNonLeft, s.lower, r.lower, p, b);
  }

  /** The sweep invariants hold after any number of steps. */
  lemma {:induction false} SweepFacts(p0: Point, pn: Point, ps: seq<Point>)
    requires p0.x <= pn.x && LeftOf(ps, pn)
    ensures SweepInv(Sweeps(p0, pn, ps), p0, [p0] + ps)
    decreases |ps|
  {
    if ps == [] {
      SubseqRefl([p0]);
      assert [p0] + ps == [p0];
    } else {
      var ps', p := ps[..|ps| - 1], ps[|ps| - 1];
      assert ps == ps' + [p];
      SweepsSnoc(p0, pn, ps', p);
      SweepFacts(p0, pn, ps');
      assert [p0] + ps == ([p0] + ps') + [p];
      StepInv(Sweeps(p0, pn, ps'), pn, p, p0, [p0] + ps');
    }
  }

  /** The chain invariants survive a step, whether it pushes onto the
      chain or leaves it alone. */
  lemma StepKeepsChain(rule: PopRule, c: seq<Point>, r: seq<Point>, p: Point, b: seq<Point>)
    requires r == c || r == Push(rule, c, p)
    requires IsSubseq(c, b) && |c| >= 1 && Stable(rule, c)
    ensures IsSubseq(r, b + [p]) && |r| >= 1 && r[0] == c[0] && Stable(rule, r)
  {
    PushFacts(rule, c, p, b);
    if r == c {
      SubseqExtend(c, b, p);
    }
  }

  /** No middle point is in both chains: a step adds p to one chain at
      most, so the two chains past p0 together take each point no more
      often than the swept points hold it. */
  lemma {:induction false} SweepDisjoint(p0: Point, pn: Point, ps: seq<Point>)
    requires p0.x <= pn.x && LeftOf(ps, pn)
    ensures var s := Sweeps(p0, pn, ps);
      |s.upper| >= 1 && |s.lower| >= 1 &&
      multiset(s.upper[1..]) + multiset(s.lower[1..]) <= multiset(ps)
    decreases |ps|
  {
    SweepFacts(p0, pn, ps);
    if ps != [] {
      var ps', p := ps[..|ps| - 1], ps[|ps| - 1];
      assert ps == ps' + [p];
      SweepsSnoc(p0, pn, ps', p);
      SweepDisjoint(p0, pn, ps');
      SweepFacts(p0, pn, ps');
      var s', s := Sweeps(p0, pn, ps'), Sweeps(p0, pn, ps);
      PushTail(PopOnLeft, s'.upper, p);
      PushTail(PopOnNonLeft, s'.lower, p);
      assert multiset(ps) == multiset(ps') + multiset{p};
    }
  }

  /** Past its first point, a pushed chain holds what the old one held,
      less what was popped, plus p. */
  lemma PushTail(rule: PopRule, c: seq<Point>, p: Point)
    requires |c| >= 1
    ensures var r := Push(rule, c, p);
      |r| >= 2 && multiset(r[1..]) <= multiset(c[1..]) + multiset{p}
  {
    var q := Pop(rule, c, p);
    var r := q + [p];
    assert r[1..] == q[1..] + [p];
    assert c[1..] == q[1..] + c[|q|..];
  }

  /** The state at the end of the loop of lines 156-177 over a sorted list. */
  function SweepOf(S: seq<Point>): Sweep
    requires |S| >= 1 && Sorted(S)
  {
    MiddleLeftOf(S);
    SortedBounds(S, 0);
    Sweeps(S[0], S[|S| - 1], Middle(S))
  }

  /** The upper chain: the swept upper chain with pn pushed (lines 180-186). */
  function AdaptiveUpper(S: seq<Point>): seq<Point>
    requires |S| >= 1 && Sorted(S)
  {
    Push(PopOnLeft, SweepOf(S).upper, S[|S| - 1])
  }

  /** The lower chain: the swept lower chain popped against pn, which it
      never receives (lines 183-184). */
  function AdaptiveLower(S: seq<Point>): seq<Point>
    requires |S| >= 1 && Sorted(S)
  {
    Pop(PopOnNonLeft, SweepOf(S).lower, S[|S| - 1])
  }

  /** Lines 188-192. */
  function AdaptiveHull(S: seq<Point>): seq<Point>
    requires |S| >= 1 && Sorted(S)
  {
    AdaptiveUpper(S) + Reverse(AdaptiveLower(S))
  }

  /** In a sorted list no middle point lies right of the last point. */
  lemma MiddleLeftOf(S: seq<Point>)
    requires |S| >= 1 && Sorted(S)
    ensures LeftOf(Middle(S), S[|S| - 1])
  {
    var M := Middle(S);
    forall i | 0 <= i < |M| ensures M[i].x <= S[|S| - 1].x {
      assert M[i] == S[i + 1];
      SortedBounds(S, i + 1);
    }
  }

  /** The sweep invariants at the end of the loop over a sorted list. */
  lemma SweepOfFacts(S: seq<Point>)
    requires |S| >= 1 && Sorted(S)
    ensures var s, b := SweepOf(S), [S[0]] + Middle(S);
      && IsSubseq(s.upper, b) && IsSubseq(s.lower, b)
      && |s.upper| >= 1 && s.upper[0] == S[0] && |s.lower| >= 1 && s.lower[0] == S[0]
      && Stable(PopOnLeft, s.upper) && Stable(PopOnNonLeft, s.lower)
  {
    MiddleLeftOf(S);
    SortedBounds(S, 0);
    SweepFacts(S[0], S[|S| - 1], Middle(S));
  }

  /** The chains. The upper one lies in the list, starts with p0, ends with
      pn and has no strict left turn; the lower one lies in the list,
      starts with p0, has only strict left turns, and makes a strict left
      turn to pn from its last two points. For two points or more both are
      subsequences of the list. */
  lemma AdaptiveChains(S: seq<Point>)
    requires |S| >= 1 && Sorted(S)
    ensures var u, l, p0, pn := AdaptiveUpper(S), AdaptiveLower(S), S[0], S[|S| - 1];
      && (|S| >= 2 ==> IsSubseq(u, S) && IsSubseq(l, S))
      && (forall q :: q in u ==> q in S) && (forall q :: q in l ==> q in S)
      && |u| >= 2 && u[0] == p0 && u[|u| - 1] == pn
      && |l| >= 1 && l[0] == p0
      && Stable(PopOnLeft, u) && Stable(PopOnNonLeft, l)
      && (|l| >= 2 ==> IsLeftTurn(l[|l| - 2], l[|l| - 1], pn))
  {
    AdaptiveUpperFacts(S);
    AdaptiveLowerFacts(S);
    ChainsInList(S, AdaptiveUpper(S), AdaptiveLower(S));
  }

  lemma AdaptiveUpperFacts(S: seq<Point>)
    requires |S| >= 1 && Sorted(S)
    ensures var u := AdaptiveUpper(S);
      && IsSubseq(u, [S[0]] + Middle(S) + [S[|S| - 1]])
      && |u| >= 2 && u[0] == S[0] && u[|u| - 1] == S[|S| - 1]
      && Stable(PopOnLeft, u)
  {
    SweepOfFacts(S);
    PushFacts(PopOnLeft, SweepOf(S).upper, S[|S| - 1], [S[0]] + Middle(S));
  }

  lemma AdaptiveLowerFacts(S: seq<Point>)
    requires |S| >= 1 && Sorted(S)
    ensures var l := AdaptiveLower(S);
      && IsSubseq(l, [S[0]] + Middle(S))
      && |l| >= 1 && l[0] == S[0]
      && Stable(PopOnNonLeft, l)
      && (|l| >= 2 ==> IsLeftTurn(l[|l| - 2], l[|l| - 1], S[|S| - 1]))
  {
    var s, pn, b := SweepOf(S), S[|S| - 1], [S[0]] + Middle(S);
    SweepOfFacts(S);
    assert IsSubseq(s.lower, b) && Stable(PopOnNonLeft, s.lower) && |s.lower| >= 1 && s.lower[0] == S[0];
    LowerPopFacts(s.lower, pn, b);
    assert AdaptiveLower(S) == Pop(PopOnNonLeft, s.lower, pn);
  }

  /** The two chains lie inside the list: p0 and the middle points, plus
      pn for the upper one. For a single point the upper chain holds p0
      twice, so it is then a subsequence of the list only up to repeats. */
  lemma ChainsInList(S: seq<Point>, u: seq<Point>, l: seq<Point>)
    requires |S| >= 1
    requires IsSubseq(u, [S[0]] + Middle(S) + [S[|S| - 1]])
    requires IsSubseq(l, [S[0]] + Middle(S))
    ensures |S| >= 2 ==> IsSubseq(u, S) && IsSubseq(l, S)
    ensures forall q :: q in u ==> q in S
    ensures forall q :: q in l ==> q in S
  {
    var p0, pn, M := S[0], S[|S| - 1], Middle(S);
    SubseqMultiset(u, [p0] + M + [pn]);
    SubseqMultiset(l, [p0] + M);
    if |S| >= 2 {
      assert [p0] + M + [pn] == S;
      SubseqExtend(l, [p0] + M, pn);
    } else {
      assert [p0] + M + [pn] == [p0, p0];
    }
    assert forall q :: q in [p0] + M + [pn] ==> q in S;
  }

  /** The hull starts and ends with p0, has pn as the last point of the
      upper chain (the only chain pn is appended to), has |upper| + |lower|
      points, and holds only points of the list. */
  lemma AdaptiveHullFacts(S: seq<Point>)
    requires |S| >= 1 && Sorted(S)
    ensures var u, l, h := AdaptiveUpper(S), AdaptiveLower(S), AdaptiveHull(S);
      && |h| == |u| + |l| && |h| >= 3
      && h[0] == S[0] && h[|h| - 1] == S[0] && h[|u| - 1] == S[|S| - 1]
      && (forall q :: q in h ==> q in S)
  {
    AdaptiveChains(S);
    var u, l := AdaptiveUpper(S), AdaptiveLower(S);
    JoinMembers(S, u, l);
  }

  /** The body of the loop of lines 156-177 for one middle point p, with
      the four line parameters held in separate variables as the source
      does. */
  method SweepPoint(upper: seq<Point>, lower: seq<Point>, ku: real, nu: real, kl: real, nl: real,
                    pn: Point, p: Point)
    returns (upper': seq<Point>, lower': seq<Point>, ku': real, nu': real, kl': real, nl': real)
    requires p.x <= pn.x
    ensures Sweep(upper', lower', Line(ku', nu'), Line(kl', nl'))
      == Step(Sweep(upper, lower, Line(ku, nu), Line(kl, nl)), pn, p)
  {
    ghost var s := Sweep(upper, lower, Line(ku, nu), Line(kl, nl));
    upper', lower', ku', nu', kl', nl' := upper, lower, ku, nu, kl, nl;
    if p.y > ku * p.x + nu {
      assert p.y > s.up.At(p.x);
      upper' := PushOnto(PopOnLeft, upper, p);
      ku' := (pn.y - p.y) / (pn.x - p.x + EPS);
      nu' := p.y - ku' * p.x;
      assert Line(ku', nu') == LineThrough(p, pn);
    } else if p.y < kl * p.x + nl {
      assert !(p.y > s.up.At(p.x)) && p.y < s.low.At(p.x);
      lower' := PushOnto(PopOnNonLeft, lower, p);
      kl' := (pn.y - p.y) / (pn.x - p.x + EPS);
      nl' := p.y - kl' * p.x;
      assert Line(kl', nl') == LineThrough(p, pn);
    } else {
      assert !(p.y > s.up.At(p.x)) && !(p.y < s.low.At(p.x));
    }
  }

  /** Lines 138-177: the two chains and lines after the middle points. */
  method AdaptiveSweep(S: seq<Point>) returns (upper: seq<Point>, lower: seq<Point>,
                                               ku: real, nu: real, kl: real, nl: real)
    requires |S| >= 1 && Sorted(S)
    ensures Sweep(upper, lower, Line(ku, nu), Line(kl, nl)) == SweepOf(S)
  {
    upper, lower := [], [];
    var p0, pn := S[0], S[|S| - 1];
    SortedBounds(S, 0);
    MiddleLeftOf(S);
    ku := (pn.y - p0.y) / (pn.x - p0.x + EPS);
    nu := p0.y - ku * p0.x;
    kl := ku;
    nl := nu;
    upper := upper + [p0];
    lower := lower + [p0];
    assert Line(ku, nu) == LineThrough(p0, pn);
    assert S[1..1] == [];

    var j := 1;
    while j < |S| - 1
      invariant 1 <= j <= |S|
      invariant j <= |S| - 1 || |S| == 1
      invariant LeftOf(S[1..j], pn)
      invariant Sweep(upper, lower, Line(ku, nu), Line(kl, nl)) == Sweeps(p0, pn, S[1..j])
    {
      var p := S[j];
      SweepAdvance(S, j);
      upper, lower, ku, nu, kl, nl := SweepPoint(upper, lower, ku, nu, kl, nl, pn, p);
      j := j + 1;
    }
    assert S[1..j] == Middle(S);
  }

  /** Sweeping one more middle point of a sorted list is one more step. */
  lemma SweepAdvance(S: seq<Point>, j: nat)
    requires Sorted(S) && 1 <= j < |S| - 1
    ensures S[j].x <= S[|S| - 1].x && S[0].x <= S[|S| - 1].x
    ensures LeftOf(S[1..j], S[|S| - 1]) && LeftOf(S[1..j + 1], S[|S| - 1])
    ensures Sweeps(S[0], S[|S| - 1], S[1..j + 1]) == Step(Sweeps(S[0], S[|S| - 1], S[1..j]), S[|S| - 1], S[j])
  {
    SortedBounds(S, 0);
    MiddleLeftOf(S);
    var M := Middle(S);
    assert S[1..j + 1] == M[..j];
    assert S[1..j + 1] == S[1..j] + [S[j]];
    var T := S[1..j + 1];
    forall i | 0 <= i < |T| ensures T[i].x <= S[|S| - 1].x {
      assert T[i] == M[i];
    }
    SweepsSnoc(S[0], S[|S| - 1], S[1..j], S[j]);
  }

  /** `optimised_version` after the sort, over a sorted list: lines
      138-192. */
  method BuildAdaptiveLine(S: seq<Point>) returns (hull: seq<Point>)
    requires |S| >= 1 && Sorted(S)
    ensures hull == AdaptiveHull(S)
    ensures hull[0] == S[0] && hull[|hull| - 1] == S[0]
    ensures forall q :: q in hull ==> q in S
  {
    var upper, lower, ku, nu, kl, nl := AdaptiveSweep(S);
    var pn := S[|S| - 1];
    upper := PopFrom(PopOnLeft, upper, pn);
    lower := PopFrom(PopOnNonLeft, lower, pn);
    upper := upper + [pn];
    lower := Reverse(lower);
    hull := upper + lower;
    AdaptiveHullFacts(S);
  }

  /** `optimised_version(P, filtered)`: `filtered` is accepted and ignored;
      the caller's list is always sorted in place, and an empty one makes
      `P[0]` fail. */
  method OptimisedVersion(P: array<Point>, filtered: bool) returns (r: Result<seq<Point>>)
    modifies P
    ensures P[..] == SortPoints(old(P[..]))
    ensures P.Length == 0 ==> r == Err(IndexOutOfRange)
    ensures P.Length >= 1 ==> r == Ok(AdaptiveHull(SortPoints(old(P[..]))))
    ensures r.Ok? ==>
      var h := r.value; |h| >= 1 && h[0] == MinLex(old(P[..])) && h[|h| - 1] == MinLex(old(P[..]))
    ensures r.Ok? ==> forall q :: q in r.value ==> q in old(P[..])
  {
    SortInPlace(P);
    var S := P[..];
    if P.Length == 0 {
      return Err(IndexOutOfRange);
    }
    SortedHeadIsMin(old(P[..]));
    SameMembers(S, old(P[..]));
    var hull := BuildAdaptiveLine(S);
    r := Ok(hull);
  }
}
