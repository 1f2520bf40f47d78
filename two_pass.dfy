/** `public_version`: the two-pass builder. The upper chain is built over
    the sorted list, the lower chain over the reversed list, both popping on
    a strict left turn; the last point of the upper chain is dropped before
    the two are joined. */
module TwoPass {
  import opened Geometry
  import opened Seqs
  import opened Ordering
  import opened Chains
  import opened Preprocess

  /** `upper[:-1]`, which is empty for an empty list. */
  function DropLast(s: seq<Point>): (r: seq<Point>)
    ensures s == [] ==> r == []
    ensures s != [] ==> s == r + [s[|s| - 1]]
  {
    if s == [] then [] else s[..|s| - 1]
  }

  function TwoPassUpper(S: seq<Point>): seq<Point> {
    Scan(PopOnLeft, S)
  }

  function TwoPassLower(S: seq<Point>): seq<Point> {
    Scan(PopOnLeft, Reverse(S))
  }

  /** Lines 30-49 on an already sorted list. */
  function TwoPassHull(S: seq<Point>): seq<Point> {
    DropLast(TwoPassUpper(S)) + TwoPassLower(S)
  }

  /** The two chains. Both are subsequences, of the list and of its
      reversal, and neither has a strict left turn in it (so collinear points
      stay in both). The upper chain ends, and the lower chain starts, with
      the last point of the list: that is the copy the join drops. */
  lemma TwoPassChains(S: seq<Point>)
    ensures var u, l := TwoPassUpper(S), TwoPassLower(S);
      && IsSubseq(u, S) && IsSubseq(l, Reverse(S))
      && Stable(PopOnLeft, u) && Stable(PopOnLeft, l)
      && (|S| >= 1 ==> u[0] == S[0] && u[|u| - 1] == S[|S| - 1])
      && (|S| >= 1 ==> l[0] == S[|S| - 1] && l[|l| - 1] == S[0])
  {
    var R := Reverse(S);
    ScanFacts(PopOnLeft, S);
    ScanFacts(PopOnLeft, R);
  }

  /** The hull starts and ends with the first point of the list, is empty
      only for an empty list, has |upper| + |lower| - 1 points and at least
      three as soon as the list has two, and holds only points of the list. */
  lemma TwoPassHullFacts(S: seq<Point>)
    ensures var u, l, h := TwoPassUpper(S), TwoPassLower(S), TwoPassHull(S);
      && (S == [] <==> h == [])
      && (|S| >= 1 ==> h[0] == S[0] && h[|h| - 1] == S[0] && |h| == |u| + |l| - 1)
      && (|S| >= 2 ==> |h| >= 3)
      && (forall q :: q in h ==> q in S)
  {
    var R := Reverse(S);
    ScanFacts(PopOnLeft, S);
    ScanFacts(PopOnLeft, R);
    if |S| >= 1 {
      assert R[0] == S[|S| - 1] && R[|R| - 1] == S[0];
    }
    JoinFacts(S, TwoPassUpper(S), TwoPassLower(S));
  }

  /** The join of line 49, for any two chains with the scan invariants. */
  lemma JoinFacts(S: seq<Point>, u: seq<Point>, l: seq<Point>)
    requires IsSubseq(u, S) && IsSubseq(l, Reverse(S))
    requires S == [] <==> u == []
    requires S == [] <==> l == []
    requires |S| >= 1 ==> u[0] == S[0] && u[|u| - 1] == S[|S| - 1]
    requires |S| >= 1 ==> l[0] == S[|S| - 1] && l[|l| - 1] == S[0]
    requires |S| >= 2 ==> |u| >= 2 && |l| >= 2
    ensures var h := DropLast(u) + l;
      && (S == [] <==> h == [])
      && (|S| >= 1 ==> h[0] == S[0] && h[|h| - 1] == S[0] && |h| == |u| + |l| - 1)
      && (|S| >= 2 ==> |h| >= 3)
      && (forall q :: q in h ==> q in S)
  {
    ReverseMultiset(S);
    SubseqMultiset(u, S);
    SubseqMultiset(l, Reverse(S));
    forall q | q in DropLast(u) + l ensures q in S {
      if q in DropLast(u) {
        assert q in u;
      }
    }
  }

  /** The loop of lines 31-37, and again of lines 40-46: every point
      pops what makes a strict left turn with it and is then appended. */
  method ScanChain(ps: seq<Point>) returns (chain: seq<Point>)
    ensures chain == Scan(PopOnLeft, ps)
  {
    chain := [];
    for i := 0 to |ps|
      invariant chain == Scan(PopOnLeft, ps[..i])
    {
      ScanSnoc(PopOnLeft, ps[..i], ps[i]);
      assert ps[..i + 1] == ps[..i] + [ps[i]];
      chain := PushOnto(PopOnLeft, chain, ps[i]);
    }
    assert ps[..|ps|] == ps;
  }

  /** Lines 30-49, over a list the caller has sorted. */
  method BuildTwoPass(S: seq<Point>) returns (hull: seq<Point>)
    ensures hull == TwoPassHull(S)
    ensures S == [] ==> hull == []
    ensures |S| >= 1 ==> hull[0] == S[0] && hull[|hull| - 1] == S[0]
    ensures forall q :: q in hull ==> q in S
  {
    var upper := ScanChain(S);
    var lower := ScanChain(Reverse(S));
    hull := DropLast(upper) + lower;
    TwoPassHullFacts(S);
  }

  /** `public_version(P, filtered)`. Without the filter the caller's list is
      sorted in place; with it a filtered, sorted copy is built and the
      caller's list is left alone, but an empty list makes `min()` fail. */
  method PublicVersion(P: array<Point>, filtered: bool) returns (r: Result<seq<Point>>)
    modifies P
    ensures filtered ==> P[..] == old(P[..])
    ensures !filtered ==> P[..] == SortPoints(old(P[..]))
    ensures filtered && P.Length == 0 ==> r == Err(EmptyArgument)
    ensures filtered && P.Length >= 1 ==> r == Ok(TwoPassHull(SortPoints(Prefilter(old(P[..])))))
    ensures !filtered ==> r == Ok(TwoPassHull(SortPoints(old(P[..]))))
    ensures r.Ok? && P.Length >= 1 ==>
      var h := r.value; |h| >= 1 && h[0] == MinLex(old(P[..])) && h[|h| - 1] == MinLex(old(P[..]))
    ensures r.Ok? ==> forall q :: q in r.value ==> q in old(P[..])
  {
    var S: seq<Point>;
    if filtered {
      if P.Length == 0 {
        return Err(EmptyArgument);
      }
      var ps := P[..];
      S := SortPoints(Prefilter(ps));
      PrefilterKeepsEnds(ps);
      SubseqMultiset(Prefilter(ps), ps);
      SameMembers(S, Prefilter(ps));
    } else {
      SortInPlace(P);
      S := P[..];
      if P.Length >= 1 {
        SortedHeadIsMin(old(P[..]));
      }
      SameMembers(S, old(P[..]));
    }
    var hull := BuildTwoPass(S);
    r := Ok(hull);
  }
}
