/** What the builders do before building chains: the error results of an
    empty input, and the optional quadrilateral prefilter. */
module Preprocess {
  import opened Geometry
  import opened Seqs
  import opened Ordering

  /** The exceptions the builders raise on an empty list: `min()` of an
      empty list (a ValueError) and `P[0]` of one (an IndexError). */
  datatype HullError = EmptyArgument | IndexOutOfRange

  datatype Result<T> = Ok(value: T) | Err(error: HullError)

  /** The generator `p for p in P if not_inside(p, a, c, b, d)`: the points
      the filter keeps, in their original order. */
  function KeepNotInside(ps: seq<Point>, a: Point, c: Point, b: Point, d: Point): (r: seq<Point>)
    ensures IsSubseq(r, ps)
    ensures forall q :: q in r <==> q in ps && NotInside(q, a, c, b, d)
    ensures forall q :: multiset(r)[q] == if NotInside(q, a, c, b, d) then multiset(ps)[q] else 0
    decreases |ps|
  {
    if ps == [] then []
    else
      var ps', x := ps[..|ps| - 1], ps[|ps| - 1];
      var r' := KeepNotInside(ps', a, c, b, d);
      assert ps == ps' + [x];
      if NotInside(x, a, c, b, d) then
        SubseqAppend(r', ps', x);
        r' + [x]
      else
        SubseqExtend(r', ps', x);
        r'
  }

  /** Lines 21-26 without the sort: the four extremes `min(P)`, `max(P)`,
      the first point of least y and the first of greatest y, then every
      point that does not lie strictly inside their quadrilateral. */
  function Prefilter(ps: seq<Point>): (r: seq<Point>)
    requires |ps| >= 1
    ensures IsSubseq(r, ps)
    ensures MinLex(ps) in r && MaxLex(ps) in r && MinY(ps) in r && MaxY(ps) in r
    ensures forall q :: q in ps ==>
      (q in r <==> NotInside(q, MinLex(ps), MaxLex(ps), MinY(ps), MaxY(ps)))
    ensures forall q ::
      multiset(r)[q] == if NotInside(q, MinLex(ps), MaxLex(ps), MinY(ps), MaxY(ps)) then multiset(ps)[q] else 0
  {
    KeepNotInside(ps, MinLex(ps), MaxLex(ps), MinY(ps), MaxY(ps))
  }

  /** Filtering keeps the smallest and the largest point, so the filtered
      and sorted list is never empty and starts and ends where the sorted
      unfiltered list does. */
  lemma PrefilterKeepsEnds(ps: seq<Point>)
    requires |ps| >= 1
    ensures var s := SortPoints(Prefilter(ps));
      |s| >= 1 && s[0] == MinLex(ps) && s[|s| - 1] == MaxLex(ps)
  {
    var r := Prefilter(ps);
    SubseqMultiset(r, ps);
    KeptExtremes(r, ps);
    SortedHeadIsMin(r);
  }
}
