/** Hull chains with stack discipline: a candidate point first pops the
    chain's last point while the chain's rule says the last two points and
    the candidate make the wrong turn, then it is appended. */
module Chains {
  import opened Geometry
  import opened Seqs

  /** The polarity of the pop test. Every upper chain, and the two-pass
      builder's lower chain, pop on a strict left turn (`is_left_turn`);
      the single-pass builders' lower chains pop on its negation. */
  datatype PopRule = PopOnLeft | PopOnNonLeft

  /** Whether the chain ending in a, b must drop b before p is appended. */
  predicate Pops(rule: PopRule, a: Point, b: Point, p: Point) {
    match rule
    case PopOnLeft => IsLeftTurn(a, b, p)
    case PopOnNonLeft => !IsLeftTurn(a, b, p)
  }

  /** No three consecutive points of c would make the rule pop. For
      PopOnLeft: no strict left turn (collinear points stay); for
      PopOnNonLeft: every triple is a strict left turn. */
  predicate Stable(rule: PopRule, c: seq<Point>) {
    forall i :: 0 <= i < |c| - 2 ==> KeptAt(rule, c, i)
  }

  /** The triple of c starting at index i would not make the rule pop. */
  predicate KeptAt(rule: PopRule, c: seq<Point>, i: nat)
    requires i + 2 < |c|
  {
    !Pops(rule, c[i], c[i + 1], c[i + 2])
  }

  lemma StableMeaning(c: seq<Point>)
    ensures Stable(PopOnLeft, c) <==> forall i :: 0 <= i < |c| - 2 ==> !IsLeftTurn(c[i], c[i + 1], c[i + 2])
    ensures Stable(PopOnNonLeft, c) <==> forall i :: 0 <= i < |c| - 2 ==> IsLeftTurn(c[i], c[i + 1], c[i + 2])
  {
    assert forall i :: 0 <= i < |c| - 2 ==> (KeptAt(PopOnLeft, c, i) <==> !IsLeftTurn(c[i], c[i + 1], c[i + 2]));
    assert forall i :: 0 <= i < |c| - 2 ==> (KeptAt(PopOnNonLeft, c, i) <==> IsLeftTurn(c[i], c[i + 1], c[i + 2]));
  }

  /** The `while len(chain) > 1 and ...: chain.pop()` loop: the result is a
      prefix of c, never shorter than one point when c is not empty;
      every point removed was removed because the rule fired, and the
      rule no longer fires on what is left. */
  function Pop(rule: PopRule, c: seq<Point>, p: Point): (r: seq<Point>)
    ensures |r| <= |c| && r == c[..|r|]
    ensures |c| >= 1 ==> |r| >= 1
    ensures |c| <= 1 ==> r == c
    ensures |r| > 1 ==> !Pops(rule, r[|r| - 2], r[|r| - 1], p)
    ensures forall k :: |r| <= k < |c| ==> PoppedAt(rule, c, k, p)
    decreases |c|
  {
    if |c| > 1 && Pops(rule, c[|c| - 2], c[|c| - 1], p) then
      var r := Pop(rule, c[..|c| - 1], p);
      PoppedExtend(rule, c, c[..|c| - 1], |r|, p);
      r
    else c
  }

  /** c[k] was removed because, with c[k - 1] before it, p made the rule pop. */
  predicate PoppedAt(rule: PopRule, c: seq<Point>, k: int, p: Point)
    requires 0 <= k < |c|
  {
    k >= 1 && Pops(rule, c[k - 1], c[k], p)
  }

  lemma PoppedExtend(rule: PopRule, c: seq<Point>, c': seq<Point>, n: nat, p: Point)
    requires 2 <= |c| && c' == c[..|c| - 1] && n < |c| && Pops(rule, c[|c| - 2], c[|c| - 1], p)
    requires forall k :: n <= k < |c'| ==> PoppedAt(rule, c', k, p)
    ensures forall k :: n <= k < |c| ==> PoppedAt(rule, c, k, p)
  {
    forall k | n <= k < |c| ensures PoppedAt(rule, c, k, p) {
      if k < |c'| {
        assert PoppedAt(rule, c', k, p);
        assert c'[k] == c[k] && c'[k - 1] == c[k - 1];
      }
    }
  }

  /** Pop, then `chain.append(p)`. */
  function Push(rule: PopRule, c: seq<Point>, p: Point): seq<Point> {
    Pop(rule, c, p) + [p]
  }

  /** What one push keeps: p ends the chain, the first point stays, the
      chain stays stable, any subsequence of b grows into one of b + [p],
      and the chain never has fewer than two points once it had one. */
  lemma PushFacts(rule: PopRule, c: seq<Point>, p: Point, b: seq<Point>)
    ensures var r := Push(rule, c, p);
      && |r| >= 1 && r[|r| - 1] == p
      && (|c| >= 1 ==> |r| >= 2 && r[0] == c[0])
      && (Stable(rule, c) ==> Stable(rule, r))
      && (IsSubseq(c, b) ==> IsSubseq(r, b + [p]))
  {
    var q := Pop(rule, c, p);
    var r := q + [p];
    if Stable(rule, c) {
      forall i | 0 <= i < |r| - 2 ensures KeptAt(rule, r, i) {
        if i + 2 < |q| {
          assert KeptAt(rule, c, i);
          assert r[i] == c[i] && r[i + 1] == c[i + 1] && r[i + 2] == c[i + 2];
        }
      }
    }
    if IsSubseq(c, b) {
      SubseqPrefix(c, b, |q|);
      SubseqAppend(q, b, p);
    }
  }

  /** A prefix of a stable chain is stable. */
  lemma StablePrefix(rule: PopRule, c: seq<Point>, k: nat)
    requires Stable(rule, c) && k <= |c|
    ensures Stable(rule, c[..k])
  {
    forall i | 0 <= i < k - 2 ensures KeptAt(rule, c[..k], i) {
      assert KeptAt(rule, c, i);
      assert c[..k][i] == c[i] && c[..k][i + 1] == c[i + 1] && c[..k][i + 2] == c[i + 2];
    }
  }

  /** A chain built by pushing ps, in order, onto an empty chain. */
  function Scan(rule: PopRule, ps: seq<Point>): seq<Point>
    decreases |ps|
  {
    if ps == [] then [] else Push(rule, Scan(rule, ps[..|ps| - 1]), ps[|ps| - 1])
  }

  /** The chain invariants of every builder: the chain is a subsequence of
      what was scanned, in scan order; it is empty only for an empty scan;
      it starts with the first point scanned (which is never popped) and ends
      with the last one; it has at least two points after two pushes; and
      no consecutive triple would make the rule pop. */
  lemma {:induction false} ScanFacts(rule: PopRule, ps: seq<Point>)
    ensures var c := Scan(rule, ps);
      && IsSubseq(c, ps)
      && Stable(rule, c)
      && (ps == [] <==> c == [])
      && (|ps| >= 1 ==> c[0] == ps[0] && c[|c| - 1] == ps[|ps| - 1])
      && (|ps| >= 2 ==> |c| >= 2)
    decreases |ps|
  {
    if ps != [] {
      var ps', x := ps[..|ps| - 1], ps[|ps| - 1];
      var c' := Scan(rule, ps');
      assert Scan(rule, ps) == Push(rule, c', x);
      ScanFacts(rule, ps');
      PushFacts(rule, c', x, ps');
      assert ps' + [x] == ps;
      if |ps'| >= 1 {
        assert ps'[0] == ps[0];
      }
    }
  }

  /** Scanning one more point is one more push. */
  lemma ScanSnoc(rule: PopRule, ps: seq<Point>, p: Point)
    ensures Scan(rule, ps + [p]) == Push(rule, Scan(rule, ps), p)
  {
    assert (ps + [p])[..|ps|] == ps;
  }

  /** A chain scanned over ps and then pushed p: the invariants of
      ScanFacts for ps + [p]. */
  lemma ScanPushFacts(rule: PopRule, ps: seq<Point>, p: Point)
    requires ps != []
    ensures var c := Push(rule, Scan(rule, ps), p);
      && IsSubseq(c, ps + [p]) && Stable(rule, c)
      && |c| >= 2 && c[0] == ps[0] && c[|c| - 1] == p
  {
    ScanSnoc(rule, ps, p);
    ScanFacts(rule, ps + [p]);
  }

  /** A chain scanned over ps and then popped against p, without pushing
      p: a non-empty stable subsequence of ps that starts with ps[0], and
      its last two points no longer make the rule pop with p. */
  lemma ScanPopFacts(rule: PopRule, ps: seq<Point>, p: Point)
    requires ps != []
    ensures var c := Pop(rule, Scan(rule, ps), p);
      && IsSubseq(c, ps) && Stable(rule, c)
      && |c| >= 1 && c[0] == ps[0]
      && (|c| >= 2 ==> !Pops(rule, c[|c| - 2], c[|c| - 1], p))
  {
    ScanFacts(rule, ps);
    PopFacts(rule, Scan(rule, ps), p, ps);
  }

  /** Popping against p keeps a non-empty stable subsequence of b
      non-empty, stable, a subsequence of b and starting where it did. */
  lemma PopFacts(rule: PopRule, c: seq<Point>, p: Point, b: seq<Point>)
    requires IsSubseq(c, b) && Stable(rule, c) && |c| >= 1
    ensures var r := Pop(rule, c, p);
      && IsSubseq(r, b) && Stable(rule, r)
      && |r| >= 1 && r[0] == c[0]
      && (|r| >= 2 ==> !Pops(rule, r[|r| - 2], r[|r| - 1], p))
  {
    var r := Pop(rule, c, p);
    StablePrefix(rule, c, |r|);
    SubseqPrefix(c, b, |r|);
  }

  /** PopFacts for a lower chain of the single-pass builders, with the
      final turn spelled out: a strict left turn to pn. */
  lemma LowerPopFacts(c: seq<Point>, pn: Point, b: seq<Point>)
    requires IsSubseq(c, b) && Stable(PopOnNonLeft, c) && |c| >= 1
    ensures var l := Pop(PopOnNonLeft, c, pn);
      && IsSubseq(l, b) && |l| >= 1 && l[0] == c[0] && Stable(PopOnNonLeft, l)
      && (|l| >= 2 ==> IsLeftTurn(l[|l| - 2], l[|l| - 1], pn))
  {
    PopFacts(PopOnNonLeft, c, pn, b);
  }

  /** The pop loop of the source, proved to compute Pop. */
  method PopFrom(rule: PopRule, c: seq<Point>, p: Point) returns (r: seq<Point>)
    ensures r == Pop(rule, c, p)
  {
    r := c;
    while |r| > 1 && Pops(rule, r[|r| - 2], r[|r| - 1], p)
      invariant Pop(rule, r, p) == Pop(rule, c, p)
      decreases |r|
    {
      r := r[..|r| - 1];
    }
  }

  /** The pop loop followed by `append`, proved to compute Push. */
  method PushOnto(rule: PopRule, c: seq<Point>, p: Point) returns (r: seq<Point>)
    ensures r == Push(rule, c, p)
    ensures |r| >= 1 && r[|r| - 1] == p
    ensures |c| >= 1 ==> |r| >= 2 && r[0] == c[0]
  {
    r := PopFrom(rule, c, p);
    r := r + [p];
    PushFacts(rule, c, p, []);
  }
}
