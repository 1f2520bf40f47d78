/** Sequence notions the hull chains are described with: order-preserving
    subsequences and reversal. */
module Seqs {

  /** `a` is obtained from `b` by deleting elements and keeping the order
      of the rest. */
  predicate IsSubseq<T(==)>(a: seq<T>, b: seq<T>)
    decreases |b|
  {
    if b == [] then a == []
    else
      || IsSubseq(a, b[..|b| - 1])
      || (a != [] && a[|a| - 1] == b[|b| - 1] && IsSubseq(a[..|a| - 1], b[..|b| - 1]))
  }

  lemma SubseqExtend<T>(a: seq<T>, b: seq<T>, e: T)
    requires IsSubseq(a, b)
    ensures IsSubseq(a, b + [e])
  {
    assert (b + [e])[..|b|] == b;
  }

  lemma SubseqAppend<T>(a: seq<T>, b: seq<T>, e: T)
    requires IsSubseq(a, b)
    ensures IsSubseq(a + [e], b + [e])
  {
    assert (b + [e])[..|b|] == b;
    assert (a + [e])[..|a|] == a;
  }

  lemma {:induction false} SubseqRefl<T>(a: seq<T>)
    ensures IsSubseq(a, a)
    decreases |a|
  {
    if a != [] {
      var a' := a[..|a| - 1];
      SubseqRefl(a');
      SubseqAppend(a', a', a[|a| - 1]);
      assert a' + [a[|a| - 1]] == a;
    }
  }

  /** Dropping a tail of a subsequence leaves a subsequence. */
  lemma {:induction false} SubseqPrefix<T>(a: seq<T>, b: seq<T>, k: nat)
    requires IsSubseq(a, b) && k <= |a|
    ensures IsSubseq(a[..k], b)
    decreases |b|
  {
    if k == |a| {
      assert a[..k] == a;
    } else if b == [] {
    } else {
      var b' := b[..|b| - 1];
      assert b' + [b[|b| - 1]] == b;
      if IsSubseq(a, b') {
        SubseqPrefix(a, b', k);
      } else {
        var a' := a[..|a| - 1];
        assert a'[..k] == a[..k];
        SubseqPrefix(a', b', k);
      }
      SubseqExtend(a[..k], b', b[|b| - 1]);
    }
  }

  lemma {:induction false} SubseqPrepend<T>(x: T, a: seq<T>, b: seq<T>)
    requires IsSubseq(a, b)
    ensures IsSubseq([x] + a, [x] + b)
    decreases |b|
  {
    if b == [] {
      assert a == [];
      SubseqRefl([x]);
    } else {
      var b' := b[..|b| - 1];
      assert ([x] + b')  + [b[|b| - 1]] == [x] + b;
      if IsSubseq(a, b') {
        SubseqPrepend(x, a, b');
        SubseqExtend([x] + a, [x] + b', b[|b| - 1]);
      } else {
        var a' := a[..|a| - 1];
        SubseqPrepend(x, a', b');
        SubseqAppend([x] + a', [x] + b', b[|b| - 1]);
        assert ([x] + a') + [a[|a| - 1]] == [x] + a;
      }
    }
  }

  lemma {:induction false} SubseqTrans<T>(a: seq<T>, b: seq<T>, c: seq<T>)
    requires IsSubseq(a, b) && IsSubseq(b, c)
    ensures IsSubseq(a, c)
    decreases |c|
  {
    if c == [] {
    } else {
      var c' := c[..|c| - 1];
      assert c' + [c[|c| - 1]] == c;
      if IsSubseq(b, c') {
        SubseqTrans(a, b, c');
        SubseqExtend(a, c', c[|c| - 1]);
      } else {
        var b' := b[..|b| - 1];
        if IsSubseq(a, b') {
          SubseqTrans(a, b', c');
          SubseqExtend(a, c', c[|c| - 1]);
        } else {
          var a' := a[..|a| - 1];
          SubseqTrans(a', b', c');
          SubseqAppend(a', c', c[|c| - 1]);
          assert a' + [a[|a| - 1]] == a;
        }
      }
    }
  }

  /** A subsequence takes each element at most as often as `b` has it. */
  lemma {:induction false} SubseqMultiset<T>(a: seq<T>, b: seq<T>)
    requires IsSubseq(a, b)
    ensures multiset(a) <= multiset(b)
    ensures forall x :: x in a ==> x in b
    decreases |b|
  {
    if b != [] {
      var b' := b[..|b| - 1];
      assert b' + [b[|b| - 1]] == b;
      if IsSubseq(a, b') {
        SubseqMultiset(a, b');
      } else {
        var a' := a[..|a| - 1];
        assert a' + [a[|a| - 1]] == a;
        SubseqMultiset(a', b');
      }
    }
    assert forall x :: x in a ==> x in multiset(a);
  }

  /** The reversal of a sequence, element by element. */
  function Reverse<T>(s: seq<T>): (r: seq<T>)
    ensures |r| == |s|
    ensures forall i :: 0 <= i < |s| ==> r[i] == s[|s| - 1 - i]
    decreases |s|
  {
    if s == [] then [] else [s[|s| - 1]] + Reverse(s[..|s| - 1])
  }

  lemma ReverseMultiset<T>(s: seq<T>)
    ensures multiset(Reverse(s)) == multiset(s)
    ensures forall x :: x in Reverse(s) <==> x in s
  {
    if s != [] {
      var s' := s[..|s| - 1];
      ReverseMultiset(s');
      assert s' + [s[|s| - 1]] == s;
    }
  }
}
