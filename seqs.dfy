/** Order-preserving selection over sequences: JavaScript's `Array.prototype.filter`. */
module Seqs {

  /** `a` can be obtained from `b` by deleting elements, keeping the order of the rest. */
  predicate IsSubseq<T(==)>(a: seq<T>, b: seq<T>)
    decreases |b|
  {
    if b == [] then a == []
    else IsSubseq(a, b[1..]) || (a != [] && a[0] == b[0] && IsSubseq(a[1..], b[1..]))
  }

  /** No element occurs twice. */
  predicate NoDuplicates<T(==)>(xs: seq<T>) {
    forall i, j :: 0 <= i < j < |xs| ==> xs[i] != xs[j]
  }

  /** The number of elements of `xs` that satisfy `p`. */
  function CountWhere<T>(xs: seq<T>, p: T -> bool): nat
    decreases |xs|
  {
    if xs == [] then 0 else (if p(xs[0]) then 1 else 0) + CountWhere(xs[1..], p)
  }

  /** `xs.filter(p)`: the elements that satisfy `p`, in their original order. */
  function Keep<T(==,!new)>(xs: seq<T>, p: T -> bool): (r: seq<T>)
    ensures IsSubseq(r, xs)
    ensures forall x :: x in r <==> x in xs && p(x)
    ensures forall x :: multiset(r)[x] == if p(x) then multiset(xs)[x] else 0
    ensures |r| == CountWhere(xs, p)
    decreases |xs|
  {
    if xs == [] then []
    else
      var rest := Keep(xs[1..], p);
      assert xs == [xs[0]] + xs[1..];
      if p(xs[0]) then
        assert ([xs[0]] + rest)[1..] == rest;
        [xs[0]] + rest
      else
        rest
  }

  /** Filtering twice with the same predicate is filtering once. */
  lemma {:induction false} KeepIdempotent<T(!new)>(xs: seq<T>, p: T -> bool)
    ensures Keep(Keep(xs, p), p) == Keep(xs, p)
    decreases |xs|
  {
    if xs != [] {
      var k := Keep(xs[1..], p);
      KeepIdempotent(xs[1..], p);
      if p(xs[0]) {
        var r := [xs[0]] + k;
        assert r[0] == xs[0] && r[1..] == k;
        assert Keep(r, p) == [xs[0]] + Keep(k, p);
      }
    }
  }

  /** A predicate that every element satisfies keeps the whole sequence. */
  lemma {:induction false} KeepAll<T(!new)>(xs: seq<T>, p: T -> bool)
    requires forall x :: x in xs ==> p(x)
    ensures Keep(xs, p) == xs
    decreases |xs|
  {
    if xs != [] {
      assert xs[0] in xs;
      assert forall x :: x in xs[1..] ==> x in xs;
      KeepAll(xs[1..], p);
      assert xs == [xs[0]] + xs[1..];
    }
  }

  lemma TailNoDuplicates<T>(xs: seq<T>)
    requires xs != [] && NoDuplicates(xs)
    ensures NoDuplicates(xs[1..]) && xs[0] !in xs[1..]
  {
    var rest := xs[1..];
    forall i, j | 0 <= i < j < |rest| ensures rest[i] != rest[j] {
      assert rest[i] == xs[i + 1] && rest[j] == xs[j + 1];
    }
    forall i | 0 <= i < |rest| ensures rest[i] != xs[0] {
      assert rest[i] == xs[i + 1];
    }
  }

  lemma ConsNoDuplicates<T>(x: T, xs: seq<T>)
    requires x !in xs && NoDuplicates(xs)
    ensures NoDuplicates([x] + xs)
  {
    var r := [x] + xs;
    forall i, j | 0 <= i < j < |r| ensures r[i] != r[j] {
      assert r[j] == xs[j - 1];
      if i > 0 {
        assert r[i] == xs[i - 1];
      }
    }
  }

  /** Filtering never creates duplicates. */
  lemma {:induction false} KeepNoDuplicates<T(!new)>(xs: seq<T>, p: T -> bool)
    requires NoDuplicates(xs)
    ensures NoDuplicates(Keep(xs, p))
    decreases |xs|
  {
    if xs != [] {
      TailNoDuplicates(xs);
      KeepNoDuplicates(xs[1..], p);
      if p(xs[0]) {
        ConsNoDuplicates(xs[0], Keep(xs[1..], p));
      }
    }
  }

  /** Two filters can be applied in either order. */
  lemma {:induction false} KeepCommutes<T(!new)>(xs: seq<T>, p: T -> bool, q: T -> bool)
    ensures Keep(Keep(xs, p), q) == Keep(Keep(xs, q), p)
    decreases |xs|
  {
    if xs != [] {
      KeepCommutes(xs[1..], p, q);
      var x := xs[0];
      var kp := Keep(xs[1..], p);
      var kq := Keep(xs[1..], q);
      if p(x) {
        assert ([x] + kp)[0] == x && ([x] + kp)[1..] == kp;
      }
      if q(x) {
        assert ([x] + kq)[0] == x && ([x] + kq)[1..] == kq;
      }
    }
  }
}
