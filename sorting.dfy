/** A descending sort on an integer key: what the store does for `.sort({ field: -1 })`. */
module Sorting {

  /** Keys never increase from left to right. */
  predicate SortedDesc<T>(xs: seq<T>, key: T -> int) {
    forall i, j :: 0 <= i < j < |xs| ==> key(xs[i]) >= key(xs[j])
  }

  /** Putting an element with a key at least the first one in front keeps the order. */
  lemma ConsSorted<T>(a: T, xs: seq<T>, key: T -> int)
    requires SortedDesc(xs, key)
    requires xs != [] ==> key(a) >= key(xs[0])
    ensures SortedDesc([a] + xs, key)
  {
    var r := [a] + xs;
    forall i, j | 0 <= i < j < |r| ensures key(r[i]) >= key(r[j]) {
      assert r[j] == xs[j - 1];
      if i > 0 {
        assert r[i] == xs[i - 1];
      }
    }
  }

  /** The tail of a sorted sequence is sorted. */
  lemma TailSorted<T>(xs: seq<T>, key: T -> int)
    requires SortedDesc(xs, key) && xs != []
    ensures SortedDesc(xs[1..], key)
  {
    var t := xs[1..];
    forall i, j | 0 <= i < j < |t| ensures key(t[i]) >= key(t[j]) {
      assert t[i] == xs[i + 1] && t[j] == xs[j + 1];
    }
  }

  /** Places `x` in front of the first element whose key is not larger. */
  function InsertDesc<T>(x: T, xs: seq<T>, key: T -> int): (r: seq<T>)
    requires SortedDesc(xs, key)
    ensures |r| == |xs| + 1
    ensures r[0] == x || (xs != [] && r[0] == xs[0])
    ensures SortedDesc(r, key)
    ensures multiset(r) == multiset(xs) + multiset{x}
    decreases |xs|
  {
    if xs == [] then [x]
    else if key(x) >= key(xs[0]) then
      ConsSorted(x, xs, key);
      [x] + xs
    else
      TailSorted(xs, key);
      var rest := InsertDesc(x, xs[1..], key);
      assert |xs| > 1 ==> key(xs[0]) >= key(xs[1]);
      ConsSorted(xs[0], rest, key);
      assert xs == [xs[0]] + xs[1..];
      [xs[0]] + rest
  }

  /** Insertion sort: a permutation of `xs` in descending key order. */
  function SortDesc<T>(xs: seq<T>, key: T -> int): (r: seq<T>)
    ensures SortedDesc(r, key)
    ensures multiset(r) == multiset(xs)
    decreases |xs|
  {
    if xs == [] then []
    else
      assert xs == [xs[0]] + xs[1..];
      InsertDesc(xs[0], SortDesc(xs[1..], key), key)
  }

  /**
   * A prefix of a sorted sequence: what is cut off is made of elements whose keys are at most
   * every kept key.
   */
  lemma SortedPrefix<T(!new)>(s: seq<T>, n: nat, key: T -> int)
    requires SortedDesc(s, key) && n <= |s|
    ensures SortedDesc(s[..n], key)
    ensures multiset(s[..n]) <= multiset(s)
    ensures forall x, i :: multiset(s[..n])[x] < multiset(s)[x] && 0 <= i < n ==> key(x) <= key(s[..n][i])
  {
    var r := s[..n];
    assert s == r + s[n..];
    assert multiset(s) == multiset(r) + multiset(s[n..]);
    forall x, i | multiset(r)[x] < multiset(s)[x] && 0 <= i < n
      ensures key(x) <= key(s[i])
    {
      assert x in multiset(s[n..]);
      var j :| 0 <= j < |s[n..]| && s[n..][j] == x;
      assert s[n + j] == x && r[i] == s[i];
    }
  }

  /**
   * `.sort({ field: -1 }).limit(n)`: the `n` elements with the largest keys (all of them when
   * there are fewer), in descending key order.
   */
  function Top<T(!new)>(xs: seq<T>, n: nat, key: T -> int): (r: seq<T>)
    ensures |r| == if |xs| < n then |xs| else n
    ensures SortedDesc(r, key)
    ensures multiset(r) <= multiset(xs)
    ensures forall x, i :: multiset(r)[x] < multiset(xs)[x] && 0 <= i < |r| ==> key(x) <= key(r[i])
  {
    var sorted := SortDesc(xs, key);
    assert |sorted| == |multiset(sorted)| == |multiset(xs)| == |xs|;
    var m := if |xs| < n then |xs| else n;
    SortedPrefix(sorted, m, key);
    var r := sorted[..m];
    assert multiset(sorted) == multiset(xs);
    r
  }
}
