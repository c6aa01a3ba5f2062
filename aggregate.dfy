/**
 * The store's `$group` stage with `count: { $sum: 1 }` and `points: { $sum: '$points' }`:
 * one group per distinct key, in order of first appearance.
 */
module Aggregate {

  datatype Group<K> = Group(key: K, count: nat, points: int)

  /** The `{ _id, count }` entries of a `$group` that only counts. */
  datatype Tally<K> = Tally(id: K, count: nat)

  /** How many items have key `k`. */
  function CountKey<T, K(==)>(xs: seq<T>, key: T -> K, k: K): nat
    decreases |xs|
  {
    if xs == [] then 0
    else CountKey(xs[..|xs| - 1], key, k) + (if key(xs[|xs| - 1]) == k then 1 else 0)
  }

  /** The weights of the items with key `k`, summed. */
  function PointsOfKey<T, K(==)>(xs: seq<T>, key: T -> K, weight: T -> int, k: K): int
    decreases |xs|
  {
    if xs == [] then 0
    else PointsOfKey(xs[..|xs| - 1], key, weight, k) + (if key(xs[|xs| - 1]) == k then weight(xs[|xs| - 1]) else 0)
  }

  /** All the weights, summed. */
  function TotalWeight<T>(xs: seq<T>, weight: T -> int): int
    decreases |xs|
  {
    if xs == [] then 0 else TotalWeight(xs[..|xs| - 1], weight) + weight(xs[|xs| - 1])
  }

  /** The key of every item, in order. */
  function Column<T, K>(xs: seq<T>, key: T -> K): (c: seq<K>)
    ensures |c| == |xs| && forall i :: 0 <= i < |xs| ==> c[i] == key(xs[i])
  {
    seq(|xs|, i requires 0 <= i < |xs| => key(xs[i]))
  }

  function Keys<K>(gs: seq<Group<K>>): seq<K> {
    seq(|gs|, i requires 0 <= i < |gs| => gs[i].key)
  }

  predicate DistinctKeys<K(==)>(gs: seq<Group<K>>) {
    forall i, j :: 0 <= i < j < |gs| ==> gs[i].key != gs[j].key
  }

  function SumCounts<K>(gs: seq<Group<K>>): int {
    if gs == [] then 0 else gs[0].count + SumCounts(gs[1..])
  }

  function SumPoints<K>(gs: seq<Group<K>>): int {
    if gs == [] then 0 else gs[0].points + SumPoints(gs[1..])
  }

  /** One accumulation step: bump the group of `k`, or open a new one at the end. */
  function AddToGroup<K(==,!new)>(gs: seq<Group<K>>, k: K, w: int): (r: seq<Group<K>>)
    requires DistinctKeys(gs)
    ensures |r| == if k in Keys(gs) then |gs| else |gs| + 1
    ensures forall i :: 0 <= i < |gs| ==>
      r[i] == if gs[i].key == k then Group(k, gs[i].count + 1, gs[i].points + w) else gs[i]
    ensures k !in Keys(gs) ==> r[|gs|] == Group(k, 1, w)
    decreases |gs|
  {
    if gs == [] then [Group(k, 1, w)]
    else
      var tail := gs[1..];
      assert forall i :: 0 <= i < |tail| ==> tail[i] == gs[i + 1];
      assert Keys(gs) == [gs[0].key] + Keys(tail);
      if gs[0].key == k then
        [Group(k, gs[0].count + 1, gs[0].points + w)] + tail
      else
        [gs[0]] + AddToGroup(tail, k, w)
  }

  /** The step keeps the keys distinct and adds `k` to them. */
  lemma AddToGroupKeys<K(!new)>(gs: seq<Group<K>>, k: K, w: int)
    requires DistinctKeys(gs)
    ensures DistinctKeys(AddToGroup(gs, k, w))
    ensures forall j :: j in Keys(AddToGroup(gs, k, w)) <==> j in Keys(gs) || j == k
  {
    var r := AddToGroup(gs, k, w);
    assert forall i :: 0 <= i < |gs| ==> r[i].key == gs[i].key;
    forall i, j | 0 <= i < j < |r| ensures r[i].key != r[j].key {
      if j == |gs| {
        assert Keys(gs)[i] == gs[i].key;
      }
    }
    if k in Keys(gs) {
      var m :| 0 <= m < |gs| && gs[m].key == k;
      assert Keys(r) == Keys(gs);
    } else {
      assert Keys(r) == Keys(gs) + [k];
    }
  }

  /** The step adds one to the counts and `w` to the points. */
  lemma {:induction false} AddToGroupSums<K(!new)>(gs: seq<Group<K>>, k: K, w: int)
    requires DistinctKeys(gs)
    ensures SumCounts(AddToGroup(gs, k, w)) == SumCounts(gs) + 1
    ensures SumPoints(AddToGroup(gs, k, w)) == SumPoints(gs) + w
    decreases |gs|
  {
    if gs != [] {
      var tail := gs[1..];
      assert forall i :: 0 <= i < |tail| ==> tail[i] == gs[i + 1];
      var r := AddToGroup(gs, k, w);
      if gs[0].key == k {
        assert r[1..] == tail;
      } else {
        AddToGroupSums(tail, k, w);
        assert r[1..] == AddToGroup(tail, k, w);
      }
    }
  }

  /** A key that no item carries has no count and no points. */
  lemma {:induction false} AbsentKey<T, K>(xs: seq<T>, key: T -> K, weight: T -> int, k: K)
    requires forall i :: 0 <= i < |xs| ==> key(xs[i]) != k
    ensures CountKey(xs, key, k) == 0 && PointsOfKey(xs, key, weight, k) == 0
    decreases |xs|
  {
    if xs != [] {
      AbsentKey(xs[..|xs| - 1], key, weight, k);
    }
  }

  /**
   * `gs` is the grouping of `xs`: one group per distinct key that occurs, none for a key that
   * does not, and each group holds exactly the count and the summed weight of its items.
   */
  ghost predicate IsGrouping<T, K(!new)>(gs: seq<Group<K>>, xs: seq<T>, key: T -> K, weight: T -> int) {
    && DistinctKeys(gs)
    && (forall k :: k in Keys(gs) <==> k in Column(xs, key))
    && (forall i :: 0 <= i < |gs| ==>
         gs[i].count == CountKey(xs, key, gs[i].key) && gs[i].count > 0
         && gs[i].points == PointsOfKey(xs, key, weight, gs[i].key))
  }

  /** Adding one more item to a grouping with `AddToGroup` gives the grouping of the longer input. */
  lemma GroupStep<T, K(!new)>(prev: seq<Group<K>>, init: seq<T>, x: T, key: T -> K, weight: T -> int)
    requires IsGrouping(prev, init, key, weight)
    ensures IsGrouping(AddToGroup(prev, key(x), weight(x)), init + [x], key, weight)
  {
    var xs := init + [x];
    var gs := AddToGroup(prev, key(x), weight(x));
    AddToGroupKeys(prev, key(x), weight(x));
    assert xs[..|xs| - 1] == init;
    assert Column(xs, key) == Column(init, key) + [key(x)];
    forall i | 0 <= i < |gs|
      ensures gs[i].count == CountKey(xs, key, gs[i].key) && gs[i].count > 0
              && gs[i].points == PointsOfKey(xs, key, weight, gs[i].key)
    {
      if i == |prev| {
        assert key(x) !in Column(init, key);
        AbsentKey(init, key, weight, key(x));
      }
    }
  }

  /** `$group` by `key`, counting the items and summing `weight` per group. */
  function GroupBy<T, K(==,!new)>(xs: seq<T>, key: T -> K, weight: T -> int): (gs: seq<Group<K>>)
    ensures IsGrouping(gs, xs, key, weight)
    decreases |xs|
  {
    if xs == [] then []
    else
      var init := xs[..|xs| - 1];
      var last := xs[|xs| - 1];
      var prev := GroupBy(init, key, weight);
      GroupStep(prev, init, last, key, weight);
      assert init + [last] == xs;
      AddToGroup(prev, key(last), weight(last))
  }

  /** The groups partition the items: their counts add up to the number of items and their points to the total weight. */
  lemma {:induction false} GroupByPartitions<T, K(!new)>(xs: seq<T>, key: T -> K, weight: T -> int)
    ensures SumCounts(GroupBy(xs, key, weight)) == |xs|
    ensures SumPoints(GroupBy(xs, key, weight)) == TotalWeight(xs, weight)
    decreases |xs|
  {
    if xs != [] {
      var init := xs[..|xs| - 1];
      GroupByPartitions(init, key, weight);
      AddToGroupSums(GroupBy(init, key, weight), key(xs[|xs| - 1]), weight(xs[|xs| - 1]));
    }
  }

  /** Keep only `{ _id, count }` of each group, in the same order. */
  function Tallies<K>(gs: seq<Group<K>>): (ts: seq<Tally<K>>)
    ensures |ts| == |gs|
    ensures forall i :: 0 <= i < |gs| ==> ts[i] == Tally(gs[i].key, gs[i].count)
  {
    seq(|gs|, i requires 0 <= i < |gs| => Tally(gs[i].key, gs[i].count))
  }

  /** The counts of the tallies added up, left to right, from 0. */
  function SumTallies<K>(ts: seq<Tally<K>>): int {
    if ts == [] then 0 else ts[0].count + SumTallies(ts[1..])
  }

  /** Projecting the groups onto their counts keeps the sum of the counts. */
  lemma {:induction false} SumTalliesOfGroups<K>(gs: seq<Group<K>>)
    ensures SumTallies(Tallies(gs)) == SumCounts(gs)
  {
    if gs != [] {
      SumTalliesOfGroups(gs[1..]);
      assert Tallies(gs)[1..] == Tallies(gs[1..]);
    }
  }

  function TallyIds<K>(ts: seq<Tally<K>>): seq<K> {
    seq(|ts|, i requires 0 <= i < |ts| => ts[i].id)
  }

  /**
   * `ts` is the counting breakdown of `xs`: one entry per distinct key that occurs, none for a
   * key that does not, and each entry holds the number of items with its key, never 0.
   */
  ghost predicate IsBreakdown<T, K(!new)>(ts: seq<Tally<K>>, xs: seq<T>, key: T -> K) {
    && (forall i, j :: 0 <= i < j < |ts| ==> ts[i].id != ts[j].id)
    && (forall k :: k in TallyIds(ts) <==> k in Column(xs, key))
    && (forall i :: 0 <= i < |ts| ==> ts[i].count == CountKey(xs, key, ts[i].id) && ts[i].count > 0)
  }

  /** The weight of a group that only counts. */
  function NoWeight<T>(x: T): int { 0 }

  /** `$group` by `key` with only `count: { $sum: 1 }`. */
  function CountBy<T, K(==,!new)>(xs: seq<T>, key: T -> K): (ts: seq<Tally<K>>)
    ensures IsBreakdown(ts, xs, key)
  {
    var gs := GroupBy(xs, key, NoWeight);
    var ts := Tallies(gs);
    assert TallyIds(ts) == Keys(gs);
    ts
  }

  /** The counts of a counting breakdown add up to the number of items. */
  lemma CountBySum<T, K(!new)>(xs: seq<T>, key: T -> K)
    ensures SumTallies(CountBy(xs, key)) == |xs|
  {
    var gs := GroupBy(xs, key, NoWeight);
    GroupByPartitions(xs, key, NoWeight);
    SumTalliesOfGroups(gs);
  }

  /** A grouping under a key that every item shares has at most one group, holding the total weight. */
  lemma SharedKeyGrouping<T, K(!new)>(xs: seq<T>, key: T -> K, weight: T -> int)
    requires forall x, y :: key(x) == key(y)
    ensures |GroupBy(xs, key, weight)| <= 1
    ensures |GroupBy(xs, key, weight)| == 1 ==> GroupBy(xs, key, weight)[0].points == TotalWeight(xs, weight)
  {
    var gs := GroupBy(xs, key, weight);
    GroupByPartitions(xs, key, weight);
    if |gs| == 1 {
      assert SumPoints(gs) == gs[0].points + SumPoints(gs[1..]);
    }
  }
}
