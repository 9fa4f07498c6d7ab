/**
 * pandas `groupby(key)[value].sum()`: one entry per distinct key holding the
 * sum of the values with that key, with the keys in ascending order (pandas
 * sorts group keys by default). Generic in the key type; the ascending order
 * is given by a `less` relation.
 */
module Grouping {

  /** One group of a groupby-sum: its key and the sum of its values. */
  datatype Entry<K> = Entry(key: K, total: real)

  ghost predicate StrictTotalOrder<K(!new)>(less: (K, K) -> bool) {
    && (forall a :: !less(a, a))
    && (forall a, b, c :: less(a, b) && less(b, c) ==> less(a, c))
    && (forall a, b :: a != b ==> less(a, b) || less(b, a))
  }

  /** Keys strictly ascending (and hence pairwise distinct). */
  ghost predicate Ascending<K>(g: seq<Entry<K>>, less: (K, K) -> bool) {
    forall i, j :: 0 <= i < j < |g| ==> less(g[i].key, g[j].key)
  }

  // ---- the input side: (key, value) pairs, in row order ----

  /** Sum of all values. */
  function SumOf<K>(ps: seq<(K, real)>): real {
    if ps == [] then 0.0 else ps[0].1 + SumOf(ps[1..])
  }

  /** Sum of the values whose key is `k` (`df[df[key] == k][value].sum()`). */
  function SumFor<K(==)>(ps: seq<(K, real)>, k: K): real {
    if ps == [] then 0.0 else (if ps[0].0 == k then ps[0].1 else 0.0) + SumFor(ps[1..], k)
  }

  /** The distinct keys present. */
  function KeysOf<K>(ps: seq<(K, real)>): set<K> {
    if ps == [] then {} else {ps[0].0} + KeysOf(ps[1..])
  }

  // ---- the output side: entries ----

  function KeySet<K>(g: seq<Entry<K>>): set<K> {
    if g == [] then {} else {g[0].key} + KeySet(g[1..])
  }

  /** Sum of the group totals. */
  function Totals<K>(g: seq<Entry<K>>): real {
    if g == [] then 0.0 else g[0].total + Totals(g[1..])
  }

  /** Sum of the totals of the entries whose key is `k`. */
  function TotalFor<K(==)>(g: seq<Entry<K>>, k: K): real {
    if g == [] then 0.0 else (if g[0].key == k then g[0].total else 0.0) + TotalFor(g[1..], k)
  }

  /**
   * Adds value `a` under key `k`: to the existing entry for `k`, or as a new
   * entry placed before the first larger key.
   */
  function Insert<K(==,!new)>(g: seq<Entry<K>>, k: K, a: real, less: (K, K) -> bool): (r: seq<Entry<K>>)
    ensures KeySet(r) == KeySet(g) + {k}
    ensures Totals(r) == Totals(g) + a
    ensures forall j :: TotalFor(r, j) == TotalFor(g, j) + (if j == k then a else 0.0)
  {
    if g == [] then [Entry(k, a)]
    else if g[0].key == k then [Entry(k, g[0].total + a)] + g[1..]
    else if less(k, g[0].key) then [Entry(k, a)] + g
    else [g[0]] + Insert(g[1..], k, a, less)
  }

  /** `groupby(key)[value].sum()` over the pairs `ps`. */
  function GroupSum<K(==,!new)>(ps: seq<(K, real)>, less: (K, K) -> bool): (g: seq<Entry<K>>)
    ensures KeySet(g) == KeysOf(ps)
    ensures Totals(g) == SumOf(ps)
    ensures forall k :: TotalFor(g, k) == SumFor(ps, k)
  {
    if ps == [] then [] else Insert(GroupSum(ps[1..], less), ps[0].0, ps[0].1, less)
  }

  lemma {:induction false} KeySetIndex<K>(g: seq<Entry<K>>)
    ensures forall i :: 0 <= i < |g| ==> g[i].key in KeySet(g)
    ensures forall k :: k in KeySet(g) ==> exists i :: 0 <= i < |g| && g[i].key == k
  {
    if g != [] {
      KeySetIndex(g[1..]);
      assert forall i :: 1 <= i < |g| ==> g[i] == g[1..][i - 1];
    }
  }

  /** Prepending a key smaller than the first keeps the keys ascending. */
  lemma PrependAscending<K(!new)>(e: Entry<K>, g: seq<Entry<K>>, less: (K, K) -> bool)
    requires StrictTotalOrder(less)
    requires Ascending(g, less)
    requires g != [] ==> less(e.key, g[0].key)
    ensures Ascending([e] + g, less)
  {
    var r := [e] + g;
    forall i, j | 0 <= i < j < |r| ensures less(r[i].key, r[j].key) {
      if i == 0 && j > 1 {
        assert less(g[0].key, g[j - 1].key);
      }
    }
  }

  /** Keeping the first entry in front of a tail whose keys all exceed it keeps the keys ascending. */
  lemma ConsAscending<K(!new)>(e: Entry<K>, t: seq<Entry<K>>, less: (K, K) -> bool)
    requires Ascending(t, less)
    requires forall k :: k in KeySet(t) ==> less(e.key, k)
    ensures Ascending([e] + t, less)
  {
    KeySetIndex(t);
    var r := [e] + t;
    forall i, j | 0 <= i < j < |r| ensures less(r[i].key, r[j].key) {
      if i == 0 {
        assert t[j - 1].key in KeySet(t);
      } else {
        assert r[i] == t[i - 1] && r[j] == t[j - 1];
      }
    }
  }

  lemma {:induction false} InsertAscending<K(!new)>(g: seq<Entry<K>>, k: K, a: real, less: (K, K) -> bool)
    requires StrictTotalOrder(less)
    requires Ascending(g, less)
    ensures Ascending(Insert(g, k, a, less), less)
  {
    if g == [] {
    } else if g[0].key == k {
      PrependAscending(Entry(k, g[0].total + a), g[1..], less);
    } else if less(k, g[0].key) {
      PrependAscending(Entry(k, a), g, less);
    } else {
      assert less(g[0].key, k);
      var tail := Insert(g[1..], k, a, less);
      InsertAscending(g[1..], k, a, less);
      KeySetIndex(g[1..]);
      forall j | j in KeySet(tail) ensures less(g[0].key, j) {
        if j != k {
          var i :| 0 <= i < |g[1..]| && g[1..][i].key == j;
          assert g[1..][i] == g[i + 1];
        }
      }
      ConsAscending(g[0], tail, less);
    }
  }

  /** The groups come out in strictly ascending key order. */
  lemma {:induction false} GroupSumAscending<K(!new)>(ps: seq<(K, real)>, less: (K, K) -> bool)
    requires StrictTotalOrder(less)
    ensures Ascending(GroupSum(ps, less), less)
  {
    if ps != [] {
      GroupSumAscending(ps[1..], less);
      InsertAscending(GroupSum(ps[1..], less), ps[0].0, ps[0].1, less);
    }
  }

  /** With distinct keys, each entry's total is the total recorded under its key. */
  lemma {:induction false} AscendingTotalFor<K(!new)>(g: seq<Entry<K>>, less: (K, K) -> bool, i: nat)
    requires StrictTotalOrder(less)
    requires Ascending(g, less)
    requires i < |g|
    ensures TotalFor(g, g[i].key) == g[i].total
  {
    var k := g[i].key;
    if i == 0 {
      AbsentTotalFor(g[1..], k, less);
    } else {
      assert less(g[0].key, k);
      AscendingTotalFor(g[1..], less, i - 1);
    }
  }

  lemma {:induction false} AbsentTotalFor<K(!new)>(g: seq<Entry<K>>, k: K, less: (K, K) -> bool)
    requires StrictTotalOrder(less)
    requires forall i :: 0 <= i < |g| ==> less(k, g[i].key)
    ensures TotalFor(g, k) == 0.0
  {
    if g != [] {
      AbsentTotalFor(g[1..], k, less);
    }
  }

  /** With distinct keys there are as many entries as keys. */
  lemma {:induction false} AscendingCardinality<K(!new)>(g: seq<Entry<K>>, less: (K, K) -> bool)
    requires StrictTotalOrder(less)
    requires Ascending(g, less)
    ensures |KeySet(g)| == |g|
  {
    if g != [] {
      AscendingCardinality(g[1..], less);
      KeySetIndex(g[1..]);
      assert g[0].key !in KeySet(g[1..]);
    }
  }

  /**
   * The meaning of a groupby-sum: the keys ascend, there is exactly one group per
   * distinct key of the input, each group holds the sum of its key's values, and
   * the group totals add up to the sum of all values.
   */
  lemma GroupSumSpec<K(!new)>(ps: seq<(K, real)>, less: (K, K) -> bool)
    requires StrictTotalOrder(less)
    ensures Ascending(GroupSum(ps, less), less)
    ensures KeySet(GroupSum(ps, less)) == KeysOf(ps)
    ensures |GroupSum(ps, less)| == |KeysOf(ps)|
    ensures Totals(GroupSum(ps, less)) == SumOf(ps)
    ensures forall i :: 0 <= i < |GroupSum(ps, less)| ==>
              GroupSum(ps, less)[i].total == SumFor(ps, GroupSum(ps, less)[i].key)
  {
    var g := GroupSum(ps, less);
    GroupSumAscending(ps, less);
    AscendingCardinality(g, less);
    forall i | 0 <= i < |g| ensures g[i].total == SumFor(ps, g[i].key) {
      AscendingTotalFor(g, less, i);
    }
  }
}
