/**
 * Grouping (key, amount) rows by key and summing each group, the way
 * `DataFrame.groupby(key)['Amount'].sum()` does with its default sort: one
 * row per distinct key, keys in ascending order. A group-by result is kept as
 * a sequence of (key, total) pairs.
 */
module GroupBy {

  /** `less` is a strict total order on K. */
  ghost predicate StrictTotalOrder<K(!new)>(less: (K, K) -> bool) {
    && (forall a :: !less(a, a))
    && (forall a, b, c :: less(a, b) && less(b, c) ==> less(a, c))
    && (forall a, b :: a != b ==> less(a, b) || less(b, a))
  }

  /** The keys that occur in rows. */
  function Keys<K>(rows: seq<(K, real)>): set<K> {
    if rows == [] then {} else {rows[0].0} + Keys(rows[1..])
  }

  /** Sum of the amounts of the rows whose key is k. */
  function SumOf<K(==)>(rows: seq<(K, real)>, k: K): real {
    if rows == [] then 0.0
    else (if rows[0].0 == k then rows[0].1 else 0.0) + SumOf(rows[1..], k)
  }

  /** Sum of all amounts. */
  function Total<K>(rows: seq<(K, real)>): real {
    if rows == [] then 0.0 else rows[0].1 + Total(rows[1..])
  }

  /** Keys strictly ascending, hence pairwise distinct. */
  predicate Ascending<K>(g: seq<(K, real)>, less: (K, K) -> bool) {
    forall i, j :: 0 <= i < j < |g| ==> less(g[i].0, g[j].0)
  }

  /** Every key of g lies above lo. */
  predicate AllAbove<K>(lo: K, g: seq<(K, real)>, less: (K, K) -> bool) {
    forall i :: 0 <= i < |g| ==> less(lo, g[i].0)
  }

  /**
   * Adds amount v under key k to a grouped result g: to k's total when k is
   * already there, as a new row in key order otherwise.
   */
  function Insert<K(==,!new)>(g: seq<(K, real)>, k: K, v: real, less: (K, K) -> bool): (r: seq<(K, real)>)
    ensures Keys(r) == Keys(g) + {k}
    ensures Total(r) == Total(g) + v
    ensures forall k' :: SumOf(r, k') == SumOf(g, k') + (if k' == k then v else 0.0)
  {
    if g == [] then
      assert SumOf([(k, v)], k) == v;
      [(k, v)]
    else if g[0].0 == k then
      var r := [(k, g[0].1 + v)] + g[1..];
      assert r[1..] == g[1..];
      r
    else if less(k, g[0].0) then
      var r := [(k, v)] + g;
      assert r[1..] == g;
      r
    else
      var r := [g[0]] + Insert(g[1..], k, v, less);
      assert r[1..] == Insert(g[1..], k, v, less);
      r
  }

  /** The group-by-and-sum of rows, one row at a time. */
  function GroupSum<K(==,!new)>(rows: seq<(K, real)>, less: (K, K) -> bool): (g: seq<(K, real)>)
    ensures Keys(g) == Keys(rows)
    ensures forall k :: SumOf(g, k) == SumOf(rows, k)
    ensures Total(g) == Total(rows)
  {
    if rows == [] then [] else Insert(GroupSum(rows[1..], less), rows[0].0, rows[0].1, less)
  }

  lemma {:induction false} InsertAbove<K(!new)>(lo: K, g: seq<(K, real)>, k: K, v: real, less: (K, K) -> bool)
    requires AllAbove(lo, g, less) && less(lo, k)
    ensures AllAbove(lo, Insert(g, k, v, less), less)
  {
    if g != [] && g[0].0 != k && !less(k, g[0].0) {
      InsertAbove(lo, g[1..], k, v, less);
    }
  }

  /** Inserting into a result with ascending keys keeps its keys ascending. */
  lemma {:induction false} InsertAscending<K(!new)>(g: seq<(K, real)>, k: K, v: real, less: (K, K) -> bool)
    requires StrictTotalOrder(less) && Ascending(g, less)
    ensures Ascending(Insert(g, k, v, less), less)
  {
    if g == [] {
    } else if g[0].0 == k {
    } else if less(k, g[0].0) {
      var r := Insert(g, k, v, less);
      forall i, j | 0 <= i < j < |r| ensures less(r[i].0, r[j].0) {
        if i == 0 && j > 1 {
          assert less(g[0].0, g[j - 1].0);
        }
      }
    } else {
      assert less(g[0].0, k);
      InsertAscending(g[1..], k, v, less);
      InsertAbove(g[0].0, g[1..], k, v, less);
    }
  }

  /** The keys of the grouped result come out in ascending order, so no key occurs twice. */
  lemma {:induction false} GroupSumAscending<K(!new)>(rows: seq<(K, real)>, less: (K, K) -> bool)
    requires StrictTotalOrder(less)
    ensures Ascending(GroupSum(rows, less), less)
  {
    if rows != [] {
      GroupSumAscending(rows[1..], less);
      InsertAscending(GroupSum(rows[1..], less), rows[0].0, rows[0].1, less);
    }
  }

  /** In a result with ascending keys, the total summed under a row's key is that row's amount. */
  lemma {:induction false} AscendingRowTotal<K(!new)>(g: seq<(K, real)>, less: (K, K) -> bool, i: nat)
    requires StrictTotalOrder(less) && Ascending(g, less) && i < |g|
    ensures SumOf(g, g[i].0) == g[i].1
  {
    if i == 0 {
      AboveNotSummed(g[0].0, g[1..], less);
    } else {
      assert less(g[0].0, g[i].0);
      AscendingRowTotal(g[1..], less, i - 1);
    }
  }

  lemma {:induction false} AboveNotSummed<K(!new)>(lo: K, g: seq<(K, real)>, less: (K, K) -> bool)
    requires StrictTotalOrder(less) && AllAbove(lo, g, less)
    ensures SumOf(g, lo) == 0.0
  {
    if g != [] {
      AboveNotSummed(lo, g[1..], less);
    }
  }

  /**
   * What the group-by promises: ascending keys, exactly the keys of the input,
   * each row carrying the sum of its group, and nothing lost or added overall.
   */
  lemma GroupSumCorrect<K(!new)>(rows: seq<(K, real)>, less: (K, K) -> bool)
    requires StrictTotalOrder(less)
    ensures Ascending(GroupSum(rows, less), less)
    ensures Keys(GroupSum(rows, less)) == Keys(rows)
    ensures forall i :: 0 <= i < |GroupSum(rows, less)| ==>
      GroupSum(rows, less)[i].1 == SumOf(rows, GroupSum(rows, less)[i].0)
    ensures Total(GroupSum(rows, less)) == Total(rows)
  {
    var g := GroupSum(rows, less);
    GroupSumAscending(rows, less);
    forall i | 0 <= i < |g| ensures g[i].1 == SumOf(rows, g[i].0) {
      AscendingRowTotal(g, less, i);
    }
  }
}
