/**
 * The bulk load `for row in results: cache[key(row)] = value(row)` that
 * fills each cache at startup, written once for all four caches.
 */
module RowLoading {

  /** The map after storing every row of `rows`, in order, into `m`. */
  function LoadRows<R, K, V>(m: map<K, V>, rows: seq<R>, key: R -> K, value: R -> V): map<K, V>
  {
    if rows == [] then m
    else LoadRows(m, rows[..|rows| - 1], key, value)[key(rows[|rows| - 1]) := value(rows[|rows| - 1])]
  }

  /** `j` is the last row of `rows` that stores under key `k`. */
  ghost predicate LastWithKey<R, K>(rows: seq<R>, key: R -> K, k: K, j: int)
  {
    0 <= j < |rows| && key(rows[j]) == k && forall j' :: j < j' < |rows| ==> key(rows[j']) != k
  }

  /** A key is present after the load iff it was before or some row has it; untouched keys keep their value. */
  lemma {:induction false} LoadRowsDomain<R, K, V>(m: map<K, V>, rows: seq<R>, key: R -> K, value: R -> V, k: K)
    ensures k in LoadRows(m, rows, key, value) <==> k in m || exists j :: 0 <= j < |rows| && key(rows[j]) == k
    ensures (forall j :: 0 <= j < |rows| ==> key(rows[j]) != k) && k in m ==>
              LoadRows(m, rows, key, value)[k] == m[k]
  {
    if rows != [] {
      var init := rows[..|rows| - 1];
      LoadRowsDomain(m, init, key, value, k);
      assert forall j :: 0 <= j < |init| ==> init[j] == rows[j];
    }
  }

  /** The last row with a key decides that key's value. */
  lemma {:induction false} LoadRowsLastWins<R, K, V>(m: map<K, V>, rows: seq<R>, key: R -> K, value: R -> V, k: K, j: int)
    requires LastWithKey(rows, key, k, j)
    ensures k in LoadRows(m, rows, key, value) && LoadRows(m, rows, key, value)[k] == value(rows[j])
  {
    var init := rows[..|rows| - 1];
    if j < |rows| - 1 {
      assert LastWithKey(init, key, k, j);
      LoadRowsLastWins(m, init, key, value, k, j);
    }
  }

  /** A key some row has has a last such row. */
  lemma {:induction false} ExistsLastWithKey<R, K>(rows: seq<R>, key: R -> K, k: K, j: int)
    requires 0 <= j < |rows| && key(rows[j]) == k
    ensures exists jl :: LastWithKey(rows, key, k, jl)
    decreases |rows| - j
  {
    if !LastWithKey(rows, key, k, j) {
      var j' :| j < j' < |rows| && key(rows[j']) == k;
      ExistsLastWithKey(rows, key, k, j');
    }
  }

  /**
   * After the load, a key is present exactly when it was present before or some
   * row stores under it; a key that some row stores under holds the value of
   * the last such row; and every other key keeps its old value.
   */
  lemma LoadRowsContents<R, K, V>(m: map<K, V>, rows: seq<R>, key: R -> K, value: R -> V, k: K)
    ensures k in LoadRows(m, rows, key, value) <==> k in m || exists j :: 0 <= j < |rows| && key(rows[j]) == k
    ensures forall j :: LastWithKey(rows, key, k, j) ==> LoadRows(m, rows, key, value)[k] == value(rows[j])
    ensures (exists j :: 0 <= j < |rows| && key(rows[j]) == k) ==>
              exists j :: LastWithKey(rows, key, k, j) && LoadRows(m, rows, key, value)[k] == value(rows[j])
    ensures (forall j :: 0 <= j < |rows| ==> key(rows[j]) != k) && k in m ==>
              LoadRows(m, rows, key, value)[k] == m[k]
  {
    LoadRowsDomain(m, rows, key, value, k);
    forall j | LastWithKey(rows, key, k, j)
      ensures LoadRows(m, rows, key, value)[k] == value(rows[j])
    {
      LoadRowsLastWins(m, rows, key, value, k, j);
    }
    if exists j :: 0 <= j < |rows| && key(rows[j]) == k {
      var j :| 0 <= j < |rows| && key(rows[j]) == k;
      ExistsLastWithKey(rows, key, k, j);
    }
  }

  /** The loop of the bulk load, over a local copy of the cache. */
  method Load<R, K, V>(m: map<K, V>, rows: seq<R>, key: R -> K, value: R -> V) returns (r: map<K, V>)
    ensures r == LoadRows(m, rows, key, value)
  {
    r := m;
    for i := 0 to |rows|
      invariant r == LoadRows(m, rows[..i], key, value)
    {
      assert rows[..i + 1][..i] == rows[..i];
      r := r[key(rows[i]) := value(rows[i])];
    }
    assert rows[..|rows|] == rows;
  }
}
