/** The scans the in-memory repositories run over a table keyed by id. */
module Tables {
  import opened Base

  /** The keys of the rows a condition picks. */
  function Picked<K, V>(rows: map<K, V>, picked: V -> bool): set<K> {
    set k | k in rows && picked(rows[k])
  }

  function Without<K, V>(rows: map<K, V>, doomed: V -> bool): map<K, V> {
    map k | k in rows && !doomed(rows[k]) :: rows[k]
  }

  function Rewritten<K, V>(rows: map<K, V>, picked: V -> bool, change: V -> V): map<K, V> {
    map k | k in rows :: if picked(rows[k]) then change(rows[k]) else rows[k]
  }

  lemma CountWithout<K, V>(rows: map<K, V>, gone: set<K>)
    requires gone <= rows.Keys
    ensures |rows - gone| == |rows| - |gone|
  {
    assert (rows - gone).Keys == rows.Keys - gone;
    assert |rows.Keys - gone| == |rows.Keys| - |gone|;
  }

  /** Deletes every row `doomed` picks and counts the rows it removed. */
  method DeleteWhere<K, V>(rows: map<K, V>, doomed: V -> bool) returns (kept: map<K, V>, n: nat)
    ensures kept == Without(rows, doomed)
    ensures n == |Picked(rows, doomed)|
    ensures n == |rows| - |kept|
  {
    kept, n := rows, 0;
    var todo := rows.Keys;
    ghost var removed: set<K> := {};
    while todo != {}
      invariant todo <= rows.Keys && removed <= rows.Keys && removed !! todo
      invariant forall k :: k in removed <==> k in rows && k !in todo && doomed(rows[k])
      invariant kept == rows - removed && n == |removed|
      decreases todo
    {
      var k :| k in todo;
      todo := todo - {k};
      if doomed(rows[k]) {
        kept := kept - {k};
        removed := removed + {k};
        n := n + 1;
      }
    }
    assert removed == Picked(rows, doomed);
    CountWithout(rows, removed);
  }

  /** Rewrites every picked row in place and counts the rows it changed. */
  method UpdateWhere<K, V>(rows: map<K, V>, picked: V -> bool, change: V -> V) returns (after: map<K, V>, n: nat)
    ensures after == Rewritten(rows, picked, change)
    ensures n == |Picked(rows, picked)|
  {
    after, n := rows, 0;
    var todo := rows.Keys;
    ghost var changed: set<K> := {};
    while todo != {}
      invariant todo <= rows.Keys && changed !! todo
      invariant forall k :: k in changed <==> k in rows && k !in todo && picked(rows[k])
      invariant after.Keys == rows.Keys
      invariant forall k :: k in rows ==> after[k] == if k in changed then change(rows[k]) else rows[k]
      invariant n == |changed|
      decreases todo
    {
      var k :| k in todo;
      todo := todo - {k};
      if picked(rows[k]) {
        after := after[k := change(rows[k])];
        changed := changed + {k};
        n := n + 1;
      }
    }
    assert changed == Picked(rows, picked);
  }

  /** Returns the key of some row `wanted` picks, or None when no row qualifies. */
  method FindWhere<K, V>(rows: map<K, V>, wanted: V -> bool) returns (found: Option<K>)
    ensures found.Some? ==> found.value in rows && wanted(rows[found.value])
    ensures found.None? ==> forall k :: k in rows ==> !wanted(rows[k])
  {
    var todo := rows.Keys;
    while todo != {}
      invariant todo <= rows.Keys
      invariant forall k :: k in rows && k !in todo ==> !wanted(rows[k])
      decreases todo
    {
      var k :| k in todo;
      todo := todo - {k};
      if wanted(rows[k]) {
        return Some(k);
      }
    }
    return None;
  }
}
