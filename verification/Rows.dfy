/** The array operations the repositories built on arrays use: filter, find and findIndex. */
module Rows {

  /** The elements a condition keeps, in order. */
  function Kept<T(!new)>(rows: seq<T>, keep: T -> bool): (r: seq<T>)
    ensures |r| <= |rows|
    ensures forall x :: x in r <==> x in rows && keep(x)
  {
    if rows == [] then []
    else Kept(rows[..|rows| - 1], keep) + if keep(rows[|rows| - 1]) then [rows[|rows| - 1]] else []
  }

  /** The first index a condition picks, or the length when it picks none. */
  function First<T(!new)>(rows: seq<T>, wanted: T -> bool): (i: nat)
    ensures i <= |rows| && (i < |rows| ==> wanted(rows[i]))
    ensures forall j :: 0 <= j < i ==> !wanted(rows[j])
  {
    if rows == [] || wanted(rows[0]) then 0 else
      var i := First(rows[1..], wanted);
      assert forall j :: 1 <= j < 1 + i ==> rows[j] == rows[1..][j - 1];
      1 + i
  }

  method Filter<T(!new)>(rows: seq<T>, keep: T -> bool) returns (kept: seq<T>)
    ensures kept == Kept(rows, keep)
  {
    kept := [];
    for i := 0 to |rows|
      invariant kept == Kept(rows[..i], keep)
    {
      assert rows[..i + 1][..i] == rows[..i];
      if keep(rows[i]) {
        kept := kept + [rows[i]];
      }
    }
    assert rows[..|rows|] == rows;
  }

  method FindIndex<T(!new)>(rows: seq<T>, wanted: T -> bool) returns (i: nat)
    ensures i == First(rows, wanted)
  {
    i := 0;
    while i < |rows| && !wanted(rows[i])
      invariant i <= |rows| && forall j :: 0 <= j < i ==> !wanted(rows[j])
    {
      i := i + 1;
    }
  }

  lemma KeptAppend<T(!new)>(rows: seq<T>, x: T, keep: T -> bool)
    ensures Kept(rows + [x], keep) == Kept(rows, keep) + if keep(x) then [x] else []
  {
  }

  /** Dropping rows never keeps more of them. */
  lemma {:induction false} KeptShrinks<T(!new)>(rows: seq<T>, drop: T -> bool, keep: T -> bool)
    ensures |Kept(Kept(rows, drop), keep)| <= |Kept(rows, keep)|
  {
    if rows != [] {
      var init, x := rows[..|rows| - 1], rows[|rows| - 1];
      KeptShrinks(init, drop, keep);
      if drop(x) {
        KeptAppend(Kept(init, drop), x, keep);
      } else {
        assert Kept(rows, drop) == Kept(init, drop);
      }
    }
  }

  /** Rewriting a row that is dropped either way makes no difference. */
  lemma {:induction false} KeptIgnores<T(!new)>(rows: seq<T>, i: nat, x: T, keep: T -> bool)
    requires i < |rows| && !keep(rows[i]) && !keep(x)
    ensures Kept(rows[i := x], keep) == Kept(rows, keep)
  {
    var init, last := rows[..|rows| - 1], rows[|rows| - 1];
    assert rows == init + [last];
    if i == |init| {
      assert rows[i := x][..|init|] == init;
    } else {
      KeptIgnores(init, i, x, keep);
      assert rows[i := x][..|init|] == init[i := x];
    }
  }

  /** Rewriting a row without changing whether it is kept leaves the count. */
  lemma {:induction false} KeptRewrite<T(!new)>(rows: seq<T>, i: nat, x: T, keep: T -> bool)
    requires i < |rows| && keep(x) == keep(rows[i])
    ensures |Kept(rows[i := x], keep)| == |Kept(rows, keep)|
  {
    var n := |rows| - 1;
    var init, last := rows[..n], rows[n];
    assert rows == init + [last];
    KeptAppend(init, last, keep);
    if i == n {
      assert rows[i := x] == init + [x];
      KeptAppend(init, x, keep);
    } else {
      KeptRewrite(init, i, x, keep);
      assert rows[i := x] == init[i := x] + [last];
      KeptAppend(init[i := x], last, keep);
    }
  }
}
