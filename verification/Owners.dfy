/** Tables whose rows belong to accounts: dropping the rows of some of them. */
module Owners {
  import opened Base
  import opened Rows

  function Drop<K, V>(rows: map<K, V>, owner: V -> Option<Id>, ids: set<Id>): map<K, V> {
    map k | k in rows && !(owner(rows[k]).Some? && owner(rows[k]).value in ids) :: rows[k]
  }

  function Stays<T>(owner: T -> Option<Id>, ids: set<Id>): T -> bool {
    (x: T) => !(owner(x).Some? && owner(x).value in ids)
  }

  function DropRows<T(!new)>(rows: seq<T>, owner: T -> Option<Id>, ids: set<Id>): seq<T> {
    Kept(rows, Stays(owner, ids))
  }

  /** Dropped or not, as the flag says. */
  function DropIf<K, V>(drop: bool, rows: map<K, V>, owner: V -> Option<Id>, ids: set<Id>): map<K, V> {
    if drop then Drop(rows, owner, ids) else rows
  }

  function DropRowsIf<T(!new)>(drop: bool, rows: seq<T>, owner: T -> Option<Id>, ids: set<Id>): seq<T> {
    if drop then DropRows(rows, owner, ids) else rows
  }

  function DropKeysIf<V>(drop: bool, rows: map<Id, V>, ids: set<Id>): map<Id, V> {
    if drop then rows - ids else rows
  }

  function Mine<K, V>(rows: map<K, V>, owner: V -> Option<Id>, id: Id): map<K, V> {
    map k | k in rows && owner(rows[k]) == Some(id) :: rows[k]
  }

  function MyRows<T(!new)>(rows: seq<T>, owner: T -> Option<Id>, id: Id): seq<T> {
    Kept(rows, (x: T) => owner(x) == Some(id))
  }

  predicate AllOwned<K, V>(rows: map<K, V>, owner: V -> Option<Id>, ids: set<Id>) {
    forall k :: k in rows && owner(rows[k]).Some? ==> owner(rows[k]).value in ids
  }

  ghost predicate AllRowsOwned<T(!new)>(rows: seq<T>, owner: T -> Option<Id>, ids: set<Id>) {
    forall x :: x in rows && owner(x).Some? ==> owner(x).value in ids
  }

  /** Two filters that agree on every row keep the same rows. */
  lemma {:induction false} KeptSame<T(!new)>(rows: seq<T>, p: T -> bool, q: T -> bool)
    requires forall x :: x in rows ==> p(x) == q(x)
    ensures Kept(rows, p) == Kept(rows, q)
  {
    if rows != [] {
      KeptSame(rows[..|rows| - 1], p, q);
    }
  }

  /** Filtering twice keeps what both filters keep. */
  lemma {:induction false} KeptTwice<T(!new)>(rows: seq<T>, p: T -> bool, q: T -> bool)
    ensures Kept(Kept(rows, p), q) == Kept(rows, (x: T) => p(x) && q(x))
  {
    if rows != [] {
      var init, x := rows[..|rows| - 1], rows[|rows| - 1];
      KeptTwice(init, p, q);
      if p(x) {
        KeptAppend(Kept(init, p), x, q);
      } else {
        assert Kept(rows, p) == Kept(init, p);
      }
    }
  }

  /**
    When two drops come to one: of the same accounts, from the same tables, or a smaller
    drop before a larger one.
   */
  predicate Absorbs(v: bool, w: bool, a: set<Id>, b: set<Id>) {
    v == w || a == b || ((v ==> w) && a <= b)
  }

  lemma DropIfTwice<K, V>(v: bool, w: bool, rows: map<K, V>, owner: V -> Option<Id>, a: set<Id>, b: set<Id>)
    requires Absorbs(v, w, a, b)
    ensures DropIf(w, DropIf(v, rows, owner, a), owner, b) == DropIf(v || w, rows, owner, a + b)
  {
  }

  lemma DropRowsIfTwice<T(!new)>(v: bool, w: bool, rows: seq<T>, owner: T -> Option<Id>, a: set<Id>, b: set<Id>)
    requires Absorbs(v, w, a, b)
    ensures DropRowsIf(w, DropRowsIf(v, rows, owner, a), owner, b) == DropRowsIf(v || w, rows, owner, a + b)
  {
    assert a <= b ==> a + b == b;
    if v && w {
      KeptTwice(rows, Stays(owner, a), Stays(owner, b));
      KeptSame(rows, (x: T) => Stays(owner, a)(x) && Stays(owner, b)(x), Stays(owner, a + b));
    }
  }

  lemma OthersKeepRows<T(!new)>(drop: bool, rows: seq<T>, owner: T -> Option<Id>, ids: set<Id>, id: Id)
    requires id !in ids
    ensures MyRows(DropRowsIf(drop, rows, owner, ids), owner, id) == MyRows(rows, owner, id)
  {
    var mine := (x: T) => owner(x) == Some(id);
    KeptTwice(rows, Stays(owner, ids), mine);
    KeptSame(rows, (x: T) => Stays(owner, ids)(x) && mine(x), mine);
  }

  lemma OthersKeep<K, V>(drop: bool, rows: map<K, V>, owner: V -> Option<Id>, ids: set<Id>, id: Id)
    requires id !in ids
    ensures Mine(DropIf(drop, rows, owner, ids), owner, id) == Mine(rows, owner, id)
  {
  }

  lemma DropNobody<K, V>(drop: bool, rows: map<K, V>, owner: V -> Option<Id>)
    ensures DropIf(drop, rows, owner, {}) == rows
  {
  }

  lemma {:induction false} DropNobodysRows<T(!new)>(drop: bool, rows: seq<T>, owner: T -> Option<Id>)
    ensures DropRowsIf(drop, rows, owner, {}) == rows
    decreases rows
  {
    if rows != [] {
      DropNobodysRows(drop, rows[..|rows| - 1], owner);
    }
  }
}
