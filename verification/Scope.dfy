/** The scope of an access token: the permission keys joined by spaces, split again by the resource server. */
module Scope {

  function Join(keys: seq<string>): string {
    if keys == [] then [] else if |keys| == 1 then keys[0] else keys[0] + " " + Join(keys[1..])
  }

  function Prefixed(c: char, parts: seq<string>): seq<string>
    requires parts != []
  {
    [[c] + parts[0]] + parts[1..]
  }

  /** s.split(' '): never empty, and an empty string is one empty part. */
  function Split(s: string): (parts: seq<string>)
    ensures parts != []
  {
    if s == [] then [[]]
    else if s[0] == ' ' then [[]] + Split(s[1..])
    else Prefixed(s[0], Split(s[1..]))
  }

  /** The empty scope stands for no permissions. */
  function Permissions(scope: string): seq<string> {
    if scope == [] then [] else Split(scope)
  }

  predicate NoSpaces(key: string) {
    ' ' !in key
  }

  lemma {:induction false} PartsHaveNoSpaces(s: string)
    ensures forall part :: part in Split(s) ==> NoSpaces(part)
  {
    if s != [] {
      PartsHaveNoSpaces(s[1..]);
      assert s[0] != ' ' ==> Split(s[1..])[0] in Split(s[1..]);
    }
  }

  lemma {:induction false} SplitFirst(key: string, rest: string)
    requires NoSpaces(key)
    ensures Split(key + " " + rest) == [key] + Split(rest)
  {
    var s := key + " " + rest;
    if key == [] {
      assert s == [' '] + rest && s[1..] == rest;
    } else {
      assert s[1..] == key[1..] + " " + rest;
      SplitFirst(key[1..], rest);
      assert [key[0]] + key[1..] == key;
    }
  }

  lemma {:induction false} SplitOne(key: string)
    requires NoSpaces(key)
    ensures Split(key) == [key]
  {
    if key != [] {
      SplitOne(key[1..]);
      assert [key[0]] + key[1..] == key;
    }
  }

  lemma {:induction false} SplitInverts(keys: seq<string>)
    requires keys != [] && forall k :: k in keys ==> NoSpaces(k)
    ensures Split(Join(keys)) == keys
  {
    if |keys| == 1 {
      SplitOne(keys[0]);
      assert keys == [keys[0]];
    } else {
      SplitInverts(keys[1..]);
      SplitFirst(keys[0], Join(keys[1..]));
      assert keys == [keys[0]] + keys[1..];
    }
  }

  lemma JoinIsEmptyIff(keys: seq<string>)
    requires forall k :: k in keys ==> k != []
    ensures Join(keys) == [] <==> keys == []
  {
    assert keys != [] ==> keys[0] in keys;
  }

  /** For non-empty keys the round trip keeps the list, and the set, exactly when no key contains a space. */
  lemma ScopeRoundTrip(keys: seq<string>)
    requires forall k :: k in keys ==> k != []
    ensures Permissions(Join(keys)) == keys <==> forall k :: k in keys ==> NoSpaces(k)
    ensures (forall k :: k in Permissions(Join(keys)) <==> k in keys) <==> forall k :: k in keys ==> NoSpaces(k)
  {
    JoinIsEmptyIff(keys);
    PartsHaveNoSpaces(Join(keys));
    if keys != [] && forall k :: k in keys ==> NoSpaces(k) {
      SplitInverts(keys);
    }
  }
}
