/** Lookup by primary key (DbSet.FindAsync), removal and replacement of one
    row in a collection whose rows carry unique keys. */
module Keyed {
  import opened Models

  ghost predicate KeysUnique<T>(s: seq<T>, key: T -> int)
  {
    forall i, j :: 0 <= i < j < |s| ==> key(s[i]) != key(s[j])
  }

  /** Index of the first row whose key is `id`, or None when there is none. */
  function FindIndex<T>(s: seq<T>, key: T -> int, id: int): (r: Option<nat>)
    ensures r.Some? ==> r.value < |s| && key(s[r.value]) == id
    ensures r.Some? ==> forall i :: 0 <= i < r.value ==> key(s[i]) != id
    ensures r.None? <==> forall i :: 0 <= i < |s| ==> key(s[i]) != id
  {
    if s == [] then None
    else if key(s[0]) == id then Some(0)
    else match FindIndex(s[1..], key, id)
      case None => None
      case Some(i) => Some(i + 1)
  }

  /** The collection with row `i` taken out, the others kept in order. */
  function RemoveAt<T>(s: seq<T>, i: nat): (r: seq<T>)
    requires i < |s|
    ensures |r| == |s| - 1
    ensures forall j :: 0 <= j < i ==> r[j] == s[j]
    ensures forall j :: i <= j < |r| ==> r[j] == s[j + 1]
  {
    s[..i] + s[i + 1..]
  }

  /** With unique keys, FindIndex finds every row by its own key. */
  lemma FindOwnKey<T>(s: seq<T>, key: T -> int, i: nat)
    requires KeysUnique(s, key) && i < |s|
    ensures FindIndex(s, key, key(s[i])) == Some(i)
  {
  }

  /** Removing row `i` keeps keys unique, drops exactly the rows with that key,
      and afterwards no row has that key. */
  lemma RemoveAtByKey<T>(s: seq<T>, key: T -> int, i: nat)
    requires KeysUnique(s, key) && i < |s|
    ensures KeysUnique(RemoveAt(s, i), key)
    ensures FindIndex(RemoveAt(s, i), key, key(s[i])).None?
    ensures forall x :: x in RemoveAt(s, i) <==> x in s && key(x) != key(s[i])
  {
  }

  /** Appending a row with a fresh key keeps keys unique and the row is found
      at the end. */
  lemma AppendFreshKey<T>(s: seq<T>, key: T -> int, x: T)
    requires KeysUnique(s, key)
    requires forall i :: 0 <= i < |s| ==> key(s[i]) != key(x)
    ensures KeysUnique(s + [x], key)
    ensures FindIndex(s + [x], key, key(x)) == Some(|s|)
  {
    var t := s + [x];
    assert t[|s|] == x;
    assert forall i :: 0 <= i < |s| ==> t[i] == s[i];
  }

  /** Appending a row does not change where any other key is found. */
  lemma {:induction false} AppendOtherKey<T>(s: seq<T>, key: T -> int, x: T, id: int)
    requires id != key(x)
    ensures FindIndex(s + [x], key, id) == FindIndex(s, key, id)
  {
    if s != [] {
      assert (s + [x])[1..] == s[1..] + [x];
      AppendOtherKey(s[1..], key, x, id);
    }
  }

  /** Overwriting row `i` with a row of the same key keeps keys unique. */
  lemma ReplaceSameKey<T>(s: seq<T>, key: T -> int, i: nat, x: T)
    requires KeysUnique(s, key) && i < |s| && key(x) == key(s[i])
    ensures KeysUnique(s[i := x], key)
    ensures forall id :: FindIndex(s[i := x], key, id) == FindIndex(s, key, id)
  {
    var t := s[i := x];
    forall id ensures FindIndex(t, key, id) == FindIndex(s, key, id) {
      assert forall j :: 0 <= j < |s| ==> key(t[j]) == key(s[j]);
    }
  }
}
