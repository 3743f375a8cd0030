/** The three array operations the routes use on a collection, stated over a
    sequence and a key function: `find` (the first record with a given id),
    `some` (is there one) and `filter` (keep the records without that id). */
module Lookup {

  datatype Option<T> = None | Some(value: T)

  /** Some record of `s` has key `id`. */
  predicate HasKey<T>(s: seq<T>, key: T -> int, id: int)
  {
    exists i :: 0 <= i < |s| && key(s[i]) == id
  }

  /** `some` holds exactly when the id is among the keys of the sequence. */
  lemma HasKeyMeansKeyIn<T>(s: seq<T>, key: T -> int, id: int)
    ensures HasKey(s, key, id) <==> id in (set i | 0 <= i < |s| :: key(s[i]))
  {
    if id in (set i | 0 <= i < |s| :: key(s[i])) {
      var i :| 0 <= i < |s| && key(s[i]) == id;
    }
  }

  /** The position of the FIRST record of `s` whose key is `id`, if any. */
  function FindIndex<T>(s: seq<T>, key: T -> int, id: int): (r: Option<nat>)
    ensures r.Some? <==> HasKey(s, key, id)
    ensures r.Some? ==> r.value < |s| && key(s[r.value]) == id
    ensures r.Some? ==> forall j :: 0 <= j < r.value ==> key(s[j]) != id
  {
    if |s| == 0 then None
    else if key(s[0]) == id then Some(0)
    else
      match FindIndex(s[1..], key, id)
      case None =>
        assert forall j :: 1 <= j < |s| ==> s[j] == s[1..][j - 1];
        None
      case Some(i) =>
        assert forall j :: 1 <= j <= i ==> s[j] == s[1..][j - 1];
        Some(i + 1)
  }

  /** `s` without every record whose key is `id`, the others in their order. */
  function Without<T(!new)>(s: seq<T>, key: T -> int, id: int): (r: seq<T>)
    ensures |r| <= |s|
  {
    if |s| == 0 then []
    else (if key(s[0]) == id then [] else [s[0]]) + Without(s[1..], key, id)
  }

  /** The records kept are exactly those whose key differs from `id`; in
      particular no record with key `id` is left. */
  lemma {:induction false} WithoutMembers<T(!new)>(s: seq<T>, key: T -> int, id: int)
    ensures forall x :: x in Without(s, key, id) <==> x in s && key(x) != id
    ensures !HasKey(Without(s, key, id), key, id)
  {
    if |s| > 0 {
      WithoutMembers(s[1..], key, id);
      assert s == [s[0]] + s[1..];
    }
  }

  /** Filtering a concatenation filters each part and keeps them in order:
      together with the one-record case this fixes the order of the result. */
  lemma {:induction false} WithoutAppend<T(!new)>(a: seq<T>, b: seq<T>, key: T -> int, id: int)
    ensures Without(a + b, key, id) == Without(a, key, id) + Without(b, key, id)
  {
    if |a| == 0 {
      assert a + b == b;
    } else {
      assert (a + b)[1..] == a[1..] + b;
      WithoutAppend(a[1..], b, key, id);
    }
  }

  /** Filtering a second time with the same id changes nothing. */
  lemma {:induction false} WithoutIdempotent<T(!new)>(s: seq<T>, key: T -> int, id: int)
    ensures Without(Without(s, key, id), key, id) == Without(s, key, id)
  {
    if |s| > 0 {
      var head := if key(s[0]) == id then [] else [s[0]];
      WithoutAppend(head, Without(s[1..], key, id), key, id);
      WithoutIdempotent(s[1..], key, id);
      if key(s[0]) != id {
        assert [s[0]][1..] == [];
      }
    }
  }

  /** Filtering out an id no record has leaves the sequence as it was. */
  lemma {:induction false} WithoutAbsent<T(!new)>(s: seq<T>, key: T -> int, id: int)
    requires !HasKey(s, key, id)
    ensures Without(s, key, id) == s
  {
    if |s| > 0 {
      assert forall j :: 0 <= j < |s[1..]| ==> s[1..][j] == s[j + 1];
      WithoutAbsent(s[1..], key, id);
      assert s == [s[0]] + s[1..];
    }
  }

  /** The ids of `s` are exactly 1, 2, ..., |s|, in that order. */
  predicate IdsFromOne<T>(s: seq<T>, key: T -> int)
  {
    forall i :: 0 <= i < |s| ==> key(s[i]) == i + 1
  }

  /** When the ids are 1..|s| in order, they are pairwise distinct and the
      record with id k sits at position k - 1. */
  lemma IdsFromOneLocate<T>(s: seq<T>, key: T -> int, id: int)
    requires IdsFromOne(s, key)
    ensures forall i, j :: 0 <= i < |s| && 0 <= j < |s| && key(s[i]) == key(s[j]) ==> i == j
    ensures FindIndex(s, key, id) == if 1 <= id <= |s| then Some(id - 1) else None
  {
    if 1 <= id <= |s| {
      assert key(s[id - 1]) == id;
    }
  }
}
