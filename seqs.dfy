/**
 * Sequence helpers shared by the backend and the frontend models: the
 * optional value, the order-keeping filter that `List.removeIf` and
 * `Array.prototype.filter` perform, and key uniqueness.
 */
module Seqs {

  datatype Option<+T> = None | Some(value: T)

  /** The elements of `s` for which `drop` is false, in their original order. */
  function RemoveWhere<T(!new)>(s: seq<T>, drop: T -> bool): (r: seq<T>)
    ensures |r| <= |s|
    ensures forall x :: x in r <==> x in s && !drop(x)
    ensures (forall k :: 0 <= k < |s| ==> !drop(s[k])) ==> r == s
  {
    if s == [] then []
    else if drop(s[0]) then RemoveWhere(s[1..], drop)
    else [s[0]] + RemoveWhere(s[1..], drop)
  }

  /** Filtering distributes over concatenation: the survivors keep their order. */
  lemma {:induction false} RemoveWhereAppend<T(!new)>(s: seq<T>, t: seq<T>, drop: T -> bool)
    ensures RemoveWhere(s + t, drop) == RemoveWhere(s, drop) + RemoveWhere(t, drop)
  {
    if s != [] {
      assert (s + t)[0] == s[0] && (s + t)[1..] == s[1..] + t;
      RemoveWhereAppend(s[1..], t, drop);
      if !drop(s[0]) {
        assert RemoveWhere(s + t, drop) == [s[0]] + (RemoveWhere(s[1..], drop) + RemoveWhere(t, drop));
      }
    } else {
      assert s + t == t;
    }
  }

  /** Filtering drops every copy of a dropped value and keeps every copy of the others. */
  lemma {:induction false} RemoveWhereMultiset<T(!new)>(s: seq<T>, drop: T -> bool)
    ensures forall x :: multiset(RemoveWhere(s, drop))[x] == if drop(x) then 0 else multiset(s)[x]
  {
    if s != [] {
      RemoveWhereMultiset(s[1..], drop);
      assert s == [s[0]] + s[1..];
    }
  }

  /** No two elements of `s` have the same key. */
  predicate DistinctBy<T>(s: seq<T>, key: T -> int)
  {
    forall i, j :: 0 <= i < j < |s| ==> key(s[i]) != key(s[j])
  }

  /** Whether some element of `s` has key `k` (`Array.prototype.some`). */
  predicate HasKey<T>(s: seq<T>, key: T -> int, k: int)
  {
    exists i :: 0 <= i < |s| && key(s[i]) == k
  }

  /** Filtering keeps keys distinct. */
  lemma {:induction false} RemoveWhereKeepsDistinct<T(!new)>(s: seq<T>, key: T -> int, drop: T -> bool)
    requires DistinctBy(s, key)
    ensures DistinctBy(RemoveWhere(s, drop), key)
  {
    if s != [] {
      var rest := RemoveWhere(s[1..], drop);
      RemoveWhereKeepsDistinct(s[1..], key, drop);
      if !drop(s[0]) {
        var r := [s[0]] + rest;
        forall i, j | 0 <= i < j < |r| ensures key(r[i]) != key(r[j]) {
          if i == 0 {
            assert r[j] in s[1..];
            var m :| 0 <= m < |s[1..]| && s[1..][m] == r[j];
            assert s[m + 1] == r[j];
          } else {
            assert r[i] == rest[i - 1] && r[j] == rest[j - 1];
          }
        }
      }
    }
  }

  /** Appending an element whose key is new keeps keys distinct. */
  lemma AppendKeepsDistinct<T>(s: seq<T>, key: T -> int, x: T)
    requires DistinctBy(s, key)
    requires !HasKey(s, key, key(x))
    ensures DistinctBy(s + [x], key)
  {
    var r := s + [x];
    forall i, j | 0 <= i < j < |r| ensures key(r[i]) != key(r[j]) {
      if j == |s| {
        assert r[i] == s[i];
      } else {
        assert r[i] == s[i] && r[j] == s[j];
      }
    }
  }
}
