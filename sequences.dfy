/** `List.remove(Object)` on the core's `ArrayList`s: remove the first
    element equal to the argument, if there is one. */
module Sequences {

  /** The position of the first occurrence of `x` in `s`. */
  function FirstIndex<T(==)>(s: seq<T>, x: T): (i: nat)
    requires x in s
    ensures i < |s| && s[i] == x && x !in s[..i]
  {
    if s[0] == x then 0
    else
      var j := FirstIndex(s[1..], x);
      assert s[..j + 1] == [s[0]] + s[1..][..j];
      j + 1
  }

  function RemoveFirst<T(==)>(s: seq<T>, x: T): seq<T> {
    if s == [] then []
    else if s[0] == x then s[1..]
    else [s[0]] + RemoveFirst(s[1..], x)
  }

  /** Removal takes away one copy of `x`, if there is one, and nothing else. */
  lemma {:induction false} RemoveFirstMultiset<T>(s: seq<T>, x: T)
    ensures multiset(RemoveFirst(s, x)) == multiset(s) - multiset{x}
  {
    if s != [] {
      assert s == [s[0]] + s[1..];
      if s[0] != x {
        RemoveFirstMultiset(s[1..], x);
      }
    }
  }

  /** Removing an element that is not there changes nothing. */
  lemma {:induction false} RemoveFirstAbsent<T>(s: seq<T>, x: T)
    requires x !in s
    ensures RemoveFirst(s, x) == s
  {
    if s != [] {
      RemoveFirstAbsent(s[1..], x);
    }
  }

  /** Removing an element that is there drops exactly its first occurrence
      and keeps every other element in order. */
  lemma {:induction false} RemoveFirstPresent<T>(s: seq<T>, x: T)
    requires x in s
    ensures RemoveFirst(s, x) == s[..FirstIndex(s, x)] + s[FirstIndex(s, x) + 1..]
  {
    if s[0] != x {
      var t := s[1..];
      RemoveFirstPresent(t, x);
      var j := FirstIndex(t, x);
      assert FirstIndex(s, x) == j + 1;
      calc {
        RemoveFirst(s, x);
        [s[0]] + RemoveFirst(t, x);
        [s[0]] + (t[..j] + t[j + 1..]);
        ([s[0]] + t[..j]) + t[j + 1..];
        { assert [s[0]] + t[..j] == s[..j + 1]; assert t[j + 1..] == s[j + 2..]; }
        s[..j + 1] + s[j + 2..];
      }
    } else {
      assert s[..0] + s[1..] == s[1..];
    }
  }

  /** Removal takes away one copy of `x` if there is one, and no copy of
      anything else. */
  lemma RemoveFirstCounts<T>(s: seq<T>, x: T, y: T)
    ensures multiset(RemoveFirst(s, x))[x] == if x in s then multiset(s)[x] - 1 else 0
    ensures y != x ==> multiset(RemoveFirst(s, x))[y] == multiset(s)[y]
    ensures |RemoveFirst(s, x)| == if x in s then |s| - 1 else |s|
  {
    var r := RemoveFirst(s, x);
    RemoveFirstMultiset(s, x);
    assert |r| == |multiset(r)|;
    if x in s {
      assert multiset(s) == multiset(r) + multiset{x};
    } else {
      assert multiset(s)[x] == 0;
      assert multiset(r) == multiset(s);
    }
  }
}
