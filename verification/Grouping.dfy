/** Dividing a sum by a key. */
module Grouping {
  import opened Kernel
  import opened Sorting

  /** The amount of what carries the key `k`, and nothing for the rest. */
  function Only<T>(key: T -> Reference, amount: T -> int, k: Reference): T -> int {
    (x: T) => if key(x) == k then amount(x) else 0
  }

  lemma OnlyAt<T>(key: T -> Reference, amount: T -> int, k: Reference, x: T)
    ensures Only(key, amount, k)(x) == if key(x) == k then amount(x) else 0
  {
  }

  lemma OnlyAppend<T>(s: seq<T>, x: T, key: T -> Reference, amount: T -> int, k: Reference)
    ensures Sum(s + [x], Only(key, amount, k)) == Sum(s, Only(key, amount, k)) + (if key(x) == k then amount(x) else 0)
  {
    SumAppend(s, x, Only(key, amount, k));
  }

  lemma {:induction false} OnlyWithin<T>(s: seq<T>, key: T -> Reference, amount: T -> int, k: Reference)
    requires forall x :: x in s ==> amount(x) >= 0
    ensures 0 <= Sum(s, Only(key, amount, k)) <= Sum(s, amount)
  {
    if s != [] {
      assert s[|s| - 1] in s;
      assert forall x :: x in s[..|s| - 1] ==> x in s;
      OnlyWithin(s[..|s| - 1], key, amount, k);
    }
  }

  /** The sums for each of the keys, added up. */
  function Grouped<T>(s: seq<T>, key: T -> Reference, amount: T -> int, keys: seq<Reference>): int {
    if keys == [] then 0
    else Grouped(s, key, amount, keys[..|keys| - 1]) + Sum(s, Only(key, amount, keys[|keys| - 1]))
  }

  lemma {:induction false} GroupedAppend<T>(s: seq<T>, x: T, key: T -> Reference, amount: T -> int,
      keys: seq<Reference>)
    requires NoRepeat(keys)
    ensures Grouped(s + [x], key, amount, keys) == Grouped(s, key, amount, keys)
      + (if key(x) in keys then amount(x) else 0)
  {
    if keys != [] {
      var init, last := keys[..|keys| - 1], keys[|keys| - 1];
      GroupedAppend(s, x, key, amount, init);
      SumAppend(s, x, Only(key, amount, last));
      assert key(x) in keys <==> key(x) in init || key(x) == last by { assert keys == init + [last]; }
      assert last !in init;
    }
  }

  lemma {:induction false} GroupedNothing<T>(key: T -> Reference, amount: T -> int, keys: seq<Reference>)
    ensures Grouped([], key, amount, keys) == 0
  {
    if keys != [] { GroupedNothing(key, amount, keys[..|keys| - 1]); }
  }

  /** When every key that occurs is listed once, nothing is lost and nothing counted twice. */
  lemma {:induction false} GroupsAddUp<T>(s: seq<T>, key: T -> Reference, amount: T -> int, keys: seq<Reference>)
    requires NoRepeat(keys) && forall x :: x in s ==> key(x) in keys
    ensures Grouped(s, key, amount, keys) == Sum(s, amount)
  {
    if s == [] {
      GroupedNothing(key, amount, keys);
    } else {
      var init, last := s[..|s| - 1], s[|s| - 1];
      assert s == init + [last];
      assert forall x :: x in init ==> x in s;
      assert last in s;
      GroupsAddUp(init, key, amount, keys);
      GroupedAppend(init, last, key, amount, keys);
    }
  }

  lemma {:induction false} NothingOf<T>(s: seq<T>, key: T -> Reference, amount: T -> int, k: Reference)
    requires forall x :: x in s ==> key(x) != k
    ensures Sum(s, Only(key, amount, k)) == 0
  {
    if s != [] {
      assert s[|s| - 1] in s;
      assert forall x :: x in s[..|s| - 1] ==> x in s;
      NothingOf(s[..|s| - 1], key, amount, k);
    }
  }

  /** The keys in the order in which they first occur. */
  function FirstKeys<T>(s: seq<T>, key: T -> Reference): seq<Reference> {
    if s == [] then []
    else
      var earlier := FirstKeys(s[..|s| - 1], key);
      var k := key(s[|s| - 1]);
      if k in earlier then earlier else earlier + [k]
  }

  lemma {:induction false} FirstKeysAre<T>(s: seq<T>, key: T -> Reference)
    ensures NoRepeat(FirstKeys(s, key))
    ensures forall x :: x in s ==> key(x) in FirstKeys(s, key)
    ensures forall k :: k in FirstKeys(s, key) ==> exists x :: x in s && key(x) == k
  {
    if s != [] {
      var init, last := s[..|s| - 1], s[|s| - 1];
      FirstKeysAre(init, key);
      assert s == init + [last];
      forall k | k in FirstKeys(s, key) ensures exists x :: x in s && key(x) == k {
        if k in FirstKeys(init, key) {
          var x :| x in init && key(x) == k;
          assert x in s;
        } else {
          assert last in s;
        }
      }
    }
  }

  lemma FirstKeysAppend<T>(s: seq<T>, x: T, key: T -> Reference)
    ensures FirstKeys(s + [x], key)
         == if key(x) in FirstKeys(s, key) then FirstKeys(s, key) else FirstKeys(s, key) + [key(x)]
  {
    assert (s + [x])[..|s|] == s;
  }

  /** What agrees in keys and amounts groups alike. */
  lemma {:induction false} SameGroups<T, U>(
    a: seq<T>, b: seq<U>, keyA: T -> Reference, amountA: T -> int, keyB: U -> Reference, amountB: U -> int,
      k: Reference)
    requires |a| == |b| && forall i :: 0 <= i < |a| ==> keyA(a[i]) == keyB(b[i]) && amountA(a[i]) == amountB(b[i])
    ensures FirstKeys(a, keyA) == FirstKeys(b, keyB) && Sum(a, Only(keyA, amountA, k)) == Sum(b, Only(keyB, amountB, k))
  {
    if a != [] {
      var n := |a| - 1;
      assert keyA(a[n]) == keyB(b[n]) && amountA(a[n]) == amountB(b[n]);
      SameGroups(a[..n], b[..n], keyA, amountA, keyB, amountB, k);
    }
  }
}
