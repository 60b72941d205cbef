/** The stable sort the handlers and the price calculator rely on, and the byte order of stock-keeping units. */
module Sorting {

  ghost predicate TotalPreorder<T(!new)>(le: (T, T) -> bool) {
    && (forall a, b :: le(a, b) || le(b, a))
    && (forall a, b, c :: le(a, b) && le(b, c) ==> le(a, c))
  }

  predicate Ordered<T>(s: seq<T>, le: (T, T) -> bool) {
    forall i, j :: 0 <= i < j < |s| ==> le(s[i], s[j])
  }

  /** Puts `x` behind everything that need not come after it, starting from the end. */
  function Insert<T>(s: seq<T>, x: T, le: (T, T) -> bool): seq<T> {
    if s == [] || le(s[|s| - 1], x) then s + [x] else Insert(s[..|s| - 1], x, le) + [s[|s| - 1]]
  }

  function Sort<T>(s: seq<T>, le: (T, T) -> bool): seq<T> {
    if s == [] then [] else Insert(Sort(s[..|s| - 1], le), s[|s| - 1], le)
  }

  lemma {:induction false} InsertAdds<T>(s: seq<T>, x: T, le: (T, T) -> bool)
    ensures multiset(Insert(s, x, le)) == multiset(s) + multiset{x}
  {
    if s != [] && !le(s[|s| - 1], x) {
      InsertAdds(s[..|s| - 1], x, le);
      assert s == s[..|s| - 1] + [s[|s| - 1]];
    }
  }

  lemma {:induction false} InsertKeepsOrder<T(!new)>(s: seq<T>, x: T, le: (T, T) -> bool)
    requires TotalPreorder(le) && Ordered(s, le)
    ensures Ordered(Insert(s, x, le), le)
  {
    hide TotalPreorder;
    if s == [] {
    } else if le(s[|s| - 1], x) {
      forall i | 0 <= i < |s| ensures le(s[i], x) { Reaches(s[i], s[|s| - 1], x, le); }
    } else {
      var init, last := s[..|s| - 1], s[|s| - 1];
      InsertKeepsOrder(init, x, le);
      InsertAdds(init, x, le);
      Reaches(x, x, last, le);
      forall y | y in Insert(init, x, le) ensures le(y, last) {
        assert y in multiset(init) + multiset{x};
        if y != x {
          var i :| 0 <= i < |init| && init[i] == y;
        }
      }
    }
  }

  lemma Reaches<T(!new)>(a: T, b: T, c: T, le: (T, T) -> bool)
    requires TotalPreorder(le) && (le(a, b) || a == b)
    ensures le(b, c) ==> le(a, c)
    ensures !le(c, b) ==> le(b, c)
  {
  }

  lemma {:induction false} SortSorts<T(!new)>(s: seq<T>, le: (T, T) -> bool)
    requires TotalPreorder(le)
    ensures Ordered(Sort(s, le), le) && multiset(Sort(s, le)) == multiset(s) && |Sort(s, le)| == |s|
  {
    hide TotalPreorder;
    if s != [] {
      hide Ordered, Insert;
      SortSorts(s[..|s| - 1], le);
      InsertKeepsOrder(Sort(s[..|s| - 1], le), s[|s| - 1], le);
      InsertAdds(Sort(s[..|s| - 1], le), s[|s| - 1], le);
      assert s == s[..|s| - 1] + [s[|s| - 1]];
    }
    assert |multiset(Sort(s, le))| == |multiset(s)|;
  }

  /** The elements that rank with `pivot`, in order. */
  function Ties<T>(s: seq<T>, pivot: T, le: (T, T) -> bool): seq<T> {
    if s == [] then []
    else
      var rest := Ties(s[..|s| - 1], pivot, le);
      if le(s[|s| - 1], pivot) && le(pivot, s[|s| - 1]) then rest + [s[|s| - 1]] else rest
  }

  lemma TiesAppend<T>(s: seq<T>, x: T, pivot: T, le: (T, T) -> bool)
    ensures Ties(s + [x], pivot, le) == Ties(s, pivot, le) + (if le(x, pivot) && le(pivot, x) then [x] else [])
  {
    assert (s + [x])[..|s|] == s;
  }

  lemma {:induction false} InsertIsStable<T(!new)>(s: seq<T>, x: T, pivot: T, le: (T, T) -> bool)
    requires TotalPreorder(le)
    ensures Ties(Insert(s, x, le), pivot, le) == Ties(s + [x], pivot, le)
  {
    hide Ties;
    if s != [] && !le(s[|s| - 1], x) {
      var init, last := s[..|s| - 1], s[|s| - 1];
      InsertIsStable(init, x, pivot, le);
      assert s == init + [last];
      TiesAppend(Insert(init, x, le), last, pivot, le);
      TiesAppend(init, x, pivot, le);
      TiesAppend(s, x, pivot, le);
      TiesAppend(init, last, pivot, le);
      assert le(last, pivot) && le(pivot, last) && le(pivot, x) ==> le(last, x);
      assert Ties(init, pivot, le) + [] == Ties(init, pivot, le);
    }
  }

  /** What ranks alike stays in the given order. */
  lemma {:induction false} SortIsStable<T(!new)>(s: seq<T>, pivot: T, le: (T, T) -> bool)
    requires TotalPreorder(le)
    ensures Ties(Sort(s, le), pivot, le) == Ties(s, pivot, le)
  {
    hide TotalPreorder;
    if s != [] {
      var init, last := s[..|s| - 1], s[|s| - 1];
      SortIsStable(init, pivot, le);
      InsertIsStable(Sort(init, le), last, pivot, le);
      TiesAppend(Sort(init, le), last, pivot, le);
      assert s == init + [last];
    }
  }

  // ---------- the byte order of strings ----------

  predicate Below(a: string, b: string) {
    b != [] && (a == [] || a[0] < b[0] || (a[0] == b[0] && Below(a[1..], b[1..])))
  }

  predicate UpTo(a: string, b: string) { !Below(b, a) }

  lemma {:induction false} BelowIsStrict(a: string, b: string)
    ensures !(Below(a, b) && Below(b, a)) && (Below(a, b) || Below(b, a) || a == b) && !Below(a, a)
  {
    if a != [] && b != [] && a[0] == b[0] {
      BelowIsStrict(a[1..], b[1..]);
      assert a == [a[0]] + a[1..] && b == [b[0]] + b[1..];
    }
    if a != [] { BelowIsStrict(a[1..], a[1..]); }
  }

  lemma {:induction false} BelowIsTransitive(a: string, b: string, c: string)
    requires Below(a, b) && Below(b, c)
    ensures Below(a, c)
  {
    if a != [] && a[0] == b[0] == c[0] { BelowIsTransitive(a[1..], b[1..], c[1..]); }
  }

  lemma UpToIsTotal()
    ensures TotalPreorder(UpTo)
  {
    forall a, b ensures UpTo(a, b) || UpTo(b, a) { BelowIsStrict(a, b); }
    forall a, b, c | UpTo(a, b) && UpTo(b, c) ensures UpTo(a, c) {
      BelowIsStrict(a, b); BelowIsStrict(b, c); BelowIsStrict(a, c);
      if Below(c, a) {
        if a == b || b == c {
        } else {
          BelowIsTransitive(a, b, c);
        }
      }
    }
  }

  ghost predicate NoRepeat<T>(s: seq<T>) {
    forall i, j :: 0 <= i < j < |s| ==> s[i] != s[j]
  }

  ghost predicate Ascending(s: seq<string>) {
    forall i, j :: 0 <= i < j < |s| ==> Below(s[i], s[j])
  }

  function Elements<T>(s: seq<T>): set<T> {
    set x | x in s
  }

  /** A strictly ascending sequence is determined by what it contains. */
  lemma {:induction false} AscendingIsUnique(a: seq<string>, b: seq<string>)
    requires Ascending(a) && Ascending(b) && Elements(a) == Elements(b)
    ensures a == b
  {
    NothingIn(a);
    NothingIn(b);
    if a != [] {
      SameFirst(a, b);
      SameRest(a, b);
      AscendingIsUnique(a[1..], b[1..]);
      assert a == [a[0]] + a[1..] && b == [b[0]] + b[1..];
    }
  }

  lemma NothingIn<T>(s: seq<T>)
    ensures Elements(s) == {} <==> s == []
  {
    if s != [] { assert s[0] in Elements(s); }
  }

  lemma SameFirst(a: seq<string>, b: seq<string>)
    requires a != [] && b != [] && Ascending(a) && Ascending(b) && Elements(a) == Elements(b)
    ensures a[0] == b[0]
  {
    assert a[0] in Elements(a) && b[0] in Elements(b);
    var i :| 0 <= i < |b| && b[i] == a[0];
    var j :| 0 <= j < |a| && a[j] == b[0];
    if i != 0 && j != 0 {
      BelowIsStrict(a[0], b[0]);
    }
  }

  lemma SameRest(a: seq<string>, b: seq<string>)
    requires a != [] && b != [] && a[0] == b[0] && Ascending(a) && Ascending(b) && Elements(a) == Elements(b)
    ensures Ascending(a[1..]) && Ascending(b[1..]) && Elements(a[1..]) == Elements(b[1..])
  {
    RestOf(a);
    RestOf(b);
  }

  lemma RestOf(a: seq<string>)
    requires a != [] && Ascending(a)
    ensures Ascending(a[1..]) && Elements(a[1..]) == Elements(a) - {a[0]}
  {
    forall x ensures x in Elements(a[1..]) <==> x in Elements(a) - {a[0]} {
      if x in a[1..] {
        var i :| 0 <= i < |a| - 1 && a[1..][i] == x;
        assert a[i + 1] == x && Below(a[0], x);
        BelowIsStrict(a[0], x);
      }
      if x in a && x != a[0] {
        var i :| 0 <= i < |a| && a[i] == x;
        assert a[1..][i - 1] == x;
      }
    }
  }

  /** Sorting names without repetition makes them strictly ascending. */
  lemma DistinctSortAscends(s: seq<string>)
    requires NoRepeat(s)
    ensures Ascending(Sort(s, UpTo)) && Elements(Sort(s, UpTo)) == Elements(s)
  {
    UpToIsTotal();
    SortSorts(s, UpTo);
    var t := Sort(s, UpTo);
    forall i, j | 0 <= i < j < |t| ensures Below(t[i], t[j]) {
      assert UpTo(t[i], t[j]);
      BelowIsStrict(t[i], t[j]);
      if t[i] == t[j] {
        TwiceInMultiset(t, i, j);
        OnceInMultiset(s, t[i]);
      }
    }
    forall x ensures x in Elements(t) <==> x in Elements(s) {
      assert x in t <==> x in multiset(t);
      assert x in s <==> x in multiset(s);
    }
  }

  lemma TwiceInMultiset<T>(s: seq<T>, i: nat, j: nat)
    requires i < j < |s| && s[i] == s[j]
    ensures multiset(s)[s[i]] >= 2
  {
    assert s == s[..j] + s[j..];
    assert s[i] in s[..j] && s[j] in s[j..];
    assert s[..j][i] == s[i] && s[j..][0] == s[j];
  }

  lemma {:induction false} OnceInMultiset<T>(s: seq<T>, x: T)
    requires NoRepeat(s)
    ensures multiset(s)[x] <= 1
  {
    if s != [] {
      OnceInMultiset(s[..|s| - 1], x);
      assert s == s[..|s| - 1] + [s[|s| - 1]];
    }
  }

  lemma AscendingIsDistinct(s: seq<string>)
    requires Ascending(s)
    ensures NoRepeat(s)
  {
    forall i, j | 0 <= i < j < |s| ensures s[i] != s[j] {
      assert Below(s[i], s[j]);
      BelowIsStrict(s[i], s[j]);
    }
  }

  lemma NothingRepeats<T>()
    ensures NoRepeat<T>([])
  {
  }

  lemma AppendNew<T>(s: seq<T>, x: T)
    requires NoRepeat(s) && x !in s
    ensures NoRepeat(s + [x]) && Elements(s + [x]) == Elements(s) + {x}
  {
  }

  lemma {:induction false} DistinctSize<T>(s: seq<T>)
    requires NoRepeat(s)
    ensures |Elements(s)| == |s|
  {
    if s != [] {
      var init, last := s[..|s| - 1], s[|s| - 1];
      DistinctSize(init);
      assert last !in Elements(init);
      assert Elements(s) == Elements(init) + {last} by {
        assert s == init + [last];
      }
    }
  }

  lemma SubsetOfSameSize<T>(a: set<T>, b: set<T>)
    requires a <= b && |a| == |b|
    ensures a == b
  {
    assert |b - a| == |b| - |a|;
  }

  lemma SubsetIsSmaller<T>(a: set<T>, b: set<T>)
    requires a <= b
    ensures |a| <= |b|
  {
    assert b == a + (b - a);
  }

  /** The names of a set, in byte order. */
  ghost function SortedKeys(keys: set<string>): (s: seq<string>)
    ensures Ascending(s) && Elements(s) == keys && |s| == |keys|
  {
    if keys == {} then []
    else
      var x :| x in keys;
      var rest := SortedKeys(keys - {x});
      AddKey(rest, x);
      Sort(rest + [x], UpTo)
  }

  lemma AddKey(rest: seq<string>, x: string)
    requires Ascending(rest) && x !in Elements(rest)
    ensures var s := Sort(rest + [x], UpTo); Ascending(s) && Elements(s) == Elements(rest) + {x} && |s| == |rest| + 1
  {
    AscendingIsDistinct(rest);
    forall i | 0 <= i < |rest| ensures rest[i] != x { assert rest[i] in Elements(rest); }
    DistinctSortAscends(rest + [x]);
    UpToIsTotal();
    SortSorts(rest + [x], UpTo);
  }

  /** Sorting the names of a set, listed in any order. */
  lemma SortedKeysOf(found: seq<string>, keys: set<string>)
    requires Elements(found) == keys && NoRepeat(found)
    ensures var s := Sort(found, UpTo);
      && s == SortedKeys(keys)
      && (forall i :: 0 <= i < |s| ==> s[i] in keys)
      && NoRepeat(s)
  {
    DistinctSortAscends(found);
    AscendingIsUnique(Sort(found, UpTo), SortedKeys(keys));
    AscendingIsDistinct(Sort(found, UpTo));
    forall i | 0 <= i < |Sort(found, UpTo)| ensures Sort(found, UpTo)[i] in keys {
      assert Sort(found, UpTo)[i] in Elements(Sort(found, UpTo));
    }
  }
}
