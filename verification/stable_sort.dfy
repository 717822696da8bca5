/** Sorting by an integer key, keeping the order of items with equal keys. */
module StableSorts {

  datatype Keyed<T> = Keyed(key: int, item: T)

  /** Puts an item behind every item whose key is not larger. */
  function Inserted<T>(s: seq<Keyed<T>>, x: Keyed<T>): (r: seq<Keyed<T>>)
    ensures |r| == |s| + 1
  {
    if s == [] || s[|s| - 1].key <= x.key then s + [x]
    else Inserted(s[..|s| - 1], x) + [s[|s| - 1]]
  }

  function Sorted<T>(s: seq<Keyed<T>>): (r: seq<Keyed<T>>)
    ensures |r| == |s|
  {
    if s == [] then [] else Inserted(Sorted(s[..|s| - 1]), s[|s| - 1])
  }

  ghost predicate Ordered<T>(s: seq<Keyed<T>>) {
    forall i, j :: 0 <= i < j < |s| ==> s[i].key <= s[j].key
  }

  function WithKey<T>(s: seq<Keyed<T>>, key: int): seq<Keyed<T>> {
    if s == [] then [] else
    WithKey(s[..|s| - 1], key) + if s[|s| - 1].key == key then [s[|s| - 1]] else []
  }

  lemma {:induction false} InsertAddsOne<T>(s: seq<Keyed<T>>, x: Keyed<T>)
    ensures multiset(Inserted(s, x)) == multiset(s) + multiset{x}
  {
    if s != [] && s[|s| - 1].key > x.key {
      var k := |s| - 1;
      InsertAddsOne(s[..k], x);
      assert s == s[..k] + [s[k]];
    }
  }

  ghost predicate Below<T>(s: seq<Keyed<T>>, key: int) {
    forall i :: 0 <= i < |s| ==> s[i].key <= key
  }

  lemma {:induction false} InsertKeepsOrder<T>(s: seq<Keyed<T>>, x: Keyed<T>, bound: int)
    requires Ordered(s) && Below(s, bound) && x.key <= bound
    ensures Ordered(Inserted(s, x)) && Below(Inserted(s, x), bound)
  {
    if s != [] && s[|s| - 1].key > x.key {
      InsertKeepsOrder(s[..|s| - 1], x, s[|s| - 1].key);
    }
  }

  lemma {:induction false} InsertIsStable<T>(s: seq<Keyed<T>>, x: Keyed<T>, key: int)
    requires Ordered(s)
    ensures WithKey(Inserted(s, x), key) == WithKey(s, key) + if x.key == key then [x] else []
  {
    if s == [] || s[|s| - 1].key <= x.key {
      assert (s + [x])[..|s|] == s;
    } else {
      var k := |s| - 1;
      InsertIsStable(s[..k], x, key);
      var before := Inserted(s[..k], x);
      assert (before + [s[k]])[..|before|] == before;
      if s[k].key == key {
        assert x.key != key;
        assert WithKey(s[..k], key) + [] == WithKey(s[..k], key);
      } else {
        assert WithKey(s, key) == WithKey(s[..k], key);
      }
    }
  }

  lemma {:induction false} SortIsOrdered<T>(s: seq<Keyed<T>>)
    ensures Ordered(Sorted(s))
  {
    if s != [] {
      var k := |s| - 1;
      SortIsOrdered(s[..k]);
      var before := Sorted(s[..k]);
      var last := if before == [] then s[k].key else before[k - 1].key;
      InsertKeepsOrder(before, s[k], if last >= s[k].key then last else s[k].key);
    }
  }

  lemma {:induction false} SortIsPermutation<T>(s: seq<Keyed<T>>)
    ensures multiset(Sorted(s)) == multiset(s)
  {
    if s != [] {
      var k := |s| - 1;
      SortIsPermutation(s[..k]);
      InsertAddsOne(Sorted(s[..k]), s[k]);
      assert s == s[..k] + [s[k]];
    }
  }

  lemma {:induction false} SortKeepsTies<T>(s: seq<Keyed<T>>, key: int)
    ensures WithKey(Sorted(s), key) == WithKey(s, key)
  {
    if s != [] {
      var k := |s| - 1;
      SortKeepsTies(s[..k], key);
      SortIsOrdered(s[..k]);
      InsertIsStable(Sorted(s[..k]), s[k], key);
    }
  }

  /** The result is ordered, holds the same items, and keeps the order of items with equal keys. */
  lemma {:induction false} SortIsStable<T>(s: seq<Keyed<T>>)
    ensures Ordered(Sorted(s)) && multiset(Sorted(s)) == multiset(s)
    ensures forall key :: WithKey(Sorted(s), key) == WithKey(s, key)
  {
    SortIsOrdered(s);
    SortIsPermutation(s);
    forall key
      ensures WithKey(Sorted(s), key) == WithKey(s, key)
    {
      SortKeepsTies(s, key);
    }
  }
}
