/** Sums over the keys of a map, for totals that do not depend on an order. */
module Sums {

  ghost function SumOver<K>(keys: set<K>, f: map<K, int>): int
    requires keys <= f.Keys
  {
    if keys == {} then 0 else
    var k :| k in keys;
    f[k] + SumOver(keys - {k}, f)
  }

  ghost function SumOf<K>(f: map<K, int>): int {
    SumOver(f.Keys, f)
  }

  /** Any key can be taken out first. */
  lemma {:induction false} TakeOut<K>(keys: set<K>, f: map<K, int>, k: K)
    requires keys <= f.Keys && k in keys
    ensures SumOver(keys, f) == f[k] + SumOver(keys - {k}, f)
    decreases |keys|
  {
    var first :| first in keys && SumOver(keys, f) == f[first] + SumOver(keys - {first}, f);
    if first != k {
      TakeOut(keys - {first}, f, k);
      TakeOut(keys - {k}, f, first);
      assert keys - {first} - {k} == keys - {k} - {first};
    }
  }

  lemma {:induction false} SameValues<K>(keys: set<K>, f: map<K, int>, g: map<K, int>)
    requires keys <= f.Keys && keys <= g.Keys && forall k :: k in keys ==> f[k] == g[k]
    ensures SumOver(keys, f) == SumOver(keys, g)
    decreases |keys|
  {
    if keys != {} {
      var k :| k in keys;
      TakeOut(keys, f, k);
      TakeOut(keys, g, k);
      SameValues(keys - {k}, f, g);
    }
  }

  lemma {:induction false} SumAfterUpdate<K>(f: map<K, int>, k: K, v: int)
    ensures SumOf(f[k := v]) == SumOf(f) - (if k in f then f[k] else 0) + v
  {
    var g := f[k := v];
    TakeOut(g.Keys, g, k);
    assert g.Keys - {k} == f.Keys - {k};
    SameValues(f.Keys - {k}, f, g);
    if k in f {
      TakeOut(f.Keys, f, k);
    } else {
      assert f.Keys - {k} == f.Keys;
    }
  }

  /** The total of a weight over a sequence. */
  function Total<T>(s: seq<T>, weight: T -> int): int {
    if s == [] then 0 else Total(s[..|s| - 1], weight) + weight(s[|s| - 1])
  }

  lemma {:induction false} TotalOfConcat<T>(a: seq<T>, b: seq<T>, weight: T -> int)
    ensures Total(a + b, weight) == Total(a, weight) + Total(b, weight)
  {
    if b == [] {
      assert a + b == a;
    } else {
      var k := |b| - 1;
      TotalOfConcat(a, b[..k], weight);
      assert (a + b)[..|a + b| - 1] == a + b[..k];
    }
  }

  function Without<T>(s: seq<T>, i: nat): seq<T>
    requires i < |s|
  {
    s[..i] + s[i + 1..]
  }

  lemma {:induction false} TotalWithout<T>(s: seq<T>, i: nat, weight: T -> int)
    requires i < |s|
    ensures Total(s, weight) == Total(Without(s, i), weight) + weight(s[i])
  {
    assert s == s[..i] + ([s[i]] + s[i + 1..]);
    TotalOfConcat(s[..i], s[i + 1..], weight);
    TotalOfConcat(s[..i], [s[i]] + s[i + 1..], weight);
    TotalOfConcat([s[i]], s[i + 1..], weight);
    assert [s[i]][..0] == [];
  }

  lemma {:induction false} ItemsWithout<T>(s: seq<T>, i: nat)
    requires i < |s|
    ensures multiset(Without(s, i)) == multiset(s) - multiset{s[i]}
  {
    assert s == s[..i] + [s[i]] + s[i + 1..];
  }

  /** A total does not depend on the order. */
  lemma {:induction false} TotalOfPermutation<T>(a: seq<T>, b: seq<T>, weight: T -> int)
    requires multiset(a) == multiset(b)
    ensures Total(a, weight) == Total(b, weight)
    decreases |a|
  {
    assert |multiset(a)| == |a| && |multiset(b)| == |b|;
    if a != [] {
      var k := |a| - 1;
      assert a[k] in multiset(b);
      var i :| 0 <= i < |b| && b[i] == a[k];
      ItemsWithout(a, k);
      ItemsWithout(b, i);
      assert Without(a, k) == a[..k];
      TotalOfPermutation(a[..k], Without(b, i), weight);
      TotalWithout(b, i, weight);
    }
  }
}
