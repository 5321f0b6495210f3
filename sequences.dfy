/** The array operations the dashboard relies on, `Array.prototype.filter`
    followed by `.length`, stated on sequences, with the facts about them that
    the aggregations need: the result is an order-preserving subsequence,
    filters compose and commute, and counts of complementary or disjoint
    predicates add up. */
module Sequences {

  /** `s.filter(f)`: the elements of `s` satisfying `f`, in their original order. */
  function Where<T>(s: seq<T>, f: T -> bool): (r: seq<T>)
    ensures |r| <= |s|
    ensures forall i :: 0 <= i < |r| ==> f(r[i])
  {
    if s == [] then [] else (if f(s[0]) then [s[0]] else []) + Where(s[1..], f)
  }

  /** `s.filter(f).length`. */
  function Count<T>(s: seq<T>, f: T -> bool): (n: nat)
    ensures n <= |s|
  {
    |Where(s, f)|
  }

  /** The test "the key is `k`". */
  function KeyIs<T, K(==)>(key: T -> K, k: K): T -> bool
  {
    x => key(x) == k
  }

  /** The test "both `f` and `g` hold". */
  function Both<T>(f: T -> bool, g: T -> bool): T -> bool
  {
    x => f(x) && g(x)
  }

  /** The number of elements whose key is `k`. */
  function CountKey<T, K(==)>(s: seq<T>, key: T -> K, k: K): (n: nat)
    ensures n <= |s|
  {
    Count(s, KeyIs(key, k))
  }

  /** The sum, over the keys `ks` in order, of the number of elements with that key. */
  function SumCounts<T, K(==)>(s: seq<T>, key: T -> K, ks: seq<K>): nat
  {
    if ks == [] then 0 else CountKey(s, key, ks[0]) + SumCounts(s, key, ks[1..])
  }

  /** `sub` can be obtained from `s` by deleting elements, without reordering. */
  ghost predicate SubsequenceOf<T>(sub: seq<T>, s: seq<T>)
    decreases |s|
  {
    if sub == [] then true
    else if s == [] then false
    else (sub[0] == s[0] && SubsequenceOf(sub[1..], s[1..])) || SubsequenceOf(sub, s[1..])
  }

  ghost predicate Distinct<K>(ks: seq<K>)
  {
    forall i, j :: 0 <= i < j < |ks| ==> ks[i] != ks[j]
  }

  lemma {:induction false} WhereCons<T>(s: seq<T>, f: T -> bool)
    requires s != []
    ensures Where(s, f) == (if f(s[0]) then [s[0]] else []) + Where(s[1..], f)
    ensures Count(s, f) == (if f(s[0]) then 1 else 0) + Count(s[1..], f)
  {
  }

  /** Filtering a sequence extended by one element extends the result by at most that element. */
  lemma {:induction false} WhereSnoc<T>(s: seq<T>, x: T, f: T -> bool)
    ensures Where(s + [x], f) == Where(s, f) + (if f(x) then [x] else [])
  {
    if s == [] {
      assert [] + [x] == [x];
      WhereCons([x], f);
    } else {
      WhereSnoc(s[1..], x, f);
      assert (s + [x])[1..] == s[1..] + [x];
      WhereCons(s + [x], f);
    }
  }

  /** Filtering keeps the relative order of the elements it keeps. */
  lemma {:induction false} WhereIsSubsequence<T>(s: seq<T>, f: T -> bool)
    ensures SubsequenceOf(Where(s, f), s)
  {
    if s != [] {
      WhereIsSubsequence(s[1..], f);
      var rest := Where(s[1..], f);
      if f(s[0]) {
        assert Where(s, f) == [s[0]] + rest;
        assert ([s[0]] + rest)[1..] == rest;
      } else {
        assert Where(s, f) == rest;
        if rest != [] {
          assert SubsequenceOf(rest, s[1..]);
        }
      }
    }
  }

  /** An element is kept exactly when it occurs in the input and satisfies the predicate. */
  lemma {:induction false} WhereMembership<T>(s: seq<T>, f: T -> bool, x: T)
    ensures x in Where(s, f) <==> x in s && f(x)
  {
    if s != [] {
      WhereMembership(s[1..], f, x);
      assert s == [s[0]] + s[1..];
    }
  }

  /** A predicate that holds of every element filters nothing out. */
  lemma {:induction false} WhereAllKept<T>(s: seq<T>, f: T -> bool)
    requires forall i :: 0 <= i < |s| ==> f(s[i])
    ensures Where(s, f) == s
  {
    if s != [] {
      WhereAllKept(s[1..], f);
      assert s == [s[0]] + s[1..];
    }
  }

  /** Two predicates that agree on every element select the same elements. */
  lemma {:induction false} WhereAgree<T>(s: seq<T>, f: T -> bool, g: T -> bool)
    requires forall i :: 0 <= i < |s| ==> f(s[i]) == g(s[i])
    ensures Where(s, f) == Where(s, g)
  {
    if s != [] {
      WhereAgree(s[1..], f, g);
    }
  }

  /** Filtering by `f` and then by `g` is filtering by their conjunction. */
  lemma {:induction false} WhereThenWhere<T>(s: seq<T>, f: T -> bool, g: T -> bool)
    ensures Where(Where(s, f), g) == Where(s, Both(f, g))
  {
    if s != [] {
      WhereThenWhere(s[1..], f, g);
      var rest := Where(s[1..], f);
      if f(s[0]) {
        assert Where(s, f) == [s[0]] + rest;
        WhereCons([s[0]] + rest, g);
        assert ([s[0]] + rest)[1..] == rest;
      } else {
        assert Where(s, f) == rest;
      }
    }
  }

  /** Two filters applied in sequence give the same result in either order. */
  lemma {:induction false} WhereCommutes<T>(s: seq<T>, f: T -> bool, g: T -> bool)
    ensures Where(Where(s, f), g) == Where(Where(s, g), f)
  {
    WhereThenWhere(s, f, g);
    WhereThenWhere(s, g, f);
    forall i | 0 <= i < |s|
      ensures Both(f, g)(s[i]) == Both(g, f)(s[i])
    {
      BothHolds(f, g, s[i]);
      BothHolds(g, f, s[i]);
    }
    WhereAgree(s, Both(f, g), Both(g, f));
  }

  lemma BothHolds<T>(f: T -> bool, g: T -> bool, x: T)
    ensures Both(f, g)(x) <==> f(x) && g(x)
  {
    assert Both(f, g) == (y => f(y) && g(y));
  }

  /** Counting `g` among the elements kept by `f` counts the elements satisfying both. */
  lemma CountAfterWhereIsBoth<T>(s: seq<T>, f: T -> bool, g: T -> bool)
    ensures Count(Where(s, f), g) == Count(s, Both(f, g))
  {
    WhereThenWhere(s, f, g);
  }

  /** Every element satisfies exactly one of `f`, `g`: the two counts make up the whole. */
  lemma {:induction false} CountComplement<T>(s: seq<T>, f: T -> bool, g: T -> bool)
    requires forall i :: 0 <= i < |s| ==> f(s[i]) != g(s[i])
    ensures Count(s, f) + Count(s, g) == |s|
  {
    if s != [] {
      WhereCons(s, f);
      WhereCons(s, g);
      CountComplement(s[1..], f, g);
    }
  }

  /** `f` holds exactly where one of the disjoint `g`, `h` holds: its count is their sum. */
  lemma {:induction false} CountDisjointUnion<T>(s: seq<T>, f: T -> bool, g: T -> bool, h: T -> bool)
    requires forall i :: 0 <= i < |s| ==> (f(s[i]) <==> g(s[i]) || h(s[i]))
    requires forall i :: 0 <= i < |s| ==> !(g(s[i]) && h(s[i]))
    ensures Count(s, f) == Count(s, g) + Count(s, h)
  {
    if s != [] {
      WhereCons(s, f);
      WhereCons(s, g);
      WhereCons(s, h);
      CountDisjointUnion(s[1..], f, g, h);
    }
  }

  /** A weaker predicate never counts fewer elements. */
  lemma {:induction false} CountMonotone<T>(s: seq<T>, f: T -> bool, g: T -> bool)
    requires forall i :: 0 <= i < |s| ==> f(s[i]) ==> g(s[i])
    ensures Count(s, f) <= Count(s, g)
  {
    if s != [] {
      WhereCons(s, f);
      WhereCons(s, g);
      CountMonotone(s[1..], f, g);
    }
  }

  /** Filtering first never raises the number of elements satisfying `g`. */
  lemma {:induction false} CountAfterWhere<T>(s: seq<T>, f: T -> bool, g: T -> bool)
    ensures Count(Where(s, f), g) <= Count(s, g)
  {
    if s != [] {
      CountAfterWhere(s[1..], f, g);
      WhereCons(s, g);
      var rest := Where(s[1..], f);
      if f(s[0]) {
        assert Where(s, f) == [s[0]] + rest;
        WhereCons([s[0]] + rest, g);
        assert ([s[0]] + rest)[1..] == rest;
      } else {
        assert Where(s, f) == rest;
      }
    }
  }

  /** Summing the per-key counts over distinct keys counts the elements whose key is among them. */
  lemma {:induction false} SumCountsIsCountIn<T, K>(s: seq<T>, key: T -> K, ks: seq<K>)
    requires Distinct(ks)
    ensures SumCounts(s, key, ks) == Count(s, x => key(x) in ks)
  {
    if ks == [] {
      CountComplement(s, x => key(x) in ks, x => true);
      WhereAllKept(s, x => true);
    } else {
      SumCountsIsCountIn(s, key, ks[1..]);
      forall i | 0 <= i < |s|
        ensures key(s[i]) in ks <==> key(s[i]) == ks[0] || key(s[i]) in ks[1..]
      {
        assert ks == [ks[0]] + ks[1..];
      }
      forall i | 0 <= i < |s|
        ensures !(key(s[i]) == ks[0] && key(s[i]) in ks[1..])
      {
        if key(s[i]) in ks[1..] {
          var j :| 0 <= j < |ks[1..]| && ks[1..][j] == key(s[i]);
          assert ks[j + 1] == key(s[i]);
        }
      }
      CountDisjointUnion(s, x => key(x) in ks, KeyIs(key, ks[0]), x => key(x) in ks[1..]);
    }
  }

  /** When every element's key is among the distinct keys `ks`, the per-key counts partition `s`. */
  lemma SumCountsPartition<T, K>(s: seq<T>, key: T -> K, ks: seq<K>)
    requires Distinct(ks)
    requires forall i :: 0 <= i < |s| ==> key(s[i]) in ks
    ensures SumCounts(s, key, ks) == |s|
  {
    SumCountsIsCountIn(s, key, ks);
    WhereAllKept(s, x => key(x) in ks);
  }
}
