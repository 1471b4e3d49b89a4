/**
 * The array operations of JavaScript the application uses, over sequences:
 * `filter`, a `reduce` that sums, a stable `sort` by a numeric key, and the
 * "push into a dictionary of lists" grouping loop.
 */
module Seqs {

  /** `s.filter(p)`. */
  function Filter<T(!new)>(s: seq<T>, p: T -> bool): (r: seq<T>)
    ensures |r| <= |s|
    ensures forall x :: x in r <==> x in s && p(x)
    ensures forall i :: 0 <= i < |r| ==> p(r[i])
  {
    if s == [] then []
    else (if p(s[0]) then [s[0]] else []) + Filter(s[1..], p)
  }

  lemma {:induction false} FilterConcat<T(!new)>(a: seq<T>, b: seq<T>, p: T -> bool)
    ensures Filter(a + b, p) == Filter(a, p) + Filter(b, p)
  {
    if a == [] {
      assert a + b == b;
    } else {
      var h := if p(a[0]) then [a[0]] else [];
      calc {
        Filter(a + b, p);
        { assert (a + b)[0] == a[0] && (a + b)[1..] == a[1..] + b; }
        h + Filter(a[1..] + b, p);
        { FilterConcat(a[1..], b, p); }
        h + (Filter(a[1..], p) + Filter(b, p));
        (h + Filter(a[1..], p)) + Filter(b, p);
      }
    }
  }

  /** Filtering a list whose every element passes changes nothing. */
  lemma {:induction false} FilterKeepsAll<T(!new)>(s: seq<T>, p: T -> bool)
    requires forall i :: 0 <= i < |s| ==> p(s[i])
    ensures Filter(s, p) == s
  {
    if s != [] {
      FilterKeepsAll(s[1..], p);
    }
  }

  /** Filtering a list no element of which passes leaves nothing. */
  lemma {:induction false} FilterNone<T(!new)>(s: seq<T>, p: T -> bool)
    requires forall i :: 0 <= i < |s| ==> !p(s[i])
    ensures Filter(s, p) == []
  {
    if s != [] {
      FilterNone(s[1..], p);
    }
  }

  /** Filtering twice with the same test is filtering once. */
  lemma FilterIdempotent<T(!new)>(s: seq<T>, p: T -> bool)
    ensures Filter(Filter(s, p), p) == Filter(s, p)
  {
    FilterKeepsAll(Filter(s, p), p);
  }

  /** `r` is `s` with some elements dropped and the rest in their original order. */
  predicate SubsequenceOf<T(==)>(r: seq<T>, s: seq<T>) {
    r == [] || (s != [] && (if r[0] == s[0] then SubsequenceOf(r[1..], s[1..]) else SubsequenceOf(r, s[1..])))
  }

  lemma {:induction false} SubsequenceOfRest<T>(r: seq<T>, s: seq<T>)
    requires s != [] && SubsequenceOf(r, s[1..])
    ensures SubsequenceOf(r, s)
  {
    if r != [] && r[0] == s[0] {
      SubsequenceOfTail(r, s[1..]);
    }
  }

  lemma {:induction false} SubsequenceOfTail<T>(r: seq<T>, s: seq<T>)
    requires r != [] && SubsequenceOf(r, s)
    ensures SubsequenceOf(r[1..], s)
  {
    if r[0] == s[0] {
      if r[1..] != [] {
        SubsequenceOfTail(r[1..], s[1..]);
        SubsequenceOfRest(r[1..], s);
      }
    } else {
      SubsequenceOfTail(r, s[1..]);
      SubsequenceOfRest(r[1..], s);
    }
  }

  /** What `filter` keeps stays in its original order. */
  lemma {:induction false} FilterIsSubsequence<T(!new)>(s: seq<T>, p: T -> bool)
    ensures SubsequenceOf(Filter(s, p), s)
  {
    if s != [] {
      FilterIsSubsequence(s[1..], p);
      if !p(s[0]) {
        assert Filter(s, p) == Filter(s[1..], p);
        SubsequenceOfRest(Filter(s, p), s);
      } else {
        assert Filter(s, p) == [s[0]] + Filter(s[1..], p);
        assert Filter(s, p)[1..] == Filter(s[1..], p);
      }
    }
  }

  /** `s.reduce((sum, x) => sum + f(x), 0)`. */
  function Sum<T>(s: seq<T>, f: T -> real): real {
    if s == [] then 0.0 else f(s[0]) + Sum(s[1..], f)
  }

  lemma {:induction false} SumConcat<T>(a: seq<T>, b: seq<T>, f: T -> real)
    ensures Sum(a + b, f) == Sum(a, f) + Sum(b, f)
  {
    if a == [] {
      assert a + b == b;
    } else {
      assert (a + b)[0] == a[0] && (a + b)[1..] == a[1..] + b;
      SumConcat(a[1..], b, f);
    }
  }

  /** Sums of pointwise sums: `Σ (f + g) == Σ f + Σ g`. */
  lemma {:induction false} SumAdd<T>(s: seq<T>, f: T -> real, g: T -> real, h: T -> real)
    requires forall x :: h(x) == f(x) + g(x)
    ensures Sum(s, h) == Sum(s, f) + Sum(s, g)
  {
    if s != [] {
      SumAdd(s[1..], f, g, h);
    }
  }

  /** Sums of terms that agree on every element agree. */
  lemma {:induction false} SumCongruent<T>(s: seq<T>, f: T -> real, g: T -> real)
    requires forall i :: 0 <= i < |s| ==> f(s[i]) == g(s[i])
    ensures Sum(s, f) == Sum(s, g)
  {
    if s != [] {
      SumCongruent(s[1..], f, g);
    }
  }

  /** Summing a term over rows built one per element is summing the matching term over the elements. */
  lemma {:induction false} SumMapped<T, U>(s: seq<T>, r: seq<U>, f: T -> real, g: U -> real)
    requires |r| == |s|
    requires forall i :: 0 <= i < |s| ==> g(r[i]) == f(s[i])
    ensures Sum(r, g) == Sum(s, f)
  {
    if s != [] {
      SumMapped(s[1..], r[1..], f, g);
    }
  }

  lemma {:induction false} SumNonNegative<T>(s: seq<T>, f: T -> real)
    requires forall i :: 0 <= i < |s| ==> f(s[i]) >= 0.0
    ensures Sum(s, f) >= 0.0
  {
    if s != [] {
      SumNonNegative(s[1..], f);
    }
  }

  /** Terms between `lo` and `hi` sum to between `|s| * lo` and `|s| * hi`. */
  lemma {:induction false} SumBetween<T>(s: seq<T>, f: T -> real, lo: real, hi: real)
    requires forall i :: 0 <= i < |s| ==> lo <= f(s[i]) <= hi
    ensures |s| as real * lo <= Sum(s, f) <= |s| as real * hi
  {
    if s != [] {
      SumBetween(s[1..], f, lo, hi);
      assert |s| as real * lo == lo + |s[1..]| as real * lo;
      assert |s| as real * hi == hi + |s[1..]| as real * hi;
    }
  }

  /** The sum of a prefix one longer adds the next term. */
  lemma SumSnoc<T>(s: seq<T>, i: nat, f: T -> real)
    requires i < |s|
    ensures Sum(s[..i + 1], f) == Sum(s[..i], f) + f(s[i])
  {
    assert s[..i + 1] == s[..i] + [s[i]];
    SumConcat(s[..i], [s[i]], f);
  }

  /** `key` is non-decreasing along `s`. */
  predicate SortedBy<T>(s: seq<T>, key: T -> real) {
    forall i, j :: 0 <= i < j < |s| ==> key(s[i]) <= key(s[j])
  }

  /** Puts `x` into `s` after every leading element whose key is not larger. */
  function Insert<T>(x: T, s: seq<T>, key: T -> real): seq<T> {
    if s == [] then [x]
    else if key(x) < key(s[0]) then [x] + s
    else [s[0]] + Insert(x, s[1..], key)
  }

  /** Inserting adds exactly `x`. */
  lemma {:induction false} InsertAdds<T>(x: T, s: seq<T>, key: T -> real)
    ensures multiset(Insert(x, s, key)) == multiset(s) + multiset{x}
    ensures |Insert(x, s, key)| == |s| + 1
  {
    if s != [] && key(x) >= key(s[0]) {
      InsertAdds(x, s[1..], key);
      assert s == [s[0]] + s[1..];
    }
  }

  /** Inserting into a sorted list keeps it sorted. */
  lemma {:induction false} InsertSorted<T>(x: T, s: seq<T>, key: T -> real)
    requires SortedBy(s, key)
    ensures SortedBy(Insert(x, s, key), key)
  {
    if s == [] {
    } else if key(x) < key(s[0]) {
      ConsSorted(x, s, key);
    } else {
      var t := Insert(x, s[1..], key);
      InsertSorted(x, s[1..], key);
      InsertAdds(x, s[1..], key);
      forall k | 0 <= k < |t| ensures key(s[0]) <= key(t[k]) {
        assert t[k] in multiset(s[1..]) + multiset{x};
        if t[k] != x {
          var j :| 0 <= j < |s[1..]| && s[1..][j] == t[k];
          assert s[1 + j] == t[k];
        }
      }
      ConsSorted(s[0], t, key);
    }
  }

  /** A sorted list stays sorted with an element in front that is no larger than any of it. */
  lemma ConsSorted<T>(y: T, t: seq<T>, key: T -> real)
    requires SortedBy(t, key) && forall k :: 0 <= k < |t| ==> key(y) <= key(t[k])
    ensures SortedBy([y] + t, key)
  {
    var r := [y] + t;
    forall i, j | 0 <= i < j < |r| ensures key(r[i]) <= key(r[j]) {
      assert r[j] == t[j - 1];
      if i > 0 {
        assert r[i] == t[i - 1];
      }
    }
  }

  /** A sort by `key` that keeps equal keys in their original order (insertion sort). */
  function SortBy<T>(s: seq<T>, key: T -> real): (r: seq<T>)
    ensures SortedBy(r, key)
    ensures multiset(r) == multiset(s)
    ensures |r| == |s|
  {
    if s == [] then []
    else
      assert s == s[..|s| - 1] + [s[|s| - 1]];
      InsertSorted(s[|s| - 1], SortBy(s[..|s| - 1], key), key);
      InsertAdds(s[|s| - 1], SortBy(s[..|s| - 1], key), key);
      Insert(s[|s| - 1], SortBy(s[..|s| - 1], key), key)
  }

  /** The test "has key `v`". */
  function KeyIs<T>(key: T -> real, v: real): T -> bool {
    y => key(y) == v
  }

  /** Filtering a one-element list. */
  lemma FilterSingle<T(!new)>(x: T, p: T -> bool)
    ensures Filter([x], p) == if p(x) then [x] else []
  {
    assert [x][1..] == [];
  }

  /** Inserting keeps the elements of each key in their order, with `x` after the ones it equals. */
  lemma {:induction false} InsertStable<T(!new)>(x: T, s: seq<T>, key: T -> real, v: real)
    requires SortedBy(s, key)
    ensures Filter(Insert(x, s, key), KeyIs(key, v)) == Filter(s, KeyIs(key, v)) + (if key(x) == v then [x] else [])
  {
    if s == [] {
      FilterSingle(x, KeyIs(key, v));
      assert Insert(x, s, key) == [x];
    } else if key(x) < key(s[0]) {
      InsertFront(x, s, key, v);
    } else {
      InsertStable(x, s[1..], key, v);
      InsertBehind(x, s, key, v);
    }
  }

  /** `InsertStable` when `x` goes in front. */
  lemma InsertFront<T(!new)>(x: T, s: seq<T>, key: T -> real, v: real)
    requires SortedBy(s, key) && s != [] && key(x) < key(s[0])
    ensures Filter([x] + s, KeyIs(key, v)) == Filter(s, KeyIs(key, v)) + (if key(x) == v then [x] else [])
  {
    var q := KeyIs(key, v);
    FilterSingle(x, q);
    FilterConcat([x], s, q);
    if key(x) == v {
      forall i | 0 <= i < |s| ensures !q(s[i]) {
        assert key(s[0]) <= key(s[i]);
      }
      FilterNone(s, q);
    }
  }

  /** `InsertStable` when `x` goes behind the first element, given that it holds for the rest. */
  lemma InsertBehind<T(!new)>(x: T, s: seq<T>, key: T -> real, v: real)
    requires s != [] && key(x) >= key(s[0])
    requires Filter(Insert(x, s[1..], key), KeyIs(key, v)) == Filter(s[1..], KeyIs(key, v)) + (if key(x) == v then [x] else [])
    ensures Filter(Insert(x, s, key), KeyIs(key, v)) == Filter(s, KeyIs(key, v)) + (if key(x) == v then [x] else [])
  {
    var q := KeyIs(key, v);
    var t := Insert(x, s[1..], key);
    var r := [s[0]] + t;
    assert Insert(x, s, key) == r;
    assert r[1..] == t;
    var h := if q(s[0]) then [s[0]] else [];
    assert Filter(r, q) == h + Filter(t, q);
    assert Filter(s, q) == h + Filter(s[1..], q);
    AppendAssoc(h, Filter(s[1..], q), if key(x) == v then [x] else []);
  }

  lemma AppendAssoc<T>(a: seq<T>, b: seq<T>, c: seq<T>)
    ensures a + (b + c) == (a + b) + c
  {
  }

  /** The sort is stable: the elements of any one key come out in the order they went in. */
  lemma {:induction false} SortStable<T(!new)>(s: seq<T>, key: T -> real, v: real)
    ensures Filter(SortBy(s, key), KeyIs(key, v)) == Filter(s, KeyIs(key, v))
  {
    if s != [] {
      var init, x := s[..|s| - 1], s[|s| - 1];
      assert SortBy(s, key) == Insert(x, SortBy(init, key), key);
      SortStable(init, key, v);
      InsertStable(x, SortBy(init, key), key, v);
      assert s == init + [x];
      FilterConcat(init, [x], KeyIs(key, v));
      FilterSingle(x, KeyIs(key, v));
    }
  }

  /** `s.slice(0, n)`. */
  function Take<T>(s: seq<T>, n: nat): (r: seq<T>)
    ensures |r| == if |s| < n then |s| else n
    ensures r == s[..|r|]
  {
    if |s| < n then s else s[..n]
  }

  /** Whatever is left out of the first `n` of a sorted list has a key no smaller than any that was kept. */
  lemma TakeSortedMaximal<T>(s: seq<T>, key: T -> real, n: nat, e: T)
    requires e in s && e !in Take(SortBy(s, key), n)
    ensures forall t :: t in Take(SortBy(s, key), n) ==> key(t) <= key(e)
  {
    var sorted := SortBy(s, key);
    var top := Take(sorted, n);
    assert e in multiset(sorted);
    var j :| 0 <= j < |sorted| && sorted[j] == e;
    assert j >= |top|;
    forall t | t in top ensures key(t) <= key(e) {
      var i :| 0 <= i < |top| && top[i] == t;
      assert sorted[i] == t;
    }
  }

  /** The keys of `s`, in the order in which they first appear. */
  function FirstKeys<T, K(==)>(s: seq<T>, key: T -> K): seq<K> {
    if s == [] then []
    else
      var before := FirstKeys(s[..|s| - 1], key);
      var k := key(s[|s| - 1]);
      if k in before then before else before + [k]
  }

  /** Each key of `s` appears once, and nothing else does. */
  lemma {:induction false} FirstKeysSpec<T(!new), K(!new)>(s: seq<T>, key: T -> K)
    ensures forall k :: k in FirstKeys(s, key) <==> exists x :: x in s && key(x) == k
    ensures forall i, j :: 0 <= i < j < |FirstKeys(s, key)| ==> FirstKeys(s, key)[i] != FirstKeys(s, key)[j]
  {
    if s != [] {
      var init, last := s[..|s| - 1], s[|s| - 1];
      FirstKeysSpec(init, key);
      assert s == init + [last];
      assert forall x :: x in s <==> x in init || x == last;
      var before := FirstKeys(init, key);
      var r := FirstKeys(s, key);
      assert r == if key(last) in before then before else before + [key(last)];
      assert forall k :: k in r <==> k in before || k == key(last);
      forall k ensures k in r <==> exists x :: x in s && key(x) == k {
        if k in r {
          if k in before {
            var x :| x in init && key(x) == k;
            assert x in s;
          } else {
            assert last in s;
          }
        }
      }
      if key(last) !in before {
        assert r == before + [key(last)];
        assert forall a, b :: 0 <= a < b < |before| ==> before[a] != before[b];
        forall i, j | 0 <= i < j < |r| ensures r[i] != r[j] {
          if j == |before| {
            assert r[i] == before[i] && before[i] in before && r[j] == key(last);
          } else {
            assert r[i] == before[i] && r[j] == before[j];
          }
        }
      }
    }
  }

  /** The keys of a list one longer: the new element's key is added unless it was met already. */
  lemma FirstKeysSnoc<T(!new), K(!new)>(s: seq<T>, x: T, key: T -> K)
    ensures FirstKeys(s + [x], key) == if key(x) in FirstKeys(s, key) then FirstKeys(s, key) else FirstKeys(s, key) + [key(x)]
  {
    assert (s + [x])[..|s + [x]| - 1] == s;
  }

  /** The test "has key `k`". */
  function KeyEquals<T, K(==)>(key: T -> K, k: K): T -> bool {
    y => key(y) == k
  }

  /** Every key of `s`, with the elements of that key, in their original order. */
  ghost predicate IsGrouping<T(!new), K(!new)>(s: seq<T>, key: T -> K, groups: map<K, seq<T>>, order: seq<K>) {
    && order == FirstKeys(s, key)
    && (forall k :: k in groups <==> k in order)
    && (forall k :: k in groups ==> groups[k] == Filter(s, KeyEquals(key, k)))
  }

  /** The groups built by pushing the elements of `s` one after another onto the list of their key. */
  function Grouped<T, K(==)>(s: seq<T>, key: T -> K): map<K, seq<T>> {
    if s == [] then map[]
    else
      var g := Grouped(s[..|s| - 1], key);
      var x := s[|s| - 1];
      if key(x) in g then g[key(x) := g[key(x)] + [x]] else g[key(x) := [x]]
  }

  /** The pushed groups are the grouping of `s`, with the keys in the order of `FirstKeys`. */
  lemma {:induction false} GroupedIsGrouping<T(!new), K(!new)>(s: seq<T>, key: T -> K)
    ensures IsGrouping(s, key, Grouped(s, key), FirstKeys(s, key))
  {
    if s != [] {
      var init, x := s[..|s| - 1], s[|s| - 1];
      GroupedIsGrouping(init, key);
      assert s == init + [x];
      FirstKeysSnoc(init, x, key);
      if key(x) in Grouped(init, key) {
        GroupPushOld(init, x, key, Grouped(init, key), FirstKeys(init, key));
      } else {
        GroupPushNew(init, x, key, Grouped(init, key), FirstKeys(init, key));
      }
    }
  }

  /** The pushed groups have exactly the keys of `FirstKeys`. */
  lemma {:induction false} GroupedKeys<T(!new), K(!new)>(s: seq<T>, key: T -> K)
    ensures forall k :: k in Grouped(s, key) <==> k in FirstKeys(s, key)
  {
    if s != [] {
      var init, x := s[..|s| - 1], s[|s| - 1];
      GroupedKeys(init, key);
      assert s == init + [x];
      FirstKeysSnoc(init, x, key);
    }
  }

  /** The groups of a list one longer: the new element pushed onto the list of its key. */
  lemma GroupedSnoc<T, K>(s: seq<T>, x: T, key: T -> K)
    ensures var g := Grouped(s, key);
      Grouped(s + [x], key) == if key(x) in g then g[key(x) := g[key(x)] + [x]] else g[key(x) := [x]]
  {
    assert (s + [x])[..|s + [x]| - 1] == s;
  }

  /**
   * The `forEach` that pushes each element onto the list of its key,
   * creating the list on the key's first appearance.
   */
  method GroupBy<T(!new), K(==,!new)>(s: seq<T>, key: T -> K) returns (groups: map<K, seq<T>>, order: seq<K>)
    ensures groups == Grouped(s, key) && order == FirstKeys(s, key)
  {
    groups, order := map[], [];
    var i := 0;
    while i < |s|
      invariant 0 <= i <= |s|
      invariant groups == Grouped(s[..i], key) && order == FirstKeys(s[..i], key)
      invariant forall k :: k in groups <==> k in order
    {
      var x := s[i];
      var k := key(x);
      GroupedSnoc(s[..i], x, key);
      FirstKeysSnoc(s[..i], x, key);
      assert s[..i] + [x] == s[..i + 1];
      if k in groups {
        groups := groups[k := groups[k] + [x]];
      } else {
        groups := groups[k := [x]];
        order := order + [k];
      }
      i := i + 1;
    }
    assert s[..i] == s;
  }

  /** One step of the grouping loop, for a key met before: `x` goes at the end of its key's list. */
  lemma GroupPushOld<T(!new), K(!new)>(prefix: seq<T>, x: T, key: T -> K, groups: map<K, seq<T>>, order: seq<K>)
    requires IsGrouping(prefix, key, groups, order) && key(x) in groups
    ensures IsGrouping(prefix + [x], key, groups[key(x) := groups[key(x)] + [x]], order)
  {
    var s := prefix + [x];
    FirstKeysSnoc(prefix, x, key);
    var g := groups[key(x) := groups[key(x)] + [x]];
    forall k' | k' in g
      ensures g[k'] == Filter(s, KeyEquals(key, k'))
    {
      PushedFilter(prefix, x, key, k');
    }
  }

  /** One step of the grouping loop, for a new key: the key gets the list `[x]` and goes at the end of the order. */
  lemma GroupPushNew<T(!new), K(!new)>(prefix: seq<T>, x: T, key: T -> K, groups: map<K, seq<T>>, order: seq<K>)
    requires IsGrouping(prefix, key, groups, order) && key(x) !in groups
    ensures IsGrouping(prefix + [x], key, groups[key(x) := [x]], order + [key(x)])
  {
    var s := prefix + [x];
    var k := key(x);
    FirstKeysSnoc(prefix, x, key);
    FirstKeysSpec(prefix, key);
    var g := groups[k := [x]];
    forall k' | k' in g
      ensures g[k'] == Filter(s, KeyEquals(key, k'))
    {
      PushedFilter(prefix, x, key, k');
      if k' == k {
        FilterNone(prefix, KeyEquals(key, k));
      }
    }
  }

  /** Filtering by a key after one more element: the element is added when it has that key. */
  lemma PushedFilter<T(!new), K(!new)>(prefix: seq<T>, x: T, key: T -> K, k: K)
    ensures Filter(prefix + [x], KeyEquals(key, k)) == Filter(prefix, KeyEquals(key, k)) + (if key(x) == k then [x] else [])
  {
    FilterConcat(prefix, [x], KeyEquals(key, k));
    FilterSingle(x, KeyEquals(key, k));
  }

  /** Every element lands in the group of its own key and in no other. */
  lemma GroupingPlacesEach<T(!new), K(!new)>(s: seq<T>, key: T -> K, groups: map<K, seq<T>>, order: seq<K>, x: T, k: K)
    requires IsGrouping(s, key, groups, order)
    requires x in s && k in groups
    ensures key(x) in groups
    ensures x in groups[k] <==> key(x) == k
  {
    FirstKeysSpec(s, key);
  }

  /** Within a group the elements keep their relative order. */
  lemma GroupingKeepsOrder<T(!new), K(!new)>(s: seq<T>, key: T -> K, groups: map<K, seq<T>>, order: seq<K>, k: K)
    requires IsGrouping(s, key, groups, order)
    requires k in groups
    ensures SubsequenceOf(groups[k], s)
  {
    FilterIsSubsequence(s, KeyEquals(key, k));
  }
}
