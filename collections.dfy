/** The array and object idioms the core is built from: `filter`, a summing
    `reduce`, grouping into an object keyed by string (whose entries keep
    insertion order), the stable `sort` by a numeric key, `sort()` on
    strings, and `slice` from either end. */
module Collections {
  import opened Text

  // ---------------------------------------------------------------------------
  // filter and reduce

  /** `s.filter(p)`. */
  function Filter<T>(s: seq<T>, p: T -> bool): (r: seq<T>)
    ensures |r| <= |s|
    ensures forall i :: 0 <= i < |r| ==> r[i] in s && p(r[i])
    ensures forall i :: 0 <= i < |s| && p(s[i]) ==> s[i] in r
  {
    if s == [] then []
    else Filter(s[..|s| - 1], p) + (if p(s[|s| - 1]) then [s[|s| - 1]] else [])
  }

  /** `s.reduce((sum, x) => sum + f(x), 0)`. */
  function Sum<T>(s: seq<T>, f: T -> real): real {
    if s == [] then 0.0 else Sum(s[..|s| - 1], f) + f(s[|s| - 1])
  }

  /** What `filter` keeps is exactly what is in `s` and passes `p`. */
  lemma FilterMember<T>(s: seq<T>, p: T -> bool, x: T)
    ensures x in Filter(s, p) <==> x in s && p(x)
  {
    var r := Filter(s, p);
    if x in r {
      var i :| 0 <= i < |r| && r[i] == x;
    }
    if x in s && p(x) {
      var i :| 0 <= i < |s| && s[i] == x;
    }
  }

  /** `a` is a subsequence of `b`: `b` with some elements left out. */
  predicate IsSubsequence<T(==)>(a: seq<T>, b: seq<T>) {
    if a == [] then true
    else if b == [] then false
    else if a[|a| - 1] == b[|b| - 1] then IsSubsequence(a[..|a| - 1], b[..|b| - 1])
    else IsSubsequence(a, b[..|b| - 1])
  }

  lemma {:induction false} SubsequenceExtend<T>(a: seq<T>, b: seq<T>, x: T)
    requires IsSubsequence(a, b)
    ensures IsSubsequence(a, b + [x])
    decreases |b|, 1
  {
    var bx := b + [x];
    assert bx[..|bx| - 1] == b;
    if a != [] && a[|a| - 1] == x {
      SubsequenceDropLast(a, b);
    }
  }

  /** A subsequence of `b` with its last element removed is still one. */
  lemma {:induction false} SubsequenceDropLast<T>(a: seq<T>, b: seq<T>)
    requires a != [] && IsSubsequence(a, b)
    ensures IsSubsequence(a[..|a| - 1], b)
    decreases |b|, 0
  {
    assert b[..|b| - 1] + [b[|b| - 1]] == b;
    if a[|a| - 1] == b[|b| - 1] {
      SubsequenceExtend(a[..|a| - 1], b[..|b| - 1], b[|b| - 1]);
    } else {
      SubsequenceDropLast(a, b[..|b| - 1]);
      SubsequenceExtend(a[..|a| - 1], b[..|b| - 1], b[|b| - 1]);
    }
  }

  /** `filter` keeps the order of what it keeps. */
  lemma {:induction false} FilterIsSubsequence<T>(s: seq<T>, p: T -> bool)
    ensures IsSubsequence(Filter(s, p), s)
  {
    if s != [] {
      var init, last := s[..|s| - 1], s[|s| - 1];
      FilterIsSubsequence(init, p);
      assert init + [last] == s;
      if p(last) {
        var r := Filter(s, p);
        assert r == Filter(init, p) + [last];
        assert r[|r| - 1] == s[|s| - 1];
        assert r[..|r| - 1] == Filter(init, p);
      } else {
        assert Filter(s, p) == Filter(init, p) + [];
        assert Filter(s, p) == Filter(init, p);
        SubsequenceExtend(Filter(init, p), init, last);
        assert IsSubsequence(Filter(init, p), init + [last]);
      }
    }
  }

  /** A filter that keeps everything is the identity. */
  lemma {:induction false} FilterAll<T>(s: seq<T>, p: T -> bool)
    requires forall x :: x in s ==> p(x)
    ensures Filter(s, p) == s
  {
    if s != [] {
      FilterAll(s[..|s| - 1], p);
      assert s[..|s| - 1] + [s[|s| - 1]] == s;
    }
  }

  lemma {:induction false} SumAppend<T>(a: seq<T>, b: seq<T>, f: T -> real)
    ensures Sum(a + b, f) == Sum(a, f) + Sum(b, f)
    decreases |b|
  {
    if b == [] {
      assert a + b == a;
    } else {
      assert (a + b)[..|a + b| - 1] == a + b[..|b| - 1];
      SumAppend(a, b[..|b| - 1], f);
    }
  }

  /** The term `f` where `p` holds and 0 elsewhere. */
  function Masked<T>(p: T -> bool, f: T -> real): T -> real {
    x => if p(x) then f(x) else 0.0
  }

  /** Summing over a filter is summing the terms the filter keeps. */
  lemma {:induction false} SumFilter<T>(s: seq<T>, p: T -> bool, f: T -> real)
    ensures Sum(Filter(s, p), f) == Sum(s, Masked(p, f))
  {
    if s != [] {
      var init, last := s[..|s| - 1], s[|s| - 1];
      SumFilter(init, p, f);
      SumAppend(Filter(init, p), if p(last) then [last] else [], f);
      if p(last) {
        assert Sum([last], f) == Sum([last][..0], f) + f(last);
      }
    }
  }

  /** Filters that agree on every element select the same elements. */
  lemma {:induction false} FilterCongruent<T>(s: seq<T>, p: T -> bool, q: T -> bool)
    requires forall x :: x in s ==> p(x) == q(x)
    ensures Filter(s, p) == Filter(s, q)
  {
    if s != [] {
      FilterCongruent(s[..|s| - 1], p, q);
      assert s[|s| - 1] in s;
    }
  }

  // Filtering, summing and grouping one more element, as `forEach` and
  // `reduce` visit it.

  /** `filter` over a list with one more entry at the front. */
  lemma {:induction false} FilterCons<T>(x: T, s: seq<T>, p: T -> bool)
    ensures Filter([x] + s, p) == (if p(x) then [x] else []) + Filter(s, p)
  {
    if s != [] {
      var init := s[..|s| - 1];
      assert ([x] + s)[..|s|] == [x] + init;
      FilterCons(x, init, p);
    }
  }

  lemma FilterSnoc<T>(s: seq<T>, x: T, p: T -> bool)
    ensures p(x) ==> Filter(s + [x], p) == Filter(s, p) + [x]
    ensures !p(x) ==> Filter(s + [x], p) == Filter(s, p)
  {
    assert (s + [x])[..|s|] == s;
    assert Filter(s, p) + [] == Filter(s, p);
  }

  lemma SumSnoc<T>(s: seq<T>, x: T, f: T -> real)
    ensures Sum(s + [x], f) == Sum(s, f) + f(x)
  {
    assert (s + [x])[..|s|] == s;
  }

  /** `p` or `q`. */
  function Either<T>(p: T -> bool, q: T -> bool): T -> bool {
    x => p(x) || q(x)
  }

  /** Two filters that never both keep an element add up to the filter that
      keeps what either keeps: nothing is counted twice. */
  lemma {:induction false} SumMaskedDisjoint<T>(s: seq<T>, p: T -> bool, q: T -> bool, f: T -> real)
    requires forall x :: x in s ==> !(p(x) && q(x))
    ensures Sum(s, Masked(p, f)) + Sum(s, Masked(q, f)) == Sum(s, Masked(Either(p, q), f))
  {
    if s != [] {
      var init, last := s[..|s| - 1], s[|s| - 1];
      assert forall x :: x in init ==> x in s;
      SumMaskedDisjoint(init, p, q, f);
    }
  }

  /** Terms that agree on `s` give the same sum. */
  lemma {:induction false} SumCongruent<T>(s: seq<T>, f: T -> real, g: T -> real)
    requires forall x :: x in s ==> f(x) == g(x)
    ensures Sum(s, f) == Sum(s, g)
  {
    if s != [] { SumCongruent(s[..|s| - 1], f, g); }
  }

  /** Sums of terms that add up pointwise add up. */
  lemma {:induction false} SumPointwise<T>(s: seq<T>, f: T -> real, g: T -> real, h: T -> real)
    requires forall x :: x in s ==> f(x) + g(x) == h(x)
    ensures Sum(s, f) + Sum(s, g) == Sum(s, h)
  {
    if s != [] { SumPointwise(s[..|s| - 1], f, g, h); }
  }

  /** The sum of non-negative terms is non-negative. */
  lemma {:induction false} SumNonNegative<T>(s: seq<T>, f: T -> real)
    requires forall x :: x in s ==> f(x) >= 0.0
    ensures Sum(s, f) >= 0.0
  {
    if s != [] { SumNonNegative(s[..|s| - 1], f); }
  }

  // ---------------------------------------------------------------------------
  // Grouping into an object

  /** One entry of an object that maps a key to a running total. */
  datatype Total = Total(key: string, amount: real)

  function TotalAmount(e: Total): real { e.amount }

  function Keys(acc: seq<Total>): (r: seq<string>)
    ensures |r| == |acc|
    ensures forall i :: 0 <= i < |acc| ==> r[i] == acc[i].key
  {
    if acc == [] then [] else [acc[0].key] + Keys(acc[1..])
  }

  /** No key occurs twice, as in the entries of a JavaScript object. */
  predicate DistinctKeys(acc: seq<Total>) {
    forall i, j :: 0 <= i < j < |acc| ==> acc[i].key != acc[j].key
  }

  /** `acc[k] || 0`. */
  function Lookup(acc: seq<Total>, k: string): real {
    if acc == [] then 0.0
    else if acc[0].key == k then acc[0].amount
    else Lookup(acc[1..], k)
  }

  /** Sum of all the totals: `Object.values(acc).reduce((a, b) => a + b, 0)`. */
  function SumTotals(acc: seq<Total>): real {
    if acc == [] then 0.0 else acc[0].amount + SumTotals(acc[1..])
  }

  /** `acc[k] = (acc[k] || 0) + v`: an existing key is updated in place, a
      new key is appended at the end. */
  function AddTo(acc: seq<Total>, k: string, v: real): seq<Total> {
    if acc == [] then [Total(k, v)]
    else if acc[0].key == k then [Total(k, acc[0].amount + v)] + acc[1..]
    else [acc[0]] + AddTo(acc[1..], k, v)
  }

  /** Adding to a key keeps the keys and their order, appending a new key. */
  lemma {:induction false} AddToKeys(acc: seq<Total>, k: string, v: real)
    ensures Keys(AddTo(acc, k, v)) == if k in Keys(acc) then Keys(acc) else Keys(acc) + [k]
  {
    if acc != [] {
      assert Keys(acc) == [acc[0].key] + Keys(acc[1..]);
      if acc[0].key != k {
        AddToKeys(acc[1..], k, v);
        assert Keys(AddTo(acc, k, v)) == [acc[0].key] + Keys(AddTo(acc[1..], k, v));
      } else {
        assert Keys(AddTo(acc, k, v)) == [k] + Keys(acc[1..]);
      }
    }
  }

  lemma AddToDistinct(acc: seq<Total>, k: string, v: real)
    requires DistinctKeys(acc)
    ensures DistinctKeys(AddTo(acc, k, v))
  {
    AddToKeys(acc, k, v);
    var r := AddTo(acc, k, v);
    assert forall i :: 0 <= i < |r| ==> r[i].key == Keys(r)[i];
    assert forall i :: 0 <= i < |acc| ==> acc[i].key == Keys(acc)[i];
  }

  lemma {:induction false} AddToSum(acc: seq<Total>, k: string, v: real)
    ensures SumTotals(AddTo(acc, k, v)) == SumTotals(acc) + v
  {
    if acc != [] && acc[0].key != k { AddToSum(acc[1..], k, v); }
  }

  lemma {:induction false} LookupAddTo(acc: seq<Total>, k: string, v: real, j: string)
    ensures Lookup(AddTo(acc, k, v), j) == Lookup(acc, j) + (if j == k then v else 0.0)
  {
    if acc != [] && acc[0].key != k {
      LookupAddTo(acc[1..], k, v, j);
    }
  }

  lemma {:induction false} LookupAbsent(acc: seq<Total>, k: string)
    requires k !in Keys(acc)
    ensures Lookup(acc, k) == 0.0
  {
    if acc != [] {
      assert Keys(acc) == [acc[0].key] + Keys(acc[1..]);
      LookupAbsent(acc[1..], k);
    }
  }

  /** The entries with distinct keys: `Lookup` reads the entry holding a key. */
  lemma {:induction false} LookupAt(acc: seq<Total>, i: nat)
    requires DistinctKeys(acc) && i < |acc|
    ensures Lookup(acc, acc[i].key) == acc[i].amount
  {
    if i > 0 {
      assert acc[0].key != acc[i].key;
      LookupAt(acc[1..], i - 1);
    }
  }

  /** Grouping by `key`, adding up `val`, in the order `forEach` visits the
      elements: what `reduce((acc, x) => { acc[key(x)] = (acc[key(x)] || 0)
      + val(x); return acc }, {})` builds. */
  function GroupSum<T>(s: seq<T>, key: T -> string, val: T -> real): (r: seq<Total>)
    ensures DistinctKeys(r)
  {
    if s == [] then []
    else
      var acc := GroupSum(s[..|s| - 1], key, val);
      AddToDistinct(acc, key(s[|s| - 1]), val(s[|s| - 1]));
      AddTo(acc, key(s[|s| - 1]), val(s[|s| - 1]))
  }

  lemma GroupSumSnoc<T>(s: seq<T>, x: T, key: T -> string, val: T -> real)
    ensures GroupSum(s + [x], key, val) == AddTo(GroupSum(s, key, val), key(x), val(x))
  {
    assert (s + [x])[..|s|] == s;
  }

  /** The keys of the grouping are exactly the keys of the elements. */
  lemma {:induction false} GroupSumKeys<T>(s: seq<T>, key: T -> string, val: T -> real, k: string)
    ensures k in Keys(GroupSum(s, key, val)) <==> exists x :: x in s && key(x) == k
  {
    if s != [] {
      var init := s[..|s| - 1];
      var last := s[|s| - 1];
      assert s == init + [last];
      GroupSumKeys(init, key, val, k);
      AddToKeys(GroupSum(init, key, val), key(last), val(last));
      if exists x :: x in s && key(x) == k {
        var x :| x in s && key(x) == k;
        assert x in init || x == last;
      }
      if exists x :: x in init && key(x) == k {
        var x :| x in init && key(x) == k;
        assert x in s;
      }
    }
  }

  /** The elements whose key is `k`. */
  function KeyIs<T>(key: T -> string, k: string): T -> bool {
    x => key(x) == k
  }

  /** The total under `k` is the sum of `val` over the elements whose key is `k`. */
  lemma {:induction false} GroupSumLookup<T>(s: seq<T>, key: T -> string, val: T -> real, k: string)
    ensures Lookup(GroupSum(s, key, val), k) == Sum(s, Masked(KeyIs(key, k), val))
  {
    if s != [] {
      var init, last := s[..|s| - 1], s[|s| - 1];
      GroupSumLookup(init, key, val, k);
      LookupAddTo(GroupSum(init, key, val), key(last), val(last), k);
    }
  }

  /** Grouping loses nothing: the totals add up to the sum of `val` over `s`. */
  lemma {:induction false} GroupSumTotal<T>(s: seq<T>, key: T -> string, val: T -> real)
    ensures SumTotals(GroupSum(s, key, val)) == Sum(s, val)
  {
    if s != [] {
      GroupSumTotal(s[..|s| - 1], key, val);
      AddToSum(GroupSum(s[..|s| - 1], key, val), key(s[|s| - 1]), val(s[|s| - 1]));
    }
  }

  /** `[...new Set(s)]`: the first occurrence of every element, in order. */
  function Dedupe(s: seq<string>): (r: seq<string>)
    ensures forall x :: x in r <==> x in s
    ensures forall i, j :: 0 <= i < j < |r| ==> r[i] != r[j]
  {
    if s == [] then []
    else
      var init, last := s[..|s| - 1], s[|s| - 1];
      assert s == init + [last];
      var d := Dedupe(init);
      if last in d then d else d + [last]
  }

  /** Elements already distinct come first, in their order. */
  lemma {:induction false} DedupePrefix(a: seq<string>, b: seq<string>)
    requires forall i, j :: 0 <= i < j < |a| ==> a[i] != a[j]
    ensures |Dedupe(a + b)| >= |a| && Dedupe(a + b)[..|a|] == a
    decreases |b|
  {
    if b == [] {
      assert a + b == a;
      DedupeDistinct(a);
    } else {
      var b' := b[..|b| - 1];
      assert (a + b)[..|a + b| - 1] == a + b';
      DedupePrefix(a, b');
    }
  }

  lemma {:induction false} DedupeDistinct(a: seq<string>)
    requires forall i, j :: 0 <= i < j < |a| ==> a[i] != a[j]
    ensures Dedupe(a) == a
  {
    if a != [] {
      var init := a[..|a| - 1];
      DedupeDistinct(init);
      assert a[|a| - 1] !in init;
      assert init + [a[|a| - 1]] == a;
    }
  }

  // ---------------------------------------------------------------------------
  // Stable sort by a numeric key, largest first

  predicate SortedDesc<T>(s: seq<T>, key: T -> real) {
    forall i, j :: 0 <= i < j < |s| ==> key(s[i]) >= key(s[j])
  }

  /** Puts `x` into sorted `s` ahead of the first element whose key is not
      larger than its own. */
  function InsertDesc<T>(x: T, s: seq<T>, key: T -> real): (r: seq<T>)
    ensures multiset(r) == multiset(s) + multiset{x}
  {
    if s == [] || key(x) >= key(s[0]) then [x] + s
    else
      assert s == [s[0]] + s[1..];
      [s[0]] + InsertDesc(x, s[1..], key)
  }

  lemma {:induction false} InsertDescSorted<T>(x: T, s: seq<T>, key: T -> real)
    requires SortedDesc(s, key)
    ensures SortedDesc(InsertDesc(x, s, key), key)
  {
    if s != [] && key(x) < key(s[0]) {
      var rest := InsertDesc(x, s[1..], key);
      InsertDescSorted(x, s[1..], key);
      forall j | 0 <= j < |rest| ensures key(s[0]) >= key(rest[j]) {
        assert rest[j] in multiset(rest);
        assert rest[j] == x || rest[j] in multiset(s[1..]);
      }
    }
  }

  /** `s.sort((a, b) => key(b) - key(a))`: largest key first; elements with
      equal keys keep their order, as the stable sort of JavaScript keeps it. */
  function SortDesc<T>(s: seq<T>, key: T -> real): (r: seq<T>)
    ensures multiset(r) == multiset(s)
    ensures SortedDesc(r, key)
  {
    if s == [] then []
    else
      assert s == [s[0]] + s[1..];
      InsertDescSorted(s[0], SortDesc(s[1..], key), key);
      InsertDesc(s[0], SortDesc(s[1..], key), key)
  }

  /** `s.slice(0, n)`. */
  function Take<T>(s: seq<T>, n: nat): (r: seq<T>)
    ensures |r| == if |s| < n then |s| else n
    ensures forall i :: 0 <= i < |r| ==> r[i] == s[i]
  {
    if |s| <= n then s else s[..n]
  }

  /** `s.slice(-n)` for `n > 0`. */
  function TakeLast<T>(s: seq<T>, n: nat): (r: seq<T>)
    ensures |r| == if |s| < n then |s| else n
    ensures forall i :: 0 <= i < |r| ==> r[i] == s[|s| - |r| + i]
  {
    if |s| <= n then s else s[|s| - n..]
  }

  /** The first `n` of a sorted sequence: at most `n` elements, still sorted,
      and none of the elements left out has a larger key than one taken. */
  lemma TakeSortedDesc<T>(s: seq<T>, key: T -> real, n: nat)
    requires SortedDesc(s, key)
    ensures |Take(s, n)| <= n && SortedDesc(Take(s, n), key)
    ensures forall i, j :: 0 <= i < |Take(s, n)| <= j < |s| ==> key(s[i]) >= key(s[j])
  {
  }

  // ---------------------------------------------------------------------------
  // sort() on strings

  predicate SortedStrings(s: seq<string>) {
    forall i, j :: 0 <= i < j < |s| ==> StrLe(s[i], s[j])
  }

  function InsertAsc(x: string, s: seq<string>): (r: seq<string>)
    ensures multiset(r) == multiset(s) + multiset{x}
  {
    if s == [] || StrLe(x, s[0]) then [x] + s
    else
      assert s == [s[0]] + s[1..];
      [s[0]] + InsertAsc(x, s[1..])
  }

  lemma {:induction false} InsertAscSorted(x: string, s: seq<string>)
    requires SortedStrings(s)
    ensures SortedStrings(InsertAsc(x, s))
  {
    if s == [] {
    } else if StrLe(x, s[0]) {
      forall j | 0 < j < |s| ensures StrLe(x, s[j]) { StrLeTransitive(x, s[0], s[j]); }
    } else {
      StrLeTotal(x, s[0]);
      var rest := InsertAsc(x, s[1..]);
      InsertAscSorted(x, s[1..]);
      forall j | 0 <= j < |rest| ensures StrLe(s[0], rest[j]) {
        assert rest[j] in multiset(rest);
        assert rest[j] == x || rest[j] in multiset(s[1..]);
      }
    }
  }

  /** `s.sort()` with no comparator on strings. */
  function SortStrings(s: seq<string>): (r: seq<string>)
    ensures multiset(r) == multiset(s)
    ensures SortedStrings(r)
  {
    if s == [] then []
    else
      assert s == [s[0]] + s[1..];
      InsertAscSorted(s[0], SortStrings(s[1..]));
      InsertAsc(s[0], SortStrings(s[1..]))
  }

  /** The last `n` of sorted strings are sorted, and every string left out
      comes before all of them. */
  lemma TakeLastSorted(s: seq<string>, n: nat)
    requires SortedStrings(s)
    ensures SortedStrings(TakeLast(s, n))
    ensures forall k, i :: (k in s && k !in TakeLast(s, n) && 0 <= i < |TakeLast(s, n)|
      ==> StrLe(k, TakeLast(s, n)[i]))
  {
    var r := TakeLast(s, n);
    var d := |s| - |r|;
    assert forall m :: d <= m < |s| ==> r[m - d] == s[m];
    forall k, i | k in s && k !in r && 0 <= i < |r| ensures StrLe(k, r[i]) {
      var j :| 0 <= j < |s| && s[j] == k;
      assert j < d;
      assert r[i] == s[d + i];
    }
  }
}
