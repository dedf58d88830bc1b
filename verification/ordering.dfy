/**
 * `Array.prototype.sort((a, b) => b.count - a.count)` and `slice(0, n)`.
 * The sort is stable (ECMAScript 2019 and later), so it is modelled as an
 * insertion sort that places each element after every element already
 * placed whose count is at least its own.
 */
module Ordering {

  import opened Counting

  function Min(a: int, b: int): int
  {
    if a <= b then a else b
  }

  function Max(a: int, b: int): int
  {
    if a >= b then a else b
  }

  /** `s.slice(0, n)`. */
  function Take<T>(s: seq<T>, n: nat): (r: seq<T>)
    ensures |r| == Min(n, |s|) && r <= s
  {
    s[..Min(n, |s|)]
  }

  ghost predicate SortedDesc<K>(s: seq<Count<K>>)
  {
    forall i, j :: 0 <= i < j < |s| ==> s[i].1 >= s[j].1
  }

  /** The elements of `s` whose count is `c`, in order. */
  function WithCount<K>(s: seq<Count<K>>, c: nat): seq<Count<K>>
  {
    if s == [] then []
    else (if s[0].1 == c then [s[0]] else []) + WithCount(s[1..], c)
  }

  /** `x` placed before the first element of `s` with a smaller count. */
  function InsertDesc<K>(s: seq<Count<K>>, x: Count<K>): seq<Count<K>>
  {
    if s == [] then [x]
    else if s[0].1 >= x.1 then [s[0]] + InsertDesc(s[1..], x)
    else [x] + s
  }

  /** The stable sort by non-increasing count. */
  function SortDesc<K>(s: seq<Count<K>>): seq<Count<K>>
  {
    if s == [] then [] else InsertDesc(SortDesc(s[..|s| - 1]), s[|s| - 1])
  }

  lemma {:induction false} InsertDescCount<K>(s: seq<Count<K>>, x: Count<K>)
    ensures multiset(InsertDesc(s, x)) == multiset(s) + multiset{x}
    ensures |InsertDesc(s, x)| == |s| + 1
  {
    if s != [] {
      assert s == [s[0]] + s[1..];
      if s[0].1 >= x.1 {
        InsertDescCount(s[1..], x);
      }
    }
  }

  /** Every element of the insertion is `x` or an element of `s`. */
  lemma InsertDescMembers<K>(s: seq<Count<K>>, x: Count<K>)
    ensures forall k :: 0 <= k < |InsertDesc(s, x)| ==>
      InsertDesc(s, x)[k] == x || exists m :: 0 <= m < |s| && s[m] == InsertDesc(s, x)[k]
  {
    InsertDescCount(s, x);
    var r := InsertDesc(s, x);
    forall k | 0 <= k < |r| ensures r[k] == x || exists m :: 0 <= m < |s| && s[m] == r[k] {
      assert r[k] in multiset(r);
      if r[k] != x {
        assert r[k] in multiset(s);
      }
    }
  }

  lemma SortedTail<K>(s: seq<Count<K>>)
    requires SortedDesc(s) && s != []
    ensures SortedDesc(s[1..])
  {
    var t := s[1..];
    forall i, j | 0 <= i < j < |t| ensures t[i].1 >= t[j].1 {
      assert t[i] == s[i + 1] && t[j] == s[j + 1];
    }
  }

  /** An element at least as large as every element of a sorted `r` may go in front. */
  lemma SortedCons<K>(h: Count<K>, r: seq<Count<K>>)
    requires SortedDesc(r) && forall k :: 0 <= k < |r| ==> h.1 >= r[k].1
    ensures SortedDesc([h] + r)
  {
    var w := [h] + r;
    forall i, j | 0 <= i < j < |w| ensures w[i].1 >= w[j].1 {
      assert w[j] == r[j - 1];
      if i > 0 {
        assert w[i] == r[i - 1];
      }
    }
  }

  lemma {:induction false} InsertDescFacts<K>(s: seq<Count<K>>, x: Count<K>)
    requires SortedDesc(s)
    ensures SortedDesc(InsertDesc(s, x))
    ensures multiset(InsertDesc(s, x)) == multiset(s) + multiset{x}
    ensures |InsertDesc(s, x)| == |s| + 1
  {
    InsertDescCount(s, x);
    if s != [] && s[0].1 >= x.1 {
      var t := s[1..];
      SortedTail(s);
      InsertDescFacts(t, x);
      var r := InsertDesc(t, x);
      InsertDescMembers(t, x);
      forall k | 0 <= k < |r| ensures s[0].1 >= r[k].1 {
        if r[k] != x {
          var m :| 0 <= m < |t| && t[m] == r[k];
          assert t[m] == s[m + 1];
        }
      }
      SortedCons(s[0], r);
    } else if s != [] {
      forall k | 0 <= k < |s| ensures x.1 >= s[k].1 {
        assert k == 0 || s[0].1 >= s[k].1;
      }
      SortedCons(x, s);
    }
  }

  lemma {:induction false} WithCountAppend<K>(a: seq<Count<K>>, b: seq<Count<K>>, c: nat)
    ensures WithCount(a + b, c) == WithCount(a, c) + WithCount(b, c)
  {
    if a == [] {
      assert a + b == b;
    } else {
      assert (a + b)[0] == a[0] && (a + b)[1..] == a[1..] + b;
      WithCountAppend(a[1..], b, c);
      var h := if a[0].1 == c then [a[0]] else [];
      assert WithCount(a + b, c) == h + (WithCount(a[1..], c) + WithCount(b, c));
      assert WithCount(a, c) == h + WithCount(a[1..], c);
    }
  }

  lemma {:induction false} WithCountBelow<K>(s: seq<Count<K>>, c: nat)
    requires SortedDesc(s) && (s == [] || s[0].1 < c)
    ensures WithCount(s, c) == []
  {
    if s != [] {
      if |s| > 1 { assert s[1..][0] == s[1]; }
      WithCountBelow(s[1..], c);
    }
  }

  lemma WithCountCons<K>(h: Count<K>, r: seq<Count<K>>, c: nat)
    ensures WithCount([h] + r, c) == (if h.1 == c then [h] else []) + WithCount(r, c)
  {
    assert ([h] + r)[0] == h && ([h] + r)[1..] == r;
  }

  lemma {:induction false} InsertDescStable<K>(s: seq<Count<K>>, x: Count<K>, c: nat)
    requires SortedDesc(s)
    ensures WithCount(InsertDesc(s, x), c) == WithCount(s, c) + (if x.1 == c then [x] else [])
  {
    if s == [] {
    } else if s[0].1 >= x.1 {
      SortedTail(s);
      InsertDescStable(s[1..], x, c);
      WithCountCons(s[0], InsertDesc(s[1..], x), c);
    } else {
      if x.1 == c { WithCountBelow(s, c); }
      assert ([x] + s)[1..] == s;
    }
  }

  /**
   * The sort orders by non-increasing count, keeps exactly the input's
   * elements, and leaves elements of equal count in their input order.
   */
  lemma {:induction false} SortDescFacts<K>(s: seq<Count<K>>)
    ensures SortedDesc(SortDesc(s))
    ensures multiset(SortDesc(s)) == multiset(s)
    ensures |SortDesc(s)| == |s|
    ensures forall c: nat :: WithCount(SortDesc(s), c) == WithCount(s, c)
  {
    if s != [] {
      var p := s[..|s| - 1];
      var x := s[|s| - 1];
      SortDescFacts(p);
      InsertDescFacts(SortDesc(p), x);
      assert s == p + [x];
      forall c: nat ensures WithCount(SortDesc(s), c) == WithCount(s, c) {
        InsertDescStable(SortDesc(p), x, c);
        WithCountAppend(p, [x], c);
      }
    }
  }

  /** Every element of the sorted sequence comes from the input, and conversely. */
  lemma SortDescMembers<K>(s: seq<Count<K>>)
    ensures forall e :: e in SortDesc(s) <==> e in s
  {
    SortDescFacts(s);
    forall e ensures e in SortDesc(s) <==> e in s {
      assert e in SortDesc(s) <==> e in multiset(SortDesc(s));
      assert e in s <==> e in multiset(s);
    }
  }

  /** A key missing from `r`, whose keys are distinct, may go in front. */
  lemma DistinctCons<K>(h: Count<K>, r: seq<Count<K>>)
    requires NoDuplicates(Keys(r)) && forall k :: 0 <= k < |r| ==> r[k].0 != h.0
    ensures NoDuplicates(Keys([h] + r))
  {
    var w := [h] + r;
    forall i, j | 0 <= i < j < |w| ensures Keys(w)[i] != Keys(w)[j] {
      assert w[j] == r[j - 1];
      if i > 0 {
        assert w[i] == r[i - 1];
        assert Keys(r)[i - 1] != Keys(r)[j - 1];
      }
    }
  }

  /** Inserting an element with a new key keeps the keys distinct. */
  lemma {:induction false} InsertDescKeys<K>(s: seq<Count<K>>, x: Count<K>)
    requires NoDuplicates(Keys(s)) && x.0 !in Keys(s)
    ensures NoDuplicates(Keys(InsertDesc(s, x)))
  {
    if s != [] && s[0].1 >= x.1 {
      var t := s[1..];
      assert Keys(t) == Keys(s)[1..];
      InsertDescKeys(t, x);
      var r := InsertDesc(t, x);
      InsertDescMembers(t, x);
      forall k | 0 <= k < |r| ensures r[k].0 != s[0].0 {
        assert Keys(s)[0] == s[0].0;
        if r[k] != x {
          var m :| 0 <= m < |t| && t[m] == r[k];
          assert Keys(s)[m + 1] == r[k].0;
        }
      }
      DistinctCons(s[0], r);
    } else if s != [] {
      forall k | 0 <= k < |s| ensures s[k].0 != x.0 {
        assert Keys(s)[k] == s[k].0;
      }
      DistinctCons(x, s);
    }
  }

  /** Sorting a record's entries keeps its keys distinct. */
  lemma {:induction false} SortDescKeys<K>(s: seq<Count<K>>)
    requires NoDuplicates(Keys(s))
    ensures NoDuplicates(Keys(SortDesc(s)))
  {
    if s != [] {
      var p := s[..|s| - 1];
      var x := s[|s| - 1];
      assert Keys(p) == Keys(s)[..|s| - 1];
      SortDescKeys(p);
      SortDescFacts(p);
      forall k | 0 <= k < |SortDesc(p)| ensures SortDesc(p)[k].0 != x.0 {
        assert SortDesc(p)[k] in multiset(p);
        var m :| 0 <= m < |p| && p[m] == SortDesc(p)[k];
        assert Keys(s)[m] == p[m].0 && Keys(s)[|s| - 1] == x.0;
      }
      InsertDescKeys(SortDesc(p), x);
    }
  }

  /**
   * `sort(...).slice(0, n)` keeps the n largest: every element left out has
   * a count no larger than any element kept.
   */
  lemma TakeSortDescTop<K>(s: seq<Count<K>>, n: nat, x: Count<K>)
    requires x in s && x !in Take(SortDesc(s), n)
    ensures forall y :: y in Take(SortDesc(s), n) ==> y.1 >= x.1
  {
    SortDescFacts(s);
    var t := SortDesc(s);
    assert x in multiset(t);
    var j :| 0 <= j < |t| && t[j] == x;
    forall y | y in Take(t, n) ensures y.1 >= x.1 {
      var i :| 0 <= i < |Take(t, n)| && Take(t, n)[i] == y;
      assert t[i] == y;
    }
  }

  /** The `n` most frequent keys of `ks` with their counts, ties in first-seen order. */
  function TopCounts<K(==)>(ks: seq<K>, n: nat): seq<Count<K>>
  {
    Take(SortDesc(TallyOf(ks)), n)
  }

  lemma TopCountsFacts<K>(ks: seq<K>, n: nat)
    ensures |TopCounts(ks, n)| == Min(n, |Distinct(ks)|)
    ensures SortedDesc(TopCounts(ks, n))
    ensures NoDuplicates(Keys(TopCounts(ks, n)))
    ensures forall i :: 0 <= i < |TopCounts(ks, n)| ==>
      TopCounts(ks, n)[i].0 in ks && TopCounts(ks, n)[i].1 == multiset(ks)[TopCounts(ks, n)[i].0]
    ensures forall k :: k in ks && k !in Keys(TopCounts(ks, n)) ==>
      forall i :: 0 <= i < |TopCounts(ks, n)| ==> TopCounts(ks, n)[i].1 >= multiset(ks)[k]
  {
    var t := TallyOf(ks);
    TallyFacts(ks);
    SortDescFacts(t);
    SortDescKeys(t);
    SortDescMembers(t);
    var s := SortDesc(t);
    var r := Take(s, n);
    assert Keys(r) == Keys(s)[..|r|];
    forall i | 0 <= i < |r| ensures r[i].0 in ks && r[i].1 == multiset(ks)[r[i].0] {
      assert r[i] == s[i];
      assert s[i] in t;
      var m :| 0 <= m < |t| && t[m] == s[i];
      assert Keys(t)[m] == t[m].0;
    }
    forall k | k in ks && k !in Keys(r) ensures forall i :: 0 <= i < |r| ==> r[i].1 >= multiset(ks)[k] {
      assert k in Keys(t);
      var m :| 0 <= m < |t| && Keys(t)[m] == k;
      var x := t[m];
      forall i | 0 <= i < |r| ensures r[i].0 == Keys(r)[i] {}
      assert x !in r;
      TakeSortDescTop(t, n, x);
      forall i | 0 <= i < |r| ensures r[i].1 >= x.1 {
        assert r[i] in r;
      }
    }
  }

  /** A key left out of the top `n` occurs no more often than any key kept. */
  lemma TopLeftOut<K>(ks: seq<K>, n: nat, w: K, t: K)
    requires w in ks && w !in Keys(TopCounts(ks, n)) && t in Keys(TopCounts(ks, n))
    ensures multiset(ks)[w] <= multiset(ks)[t]
  {
    TopCountsFacts(ks, n);
    var top := TopCounts(ks, n);
    var i :| 0 <= i < |top| && Keys(top)[i] == t;
    assert top[i].1 >= multiset(ks)[w];
  }

  lemma {:induction false} WithCountFirst<K>(s: seq<Count<K>>, c: nat, k: nat)
    requires k < |s| && s[k].1 == c && forall j :: 0 <= j < k ==> s[j].1 != c
    ensures WithCount(s, c) != [] && WithCount(s, c)[0] == s[k]
  {
    if k > 0 {
      WithCountFirst(s[1..], c, k - 1);
    }
  }

  /** The head of the stable sort is the first element with the largest count. */
  lemma SortDescHead<K>(s: seq<Count<K>>, k: nat)
    requires k < |s|
    requires forall j :: 0 <= j < |s| ==> s[j].1 <= s[k].1
    requires forall j :: 0 <= j < k ==> s[j].1 < s[k].1
    ensures SortDesc(s) != [] && SortDesc(s)[0] == s[k]
  {
    SortDescFacts(s);
    var d := SortDesc(s);
    var top := s[k].1;
    assert s[k] in multiset(d);
    var i :| 0 <= i < |d| && d[i] == s[k];
    assert d[0] in multiset(s);
    assert d[0].1 == top;
    WithCountFirst(s, top, k);
    WithCountFirst(d, top, 0);
  }
}
