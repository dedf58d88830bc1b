/**
 * Counting into a JavaScript record or `Map`: keys are enumerated in the order
 * they were first inserted, and `acc[k] = (acc[k] || 0) + 1` bumps a count.
 * `TallyOf` is the specification of such a count; `CountKeys` and
 * `GroupCount` are the loops the analytics code runs.
 */
module Counting {

  /** The keys of `ks` in first-seen order, each once. */
  function Distinct<K(==)>(ks: seq<K>): seq<K>
    decreases |ks|
  {
    if ks == [] then []
    else
      var p := Distinct(ks[..|ks| - 1]);
      if ks[|ks| - 1] in p then p else p + [ks[|ks| - 1]]
  }

  ghost predicate NoDuplicates<K>(s: seq<K>)
  {
    forall i, j :: 0 <= i < j < |s| ==> s[i] != s[j]
  }

  lemma DistinctSnoc<K>(ks: seq<K>, k: K)
    ensures Distinct(ks + [k]) == if k in Distinct(ks) then Distinct(ks) else Distinct(ks) + [k]
  {
    assert (ks + [k])[..|ks|] == ks;
  }

  /** Same elements as the input, each exactly once. */
  lemma {:induction false} DistinctElements<K>(ks: seq<K>)
    ensures forall k :: k in Distinct(ks) <==> k in ks
    ensures NoDuplicates(Distinct(ks))
    decreases |ks|
  {
    if ks != [] {
      var p := ks[..|ks| - 1];
      DistinctElements(p);
      assert ks == p + [ks[|ks| - 1]];
    }
  }

  /** First-seen order: the keys of any prefix come first, in the same order. */
  lemma {:induction false} DistinctPrefix<K>(ks: seq<K>, n: nat)
    requires n <= |ks|
    ensures Distinct(ks[..n]) <= Distinct(ks)
    decreases |ks| - n
  {
    if n < |ks| {
      DistinctPrefix(ks, n + 1);
      assert ks[..n + 1][..n] == ks[..n];
    } else {
      assert ks[..n] == ks;
    }
  }

  /** A count as `Object.entries` reports it: key and number of occurrences. */
  type Count<K> = (K, nat)

  /** The counts of `ks`, keys in first-seen order. */
  function TallyOf<K(==)>(ks: seq<K>): (t: seq<Count<K>>)
    ensures |t| == |Distinct(ks)|
    ensures forall i :: 0 <= i < |t| ==> t[i].0 == Distinct(ks)[i] && t[i].1 == multiset(ks)[t[i].0]
  {
    var d := Distinct(ks);
    seq(|d|, i requires 0 <= i < |d| => (d[i], multiset(ks)[d[i]]))
  }

  function Keys<K(==), V>(t: seq<(K, V)>): (r: seq<K>)
    ensures |r| == |t| && forall i :: 0 <= i < |t| ==> r[i] == t[i].0
  {
    seq(|t|, i requires 0 <= i < |t| => t[i].0)
  }

  function SumCounts<K(==)>(t: seq<Count<K>>): nat
  {
    if t == [] then 0 else SumCounts(t[..|t| - 1]) + t[|t| - 1].1
  }

  /** Sum over the keys `d` of the occurrences of each in `ks`. */
  function SumOccurrences<K(==)>(d: seq<K>, ks: seq<K>): nat
  {
    if d == [] then 0 else SumOccurrences(d[..|d| - 1], ks) + multiset(ks)[d[|d| - 1]]
  }

  lemma {:induction false} SumOccurrencesSnoc<K>(d: seq<K>, ks: seq<K>, k: K)
    requires NoDuplicates(d)
    ensures SumOccurrences(d, ks + [k]) == SumOccurrences(d, ks) + (if k in d then 1 else 0)
    decreases |d|
  {
    if d != [] {
      var p := d[..|d| - 1];
      SumOccurrencesSnoc(p, ks, k);
      assert d == p + [d[|d| - 1]];
    }
  }

  lemma {:induction false} SumOccurrencesOfDistinct<K>(ks: seq<K>)
    ensures SumOccurrences(Distinct(ks), ks) == |ks|
    decreases |ks|
  {
    if ks != [] {
      var p := ks[..|ks| - 1];
      var k := ks[|ks| - 1];
      assert ks == p + [k];
      SumOccurrencesOfDistinct(p);
      DistinctElements(p);
      DistinctElements(ks);
      SumOccurrencesSnoc(Distinct(p), p, k);
      if k !in Distinct(p) {
        assert multiset(p)[k] == 0;
        assert Distinct(ks)[..|Distinct(ks)| - 1] == Distinct(p);
      }
    }
  }

  lemma {:induction false} SumCountsTally<K>(ks: seq<K>, n: nat)
    requires n <= |Distinct(ks)|
    ensures SumCounts(TallyOf(ks)[..n]) == SumOccurrences(Distinct(ks)[..n], ks)
  {
    if n > 0 {
      SumCountsTally(ks, n - 1);
      assert TallyOf(ks)[..n][..n - 1] == TallyOf(ks)[..n - 1];
      assert Distinct(ks)[..n][..n - 1] == Distinct(ks)[..n - 1];
    }
  }

  lemma SumCountsOfTally<K>(ks: seq<K>)
    ensures SumCounts(TallyOf(ks)) == |ks|
  {
    var t := TallyOf(ks);
    SumCountsTally(ks, |t|);
    assert t[..|t|] == t;
    assert Distinct(ks)[..|t|] == Distinct(ks);
    SumOccurrencesOfDistinct(ks);
  }

  /** Each key's count is positive, the keys are those of the input, and the counts add up to its length. */
  lemma TallyFacts<K>(ks: seq<K>)
    ensures Keys(TallyOf(ks)) == Distinct(ks)
    ensures NoDuplicates(Keys(TallyOf(ks)))
    ensures forall k :: k in Keys(TallyOf(ks)) <==> k in ks
    ensures forall i :: 0 <= i < |TallyOf(ks)| ==> TallyOf(ks)[i].1 >= 1
    ensures SumCounts(TallyOf(ks)) == |ks|
  {
    DistinctElements(ks);
    SumCountsOfTally(ks);
  }

  /* ---------- the record being filled ---------- */

  /** A record of counts: its keys in insertion order and the count of each. */
  datatype Counter<K(==)> = Counter(order: seq<K>, counts: map<K, nat>)

  /** `c` holds exactly the counts of `ks`. */
  ghost predicate Counts<K>(c: Counter<K>, ks: seq<K>)
  {
    && c.order == Distinct(ks)
    && (forall k :: k in c.counts ==> k in ks)
    && (forall i :: 0 <= i < |ks| ==> ks[i] in c.counts)
    && (forall k :: k in c.counts ==> c.counts[k] == multiset(ks)[k])
  }

  /** `if (!acc[k]) acc[k] = 0; acc[k]++`. */
  function Bump<K(==)>(c: Counter<K>, k: K): Counter<K>
  {
    var n := if k in c.counts then c.counts[k] else 0;
    Counter(if k in c.counts then c.order else c.order + [k], c.counts[k := n + 1])
  }

  /** `Object.entries(acc)`. */
  function Entries<K(==)>(c: Counter<K>): seq<Count<K>>
    requires forall k :: k in c.order ==> k in c.counts
  {
    seq(|c.order|, i requires 0 <= i < |c.order| => (c.order[i], c.counts[c.order[i]]))
  }

  lemma CountsHas<K>(c: Counter<K>, ks: seq<K>, k: K)
    requires Counts(c, ks)
    ensures k in c.counts <==> k in ks
  {
    if k in ks {
      var i :| 0 <= i < |ks| && ks[i] == k;
    }
  }

  lemma BumpCounts<K>(c: Counter<K>, ks: seq<K>, k: K)
    requires Counts(c, ks)
    ensures Counts(Bump(c, k), ks + [k])
  {
    var ks' := ks + [k];
    var b := Bump(c, k);
    CountsHas(c, ks, k);
    DistinctElements(ks);
    DistinctSnoc(ks, k);
    assert ks'[|ks|] == k;
    assert multiset(ks') == multiset(ks) + multiset{k};
    forall k2 | k2 in b.counts ensures k2 in ks' && b.counts[k2] == multiset(ks')[k2] {
      if k2 != k {
        assert k2 in c.counts;
      } else if k !in c.counts {
        assert multiset(ks)[k] == 0;
      }
    }
    forall i | 0 <= i < |ks'| ensures ks'[i] in b.counts {
      if i < |ks| { assert ks'[i] == ks[i]; }
    }
  }

  lemma EntriesCounts<K>(c: Counter<K>, ks: seq<K>)
    requires Counts(c, ks)
    ensures forall k :: k in c.order ==> k in c.counts
    ensures Entries(c) == TallyOf(ks)
  {
    DistinctElements(ks);
  }

  /** The counting loop: one bump per key, then the entries of the record. */
  method CountKeys<K(==)>(ks: seq<K>) returns (t: seq<Count<K>>)
    ensures t == TallyOf(ks)
  {
    var c: Counter<K> := Counter([], map[]);
    for i := 0 to |ks|
      invariant Counts(c, ks[..i])
    {
      BumpNext(c, ks, i);
      c := Bump(c, ks[i]);
    }
    assert ks[..|ks|] == ks;
    EntriesCounts(c, ks);
    t := Entries(c);
  }

  lemma BumpNext<K>(c: Counter<K>, ks: seq<K>, i: nat)
    requires i < |ks| && Counts(c, ks[..i])
    ensures Counts(Bump(c, ks[i]), ks[..i + 1])
  {
    PrefixNext(ks, i);
    BumpCounts(c, ks[..i], ks[i]);
  }

  lemma PrefixNext<K>(ks: seq<K>, i: nat)
    requires i < |ks|
    ensures ks[..i + 1] == ks[..i] + [ks[i]]
  {
  }

  /* ---------- nested records: acc[a][b]++ ---------- */

  /** The second components of the pairs whose first component is `a`, in order. */
  function SecondsWith<A(==), B(==)>(ps: seq<(A, B)>, a: A): seq<B>
  {
    if ps == [] then []
    else SecondsWith(ps[..|ps| - 1], a) + (if ps[|ps| - 1].0 == a then [ps[|ps| - 1].1] else [])
  }

  /** For each first component in first-seen order, the counts of its second components. */
  function GroupTally<A(==), B(==)>(ps: seq<(A, B)>): (g: seq<(A, seq<Count<B>>)>)
    ensures |g| == |Distinct(Keys(ps))|
    ensures forall i :: 0 <= i < |g| ==> g[i].0 == Distinct(Keys(ps))[i] && g[i].1 == TallyOf(SecondsWith(ps, g[i].0))
  {
    var d := Distinct(Keys(ps));
    seq(|d|, i requires 0 <= i < |d| => (d[i], TallyOf(SecondsWith(ps, d[i]))))
  }

  function SumGroups<A(==), B(==)>(g: seq<(A, seq<Count<B>>)>): nat
  {
    if g == [] then 0 else SumGroups(g[..|g| - 1]) + SumCounts(g[|g| - 1].1)
  }

  lemma {:induction false} SecondsWithSize<A, B>(ps: seq<(A, B)>, a: A)
    ensures |SecondsWith(ps, a)| == multiset(Keys(ps))[a]
    decreases |ps|
  {
    if ps != [] {
      var p := ps[..|ps| - 1];
      SecondsWithSize(p, a);
      assert Keys(ps) == Keys(p) + [ps[|ps| - 1].0];
    }
  }

  lemma SumGroupsStep<A, B>(g: seq<(A, seq<Count<B>>)>, n: nat)
    requires 0 < n <= |g|
    ensures SumGroups(g[..n]) == SumGroups(g[..n - 1]) + SumCounts(g[n - 1].1)
  {
    assert g[..n][..n - 1] == g[..n - 1];
  }

  lemma SumOccurrencesStep<K>(d: seq<K>, ks: seq<K>, n: nat)
    requires 0 < n <= |d|
    ensures SumOccurrences(d[..n], ks) == SumOccurrences(d[..n - 1], ks) + multiset(ks)[d[n - 1]]
  {
    assert d[..n][..n - 1] == d[..n - 1];
  }

  lemma GroupSize<A, B>(ps: seq<(A, B)>, a: A)
    ensures SumCounts(TallyOf(SecondsWith(ps, a))) == multiset(Keys(ps))[a]
  {
    SumCountsOfTally(SecondsWith(ps, a));
    SecondsWithSize(ps, a);
  }

  lemma {:induction false} SumGroupsPrefix<A, B>(ps: seq<(A, B)>, n: nat)
    requires n <= |GroupTally(ps)|
    ensures SumGroups(GroupTally(ps)[..n]) == SumOccurrences(Distinct(Keys(ps))[..n], Keys(ps))
  {
    if n > 0 {
      var g := GroupTally(ps);
      var d := Distinct(Keys(ps));
      SumGroupsPrefix(ps, n - 1);
      SumGroupsStep(g, n);
      SumOccurrencesStep(d, Keys(ps), n);
      GroupSize(ps, d[n - 1]);
    }
  }

  /** The inner counts of all groups add up to the number of pairs. */
  lemma GroupTallySum<A, B>(ps: seq<(A, B)>)
    ensures SumGroups(GroupTally(ps)) == |ps|
    ensures NoDuplicates(Distinct(Keys(ps)))
  {
    var g := GroupTally(ps);
    SumGroupsPrefix(ps, |g|);
    assert g[..|g|] == g;
    assert Distinct(Keys(ps))[..|g|] == Distinct(Keys(ps));
    SumOccurrencesOfDistinct(Keys(ps));
    DistinctElements(Keys(ps));
  }

  lemma EmptyCounts<K>(ks: seq<K>)
    requires ks == []
    ensures Counts(Counter([], map[]), ks)
  {
  }

  /** The nested record after every pair of `ps` has been bumped into it, with its outer key order. */
  ghost function GroupFold<A, B>(ps: seq<(A, B)>): (seq<A>, map<A, Counter<B>>)
  {
    if ps == [] then ([], map[]) else GroupStep(GroupFold(ps[..|ps| - 1]), ps[|ps| - 1])
  }

  /** `acc[a] = acc[a] || {}` followed by the bump of `acc[a][b]`, for the pair `p = (a, b)`. */
  ghost function GroupStep<A, B>(acc: (seq<A>, map<A, Counter<B>>), p: (A, B)): (seq<A>, map<A, Counter<B>>)
  {
    var (order, groups) := acc;
    var c := if p.0 in groups then groups[p.0] else Counter([], map[]);
    (if p.0 in groups then order else order + [p.0], groups[p.0 := Bump(c, p.1)])
  }

  lemma GroupFoldNext<A, B>(ps: seq<(A, B)>, i: nat)
    requires i < |ps|
    ensures GroupFold(ps[..i + 1]) == GroupStep(GroupFold(ps[..i]), ps[i])
  {
    assert ps[..i + 1][..i] == ps[..i];
  }

  lemma KeysSnoc<A, B>(ps: seq<(A, B)>)
    requires ps != []
    ensures Keys(ps) == Keys(ps[..|ps| - 1]) + [ps[|ps| - 1].0]
  {
  }

  lemma {:induction false} GroupFoldKeys<A, B>(ps: seq<(A, B)>)
    ensures forall a :: a in GroupFold(ps).1 ==> a in Keys(ps)
    ensures forall i :: 0 <= i < |ps| ==> ps[i].0 in GroupFold(ps).1
    ensures GroupFold(ps).0 == Distinct(Keys(ps))
    decreases |ps|
  {
    if ps != [] {
      var q := ps[..|ps| - 1];
      var p := ps[|ps| - 1];
      GroupFoldKeys(q);
      KeysSnoc(ps);
      var groups := GroupFold(q).1;
      assert p.0 in groups <==> p.0 in Keys(q) by {
        if p.0 in Keys(q) {
          var i :| 0 <= i < |q| && Keys(q)[i] == p.0;
        }
      }
      DistinctElements(Keys(q));
      DistinctSnoc(Keys(q), p.0);
      forall a | a in GroupFold(ps).1 ensures a in Keys(ps) {
        if a != p.0 {
          assert a in Keys(q);
        }
      }
      forall i | 0 <= i < |ps| ensures ps[i].0 in GroupFold(ps).1 {
        if i < |q| {
          assert ps[i] == q[i];
        }
      }
    }
  }

  lemma {:induction false} GroupFoldAt<A, B>(ps: seq<(A, B)>, a: A)
    requires a in GroupFold(ps).1
    ensures Counts(GroupFold(ps).1[a], SecondsWith(ps, a))
    decreases |ps|
  {
    var q := ps[..|ps| - 1];
    var p := ps[|ps| - 1];
    var groups := GroupFold(q).1;
    var c := if p.0 in groups then groups[p.0] else Counter([], map[]);
    assert GroupFold(ps).1 == groups[p.0 := Bump(c, p.1)];
    if p.0 == a {
      assert Counts(c, SecondsWith(q, a)) by {
        if a in groups {
          GroupFoldAt(q, a);
        } else {
          GroupFoldKeys(q);
          SecondsWithSize(q, a);
          assert multiset(Keys(q))[a] == 0;
          EmptyCounts(SecondsWith(q, a));
        }
      }
      BumpCounts(c, SecondsWith(q, a), p.1);
      assert SecondsWith(ps, a) == SecondsWith(q, a) + [p.1];
    } else {
      assert a in groups;
      GroupFoldAt(q, a);
      assert GroupFold(ps).1[a] == groups[a];
      assert SecondsWith(ps, a) == SecondsWith(q, a);
    }
  }

  /** Every outer key of the nested record holds the counts of its pairs. */
  lemma GroupFoldEntries<A, B>(ps: seq<(A, B)>, a: A)
    requires a in GroupFold(ps).0
    ensures a in GroupFold(ps).1
    ensures forall k :: k in GroupFold(ps).1[a].order ==> k in GroupFold(ps).1[a].counts
    ensures Entries(GroupFold(ps).1[a]) == TallyOf(SecondsWith(ps, a))
  {
    GroupFoldKeys(ps);
    DistinctElements(Keys(ps));
    var i :| 0 <= i < |ps| && Keys(ps)[i] == a;
    assert ps[i].0 == a;
    GroupFoldAt(ps, a);
    EntriesCounts(GroupFold(ps).1[a], SecondsWith(ps, a));
  }

  /** The nested counting loop: one pass, bumping `acc[a][b]` for every pair. */
  method GroupCount<A(==), B(==)>(ps: seq<(A, B)>) returns (g: seq<(A, seq<Count<B>>)>)
    ensures g == GroupTally(ps)
  {
    var order: seq<A> := [];
    var groups: map<A, Counter<B>> := map[];
    for i := 0 to |ps|
      invariant (order, groups) == GroupFold(ps[..i])
    {
      var p := ps[i];
      GroupFoldNext(ps, i);
      var c := if p.0 in groups then groups[p.0] else Counter([], map[]);
      if p.0 !in groups {
        order := order + [p.0];
      }
      groups := groups[p.0 := Bump(c, p.1)];
    }
    assert ps[..|ps|] == ps;
    GroupFoldKeys(ps);
    forall a | a in order ensures a in groups && forall k :: k in groups[a].order ==> k in groups[a].counts {
      GroupFoldEntries(ps, a);
    }
    g := seq(|order|, i requires 0 <= i < |order| => (order[i], Entries(groups[order[i]])));
    forall i | 0 <= i < |g| ensures g[i] == GroupTally(ps)[i] {
      GroupFoldEntries(ps, order[i]);
    }
  }
}
