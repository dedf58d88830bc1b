/**
 * The calendar heatmap: each day cell looks up its entry count in the
 * consistency series (0 when absent) and is shaded in one of five classes,
 * from the grey of an empty day to the darkest blue of the busiest day.
 */
module Heatmap {

  import opened Wrappers
  import opened Counting
  import opened Ordering
  import opened Journal
  import opened Ratio

  const Empty := "bg-slate-100"

  /** The four shades of blue for intensities 1 to 4. */
  const Blues: seq<string> := ["bg-blue-100", "bg-blue-200", "bg-blue-300", "bg-blue-400"]

  /**
   * `new Map(data.map(item => [item.date, item.count])).get(date) || 0`: a
   * later item with the same date replaces an earlier one.
   */
  function Lookup(data: seq<Count<string>>, date: string): (c: nat)
    ensures date !in Keys(data) ==> c == 0
  {
    if data == [] then 0
    else if data[|data| - 1].0 == date then data[|data| - 1].1
    else Lookup(data[..|data| - 1], date)
  }

  /**
   * `Math.max(...data.map(item => item.count))`; `None` stands for the
   * `-Infinity` of an empty list.
   */
  function MaxCount(data: seq<Count<string>>): (m: Option<nat>)
    ensures m.None? <==> data == []
    ensures m.Some? ==> forall i :: 0 <= i < |data| ==> data[i].1 <= m.value
    ensures m.Some? ==> exists i :: 0 <= i < |data| && data[i].1 == m.value
  {
    if data == [] then None
    else
      var p := data[..|data| - 1];
      var last := data[|data| - 1].1;
      match MaxCount(p)
      case None => Some(last)
      case Some(m) =>
        assert forall i :: 0 <= i < |p| ==> data[i] == p[i];
        Some(if m >= last then m else last)
  }

  /** `Math.ceil(a / d)` for positive `d`. */
  function CeilDiv(a: nat, d: nat): nat
    requires d > 0
  {
    (a + d - 1) / d
  }

  /**
   * `Math.min(Math.ceil((count / maxCount) * 4), 4)` for a positive count;
   * a zero maximum divides to `Infinity` and so gives 4.
   */
  function Intensity(count: nat, maxCount: nat): nat
  {
    if maxCount == 0 then 4 else Min(CeilDiv(4 * count, maxCount), 4)
  }

  /** The `switch` on the intensity, with its `default`. */
  function Shade(intensity: nat): string
  {
    if 1 <= intensity <= 4 then Blues[intensity - 1] else Empty
  }

  /**
   * `getColorIntensity(count)`; against the `-Infinity` maximum of no data
   * the ratio is `-0`, which no case matches.
   */
  function ColorIntensity(count: nat, maxCount: Option<nat>): string
  {
    if count == 0 then Empty
    else match maxCount
      case None => Empty
      case Some(m) => Shade(Intensity(count, m))
  }

  /** The class of the cell for `date`. */
  function CellClass(data: seq<Count<string>>, date: string): string
  {
    ColorIntensity(Lookup(data, date), MaxCount(data))
  }

  lemma CeilDivBounds(a: nat, d: nat)
    requires d > 0
    ensures d * (CeilDiv(a, d) as int - 1) < a <= d * CeilDiv(a, d)
  {
    var q: int := CeilDiv(a, d);
    var r := (a + d - 1) % d;
    assert a + d - 1 == d * q + r && 0 <= r < d;
    assert d * (q - 1) == d * q - d;
  }

  /**
   * Against a positive maximum, a positive count gets the shade `k` in 1..4
   * for which `count / maxCount` lies in `((k - 1) / 4, k / 4]`, the last
   * shade taking everything above three quarters.
   */
  lemma IntensityExact(count: nat, maxCount: nat, k: nat)
    requires 0 < count && 0 < maxCount && 1 <= k <= 4
    ensures Intensity(count, maxCount) == k <==>
      maxCount * (k - 1) < 4 * count && (k == 4 || 4 * count <= maxCount * k)
  {
    var c := CeilDiv(4 * count, maxCount);
    CeilDivBounds(4 * count, maxCount);
    if c < k {
      MulLe(maxCount, c, k - 1);
    } else if c > k {
      MulLe(maxCount, k, c - 1);
    }
  }

  /**
   * A zero count is grey; a positive count is one of the blues whenever the
   * data are non-empty, the darkest one at (or above) the maximum.
   */
  lemma ColorIntensityFacts(count: nat, maxCount: Option<nat>)
    ensures count == 0 ==> ColorIntensity(count, maxCount) == Empty
    ensures count > 0 && maxCount.Some? ==> ColorIntensity(count, maxCount) in Blues
    ensures count > 0 && maxCount.Some? && count >= maxCount.value ==> ColorIntensity(count, maxCount) == Blues[3]
  {
    if count > 0 && maxCount.Some? {
      var m := maxCount.value;
      if m > 0 {
        var c := CeilDiv(4 * count, m);
        CeilDivBounds(4 * count, m);
        if count >= m {
          assert 4 * count >= 4 * m;
          if c < 4 {
            MulLe(m, c, 3);
          }
        }
      }
    }
  }

  /** A larger count never gets a lighter shade. */
  lemma IntensityMonotone(c1: nat, c2: nat, maxCount: nat)
    requires c1 <= c2
    ensures Intensity(c1, maxCount) <= Intensity(c2, maxCount)
  {
    if maxCount > 0 {
      var q1, q2 := CeilDiv(4 * c1, maxCount), CeilDiv(4 * c2, maxCount);
      CeilDivBounds(4 * c1, maxCount);
      CeilDivBounds(4 * c2, maxCount);
      if q1 > q2 {
        MulLe(maxCount, q2, q1 - 1);
      }
    }
  }

  /**
   * Over the consistency series of a list of entries, the cell of a day
   * shows that day's number of entries: grey exactly when it has none, and
   * the darkest blue on a busiest day.
   */
  lemma ConsistencyCells(entries: seq<Entry>, date: string)
    ensures Lookup(TallyOf(Days(entries)), date) == multiset(Days(entries))[date]
    ensures CellClass(TallyOf(Days(entries)), date) == Empty <==> date !in Days(entries)
    ensures date in Days(entries) && MaxCount(TallyOf(Days(entries))) == Some(multiset(Days(entries))[date]) ==>
      CellClass(TallyOf(Days(entries)), date) == Blues[3]
  {
    var ks := Days(entries);
    var t := TallyOf(ks);
    TallyFacts(ks);
    LookupDistinct(t, date);
    var c := Lookup(t, date);
    if date in ks {
      assert date in Keys(t);
      var i :| 0 <= i < |t| && Keys(t)[i] == date;
      assert c == t[i].1 >= 1;
      assert MaxCount(t).Some?;
      ColorIntensityFacts(c, MaxCount(t));
    } else {
      assert date !in Keys(t);
    }
  }

  /** In data with distinct dates, the lookup finds the one item of that date. */
  lemma {:induction false} LookupDistinct(data: seq<Count<string>>, date: string)
    requires NoDuplicates(Keys(data))
    ensures forall i :: 0 <= i < |data| && data[i].0 == date ==> Lookup(data, date) == data[i].1
  {
    if data != [] {
      var p := data[..|data| - 1];
      assert NoDuplicates(Keys(p)) by {
        forall i, j | 0 <= i < j < |p| ensures Keys(p)[i] != Keys(p)[j] {
          assert Keys(p)[i] == Keys(data)[i] && Keys(p)[j] == Keys(data)[j];
        }
      }
      LookupDistinct(p, date);
      forall i | 0 <= i < |data| && data[i].0 == date ensures Lookup(data, date) == data[i].1 {
        if i < |data| - 1 {
          assert Keys(data)[i] != Keys(data)[|data| - 1];
          assert p[i] == data[i];
        }
      }
    }
  }
}
