/**
 * The entry-length chart: each point of the route's `entryLength` series
 * gains a seven-point moving average of the word counts, over the point and
 * the (up to) six points before it, rounded to the nearest integer.
 */
module LengthChart {

  import opened Ordering
  import opened Aggregator
  import opened Ratio

  /** A processed point: the input point plus its rounded moving average. */
  datatype AveragedPoint = AveragedPoint(date: string, wordCount: nat, movingAvg: nat)

  /** `Math.max(0, i - 6)`: the first index of the window ending at `i`. */
  function WindowStart(i: nat): (lo: nat)
    ensures lo <= i && i + 1 - lo == Min(i + 1, 7)
  {
    if i >= 6 then i - 6 else 0
  }

  /** The word counts of `data[lo..hi]`, added up. */
  function WordSum(data: seq<LengthPoint>, lo: nat, hi: nat): nat
    requires lo <= hi <= |data|
    decreases hi
  {
    if lo == hi then 0 else WordSum(data, lo, hi - 1) + data[hi - 1].wordCount
  }

  /** `Math.round(sum / count)` for a non-negative sum: halves round up. */
  function Round(sum: nat, count: nat): nat
    requires count > 0
  {
    (2 * sum + count) / (2 * count)
  }

  /**
   * The processed point at index `i`; `relabel` stands for the date-library call
   * `format(parseISO(date), 'MMM d')`, which the model leaves abstract.
   */
  function Averaged(data: seq<LengthPoint>, relabel: string -> string, i: nat): AveragedPoint
    requires i < |data|
  {
    var lo := WindowStart(i);
    AveragedPoint(relabel(data[i].date), data[i].wordCount, Round(WordSum(data, lo, i + 1), i + 1 - lo))
  }

  function MovingAverages(data: seq<LengthPoint>, relabel: string -> string): seq<AveragedPoint>
  {
    seq(|data|, i requires 0 <= i < |data| => Averaged(data, relabel, i))
  }

  /**
   * `data.map((item, i) => ...)` with the inner `for` over the window,
   * accumulating `sum` and `count`.
   */
  method MovingAverage(data: seq<LengthPoint>, relabel: string -> string) returns (r: seq<AveragedPoint>)
    ensures r == MovingAverages(data, relabel)
  {
    r := [];
    for i := 0 to |data|
      invariant |r| == i
      invariant forall k :: 0 <= k < i ==> r[k] == Averaged(data, relabel, k)
    {
      var sum, count := 0, 0;
      var lo := if 0 >= i - 6 then 0 else i - 6;
      var j := lo;
      while j <= i
        invariant lo <= j <= i + 1
        invariant sum == WordSum(data, lo, j) && count == j - lo
      {
        sum := sum + data[j].wordCount;
        count := count + 1;
        j := j + 1;
      }
      r := r + [AveragedPoint(relabel(data[i].date), data[i].wordCount, Round(sum, count))];
    }
  }

  lemma DivBelow(x: nat, d: nat, b: nat)
    requires d > 0 && x < d * (b + 1)
    ensures x / d <= b
  {
    var q := x / d;
    assert x == d * q + x % d;
    if q > b {
      MulLe(d, b + 1, q);
    }
  }

  lemma DivAbove(x: nat, d: nat, b: nat)
    requires d > 0 && d * b <= x
    ensures x / d >= b
  {
    var q := x / d;
    assert x == d * q + x % d && x % d < d;
    if q < b {
      MulLe(d, q + 1, b);
    }
  }

  /**
   * The rounded value is the integer nearest to `sum / count`, a half
   * rounding up: `avg - 1/2 <= sum / count < avg + 1/2`.
   */
  lemma RoundNearest(sum: nat, count: nat)
    requires count > 0
    ensures count * (2 * Round(sum, count) as int - 1) <= 2 * sum < count * (2 * Round(sum, count) + 1)
  {
    var q: int := Round(sum, count);
    var r := (2 * sum + count) % (2 * count);
    assert 2 * sum + count == 2 * count * q + r && 0 <= r < 2 * count;
    assert count * (2 * q - 1) == 2 * count * q - count;
    assert count * (2 * q + 1) == 2 * count * q + count;
  }

  /** Rounding the average of counts all at most `b` (at least `b`) stays at most (at least) `b`. */
  lemma RoundWithin(sum: nat, count: nat, b: nat)
    requires count > 0
    ensures sum <= b * count ==> Round(sum, count) <= b
    ensures sum >= b * count ==> Round(sum, count) >= b
  {
    if sum <= b * count {
      assert 2 * count * (b + 1) == 2 * (b * count) + 2 * count;
      DivBelow(2 * sum + count, 2 * count, b);
    }
    if sum >= b * count {
      assert 2 * count * b == 2 * (b * count);
      DivAbove(2 * sum + count, 2 * count, b);
    }
  }

  /** Bounds on every word count of a range bound its sum. */
  lemma {:induction false} WordSumWithin(data: seq<LengthPoint>, lo: nat, hi: nat, b: nat)
    requires lo <= hi <= |data|
    ensures (forall j :: lo <= j < hi ==> data[j].wordCount <= b) ==> WordSum(data, lo, hi) <= b * (hi - lo)
    ensures (forall j :: lo <= j < hi ==> data[j].wordCount >= b) ==> WordSum(data, lo, hi) >= b * (hi - lo)
    decreases hi
  {
    if lo < hi {
      WordSumWithin(data, lo, hi - 1, b);
      assert b * (hi - lo) == b * (hi - 1 - lo) + b;
    }
  }

  /**
   * There is one processed point per input point, in order, with its date
   * relabelled and its word count kept; the first point's average is its
   * own count.
   */
  lemma MovingAveragesFacts(data: seq<LengthPoint>, relabel: string -> string)
    ensures |MovingAverages(data, relabel)| == |data|
    ensures forall i :: 0 <= i < |data| ==>
      MovingAverages(data, relabel)[i].date == relabel(data[i].date) &&
      MovingAverages(data, relabel)[i].wordCount == data[i].wordCount
    ensures |data| > 0 ==> MovingAverages(data, relabel)[0].movingAvg == data[0].wordCount
  {
    if |data| > 0 {
      var w := data[0].wordCount;
      assert WordSum(data, 0, 1) == w;
      RoundWithin(w, 1, w);
    }
  }

  /**
   * The average at `i` lies between the smallest and the largest word count
   * of its window `WindowStart(i)..i`: a bound on every count of the window
   * bounds the average.
   */
  lemma MovingAverageWithin(data: seq<LengthPoint>, relabel: string -> string, i: nat, b: nat)
    requires i < |data|
    ensures (forall j :: WindowStart(i) <= j <= i ==> data[j].wordCount <= b) ==>
      MovingAverages(data, relabel)[i].movingAvg <= b
    ensures (forall j :: WindowStart(i) <= j <= i ==> data[j].wordCount >= b) ==>
      MovingAverages(data, relabel)[i].movingAvg >= b
  {
    var lo := WindowStart(i);
    WordSumWithin(data, lo, i + 1, b);
    RoundWithin(WordSum(data, lo, i + 1), i + 1 - lo, b);
  }
}
