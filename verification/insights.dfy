/**
 * `generateInsights`: heuristic observations over the entries of a
 * timeframe, oldest first. Each rule is a function from the entries to the
 * insights it contributes (none, one, or one per mood or category); the
 * method `GenerateInsights` appends them in rule order and keeps the first
 * five. Percentages and averages are computed on exact rationals.
 */
module Insights {

  import opened Wrappers
  import opened Text
  import opened Counting
  import opened Ordering
  import opened Journal
  import opened Ratio

  datatype Kind = Trend | Suggestion | Pattern | Correlation

  datatype Direction = Up | Down

  /** The field an insight carries besides id, type, title and description. */
  datatype Detail =
    | Plain
    | Trending(direction: Direction)
    | Themes(tags: seq<string>)
    | Routine(timeOfDay: string)
    | Association(category: string, mood: string)

  datatype Insight = Insight(id: string, kind: Kind, title: string, description: string, detail: Detail)

  const MaxInsights: nat := 5

  /** The fixed wordings of the insight descriptions, and the fixed parts of the worded ones. */
  datatype Phrase =
    HappierText | LessHappyText | SadderText | LessSadText | MoreAnxiousText | LessAnxiousText
    | MoreProductiveText | LessProductiveText | MoreTiredText | LessTiredText | MoreStressedText
    | LessStressedText | FrequencyLowText | ConsistencyHighText | LengthShortText | LengthLongText
    | ThemesText | RoutineText | CorrelationText | AssociationText | DrainingText | UpliftingText

  function Wording(p: Phrase): string
  {
    match p
    case HappierText => "You've been feeling happier lately. Keep up whatever you're doing!"
    case LessHappyText => "You've been feeling less happy lately. Consider activities that boost your mood."
    case SadderText => "You've been feeling sad more often. Consider talking to someone about how you feel."
    case LessSadText => "You've been feeling sad less often. That's great progress!"
    case MoreAnxiousText => "Your anxiety levels have increased. Try some relaxation techniques."
    case LessAnxiousText => "Your anxiety levels have decreased. Keep up with your stress management!"
    case MoreProductiveText => "You've been feeling more productive lately. Great job!"
    case LessProductiveText => "You've been feeling less productive lately. Try breaking tasks into smaller steps."
    case MoreTiredText => "You've been feeling more tired lately. Consider reviewing your sleep habits."
    case LessTiredText => "You've been feeling less tired lately. Your energy levels are improving!"
    case MoreStressedText => "Your stress levels have increased. Try to incorporate more relaxation into your routine."
    case LessStressedText => "Your stress levels have decreased. Keep up with your stress management!"
    case FrequencyLowText => "Consider journaling more frequently to track your mood patterns better."
    case ConsistencyHighText => "You've been journaling consistently. This helps build a reliable record of your thoughts and feelings."
    case LengthShortText => "Your recent entries are shorter than usual. Consider exploring your thoughts in more detail for deeper insights."
    case LengthLongText => "Your recent entries are more detailed than usual. This level of reflection can provide valuable insights."
    case ThemesText => "Your most frequent themes are: "
    case RoutineText => "You tend to journal most often in the "
    case CorrelationText => "Entries about \""
    case AssociationText => "\" are often associated with feeling "
    case DrainingText => ". Consider how these activities affect your wellbeing."
    case UpliftingText => ". This seems to be a positive influence in your life."
  }

  /** The number of entries satisfying `p` (`filter(p).length`). */
  function CountWhere(es: seq<Entry>, p: Entry -> bool): (n: nat)
    ensures n <= |es|
  {
    if es == [] then 0 else (if p(es[0]) then 1 else 0) + CountWhere(es[1..], p)
  }

  function Abs(x: real): real
  {
    if x < 0.0 then -x else x
  }

  lemma PercentCompare(x: int, f: int)
    requires f > 0
    ensures (x as real / f as real) * 100.0 > 30.0 <==> 10 * x > 3 * f
    ensures (x as real / f as real) * 100.0 < -30.0 <==> 10 * x < -3 * f
    ensures (x as real / f as real) * 100.0 > 0.0 <==> x > 0
  {
    DivCompare(x as real, f as real, 0.3);
    DivCompare(x as real, f as real, -0.3);
    DivCompare(x as real, f as real, 0.0);
  }

  lemma AverageCompare(s: int, m: int)
    requires m > 0
    ensures s as real / m as real > 7.0 <==> s > 7 * m
    ensures s as real / m as real < 2.0 <==> s < 2 * m
  {
    DivCompare(s as real, m as real, 7.0);
    DivCompare(s as real, m as real, 2.0);
  }

  lemma RecentCompare(n: nat, t: int, r: int)
    requires n > 0
    ensures r as real / 3.0 < (t as real / n as real) * 0.7 <==> 10 * (n * r) < 21 * t
    ensures r as real / 3.0 > (t as real / n as real) * 1.5 <==> 2 * (n * r) > 9 * t
  {
    var nr, tr, rr := n as real, t as real, r as real;
    ProductAsReal(r, n);
    assert (rr / 2.1) * nr == (n * r) as real / 2.1;
    assert (rr / 4.5) * nr == (n * r) as real / 4.5;
    DivCompare(tr, nr, rr / 2.1);
    DivCompare(tr, nr, rr / 4.5);
  }

  /* ---------- mood trend across the two halves ---------- */

  const SignificantMoods: seq<string> := ["Happy", "Sad", "Anxious", "Productive", "Tired", "Stressed"]

  /** The moods for which more is worse: their reported direction is flipped. */
  const FlippedMoods: set<string> := {"Sad", "Anxious", "Tired", "Stressed"}

  function FirstHalf(es: seq<Entry>): seq<Entry>
  {
    es[..|es| / 2]
  }

  function SecondHalf(es: seq<Entry>): seq<Entry>
  {
    es[|es| / 2..]
  }

  /** `filter(entry => entry.mood === mood).length`. */
  function MoodCount(es: seq<Entry>, mood: string): nat
  {
    CountWhere(es, (e: Entry) => e.mood == Some(mood))
  }

  /** `(change / countFirstHalf) * 100`, or 100 when the first half has none. */
  function PercentChange(first: nat, second: nat): real
  {
    if first > 0 then ((second - first) as real / first as real) * 100.0 else 100.0
  }

  predicate TrendFires(first: nat, second: nat)
  {
    (first > 0 || second > 0) && Abs(PercentChange(first, second)) > 30.0
  }

  /** The description chosen by the raw direction, before any flip. */
  function TrendDescription(mood: string, rising: bool): string
  {
    if mood == "Happy" then
      (if rising then Wording(HappierText) else Wording(LessHappyText))
    else if mood == "Sad" then
      (if rising then Wording(SadderText) else Wording(LessSadText))
    else if mood == "Anxious" then
      (if rising then Wording(MoreAnxiousText) else Wording(LessAnxiousText))
    else if mood == "Productive" then
      (if rising then Wording(MoreProductiveText) else Wording(LessProductiveText))
    else if mood == "Tired" then
      (if rising then Wording(MoreTiredText) else Wording(LessTiredText))
    else if mood == "Stressed" then
      (if rising then Wording(MoreStressedText) else Wording(LessStressedText))
    else ""
  }

  function TrendInsight(mood: string, first: nat, second: nat): Insight
  {
    var rising := PercentChange(first, second) > 0.0;
    var up := if mood in FlippedMoods then !rising else rising;
    Insight("mood-" + Lower(mood), Trend, mood + (if up then " Improving" else " Declining"),
      TrendDescription(mood, rising), Trending(if up then Up else Down))
  }

  /** The trend insights of `moods`, in order, comparing the two halves. */
  function TrendsFor(moods: seq<string>, first: seq<Entry>, second: seq<Entry>): seq<Insight>
  {
    if moods == [] then []
    else
      var mood := moods[|moods| - 1];
      var a := MoodCount(first, mood);
      var b := MoodCount(second, mood);
      TrendsFor(moods[..|moods| - 1], first, second) + (if TrendFires(a, b) then [TrendInsight(mood, a, b)] else [])
  }

  function MoodTrends(entries: seq<Entry>): seq<Insight>
  {
    TrendsFor(SignificantMoods, FirstHalf(entries), SecondHalf(entries))
  }

  /** The `significantMoods.forEach` loop. */
  method MoodTrendInsights(entries: seq<Entry>) returns (r: seq<Insight>)
    ensures r == MoodTrends(entries)
  {
    var first := FirstHalf(entries);
    var second := SecondHalf(entries);
    r := [];
    for k := 0 to |SignificantMoods|
      invariant r == TrendsFor(SignificantMoods[..k], first, second)
    {
      var mood := SignificantMoods[k];
      var pushed := TrendStep(mood, MoodCount(first, mood), MoodCount(second, mood));
      r := r + pushed;
      assert SignificantMoods[..k + 1][..k] == SignificantMoods[..k];
    }
    assert SignificantMoods[..|SignificantMoods|] == SignificantMoods;
  }

  /** One iteration of the loop: the insight pushed for `mood`, if any. */
  method TrendStep(mood: string, a: nat, b: nat) returns (pushed: seq<Insight>)
    ensures pushed == if TrendFires(a, b) then [TrendInsight(mood, a, b)] else []
  {
    pushed := [];
    if a > 0 || b > 0 {
      var change := b as int - a as int;
      var percent := if a > 0 then (change as real / a as real) * 100.0 else 100.0;
      assert percent == PercentChange(a, b);
      if Abs(percent) > 30.0 {
        var direction := if percent > 0.0 then Up else Down;
        var description := TrendDescription(mood, direction == Up);
        if mood in FlippedMoods {
          direction := if direction == Up then Down else Up;
        }
        var title := mood + (if direction == Up then " Improving" else " Declining");
        pushed := [Insight("mood-" + Lower(mood), Trend, title, description, Trending(direction))];
      }
    }
  }

  /**
   * A trend fires exactly when the first half has none and the second some
   * (the +100 case), or when the change is more than 30% of the first-half
   * count.
   */
  lemma TrendFiresExact(first: nat, second: nat)
    ensures first == 0 && second > 0 ==> PercentChange(first, second) == 100.0
    ensures TrendFires(first, second) <==>
      (first == 0 && second > 0) ||
      (first > 0 && (10 * (second - first) > 3 * first || 10 * (first - second) > 3 * first))
  {
    if first > 0 {
      PercentCompare(second - first, first);
    }
  }

  /**
   * A firing trend rises exactly when the second half has more; the
   * reported direction is the rise for Happy and Productive and its opposite
   * for Sad, Anxious, Tired and Stressed, and the title says "Improving"
   * exactly when the reported direction is up.
   */
  lemma TrendDirection(mood: string, first: nat, second: nat)
    requires TrendFires(first, second)
    ensures var ins := TrendInsight(mood, first, second);
      && ins.id == "mood-" + Lower(mood)
      && ins.kind == Trend
      && (ins.detail == Trending(Up) <==> (second > first) != (mood in FlippedMoods))
      && (ins.detail == Trending(Up) ==> ins.title == mood + " Improving")
      && (ins.detail == Trending(Down) ==> ins.title == mood + " Declining")
      && ins.detail.Trending?
      && ins.description == TrendDescription(mood, second > first)
  {
    Rising(first, second);
  }

  /**
   * Among the significant moods, more Happy or Productive entries trend up,
   * and fewer Sad, Anxious, Tired or Stressed entries trend up.
   */
  lemma TrendOfMood(mood: string, first: nat, second: nat)
    requires TrendFires(first, second)
    ensures mood == "Happy" || mood == "Productive" ==>
      (TrendInsight(mood, first, second).detail == Trending(Up) <==> second > first)
    ensures mood == "Sad" || mood == "Anxious" || mood == "Tired" || mood == "Stressed" ==>
      (TrendInsight(mood, first, second).detail == Trending(Up) <==> second < first)
  {
    TrendDirection(mood, first, second);
    TrendFiresExact(first, second);
  }

  /** A firing trend has a positive change exactly when the second half has more. */
  lemma Rising(first: nat, second: nat)
    requires TrendFires(first, second)
    ensures PercentChange(first, second) > 0.0 <==> second > first
  {
    TrendFiresExact(first, second);
    if first > 0 {
      PercentCompare(second - first, first);
    }
  }

  /** Every trend insight comes from a significant mood whose trend fires. */
  lemma {:induction false} TrendsForFacts(moods: seq<string>, first: seq<Entry>, second: seq<Entry>)
    ensures |TrendsFor(moods, first, second)| <= |moods|
    ensures forall ins :: ins in TrendsFor(moods, first, second) ==>
      exists mood :: mood in moods && TrendFires(MoodCount(first, mood), MoodCount(second, mood)) &&
        ins == TrendInsight(mood, MoodCount(first, mood), MoodCount(second, mood))
  {
    if moods != [] {
      var p := moods[..|moods| - 1];
      TrendsForFacts(p, first, second);
      forall ins | ins in TrendsFor(moods, first, second)
        ensures exists mood :: (mood in moods && TrendFires(MoodCount(first, mood), MoodCount(second, mood)) &&
          ins == TrendInsight(mood, MoodCount(first, mood), MoodCount(second, mood)))
      {
        if ins in TrendsFor(p, first, second) {
          var mood :| mood in p && TrendFires(MoodCount(first, mood), MoodCount(second, mood)) &&
            ins == TrendInsight(mood, MoodCount(first, mood), MoodCount(second, mood));
          assert mood in moods;
        } else {
          assert moods[|moods| - 1] in moods;
        }
      }
    }
  }

  /* ---------- journaling frequency ---------- */

  /** Milliseconds in a day, `1000 * 60 * 60 * 24`. */
  const Day: int := 86400000

  /** Whole days between consecutive entries, rounded down. */
  function Gaps(es: seq<Entry>): seq<int>
  {
    if |es| < 2 then []
    else seq(|es| - 1, i requires 0 <= i < |es| - 1 => (es[i + 1].createdAt - es[i].createdAt) / Day)
  }

  function Sum(xs: seq<int>): int
  {
    if xs == [] then 0 else Sum(xs[..|xs| - 1]) + xs[|xs| - 1]
  }

  /** The `for` loop filling `daysBetweenEntries`. */
  method DaysBetween(entries: seq<Entry>) returns (gaps: seq<int>)
    ensures gaps == Gaps(entries)
  {
    gaps := [];
    var i := 1;
    while i < |entries|
      invariant 1 <= i && (i <= |entries| || i == 1)
      invariant |gaps| == i - 1
      invariant forall j :: 0 <= j < i - 1 ==> gaps[j] == (entries[j + 1].createdAt - entries[j].createdAt) / Day
    {
      var daysDiff := (entries[i].createdAt - entries[i - 1].createdAt) / Day;
      gaps := gaps + [daysDiff];
      i := i + 1;
    }
    if |entries| >= 2 {
      assert |gaps| == |entries| - 1;
    }
  }

  /**
   * The gaps add up to the span from the first to the last entry in whole
   * days: each gap loses less than a day to rounding.
   */
  lemma {:induction false} GapsSpan(es: seq<Entry>)
    requires |es| >= 1
    ensures Day * Sum(Gaps(es)) <= es[|es| - 1].createdAt - es[0].createdAt
    ensures es[|es| - 1].createdAt - es[0].createdAt < Day * (Sum(Gaps(es)) + |es| - 1) || |es| == 1
  {
    if |es| >= 2 {
      var p := es[..|es| - 1];
      GapsSpan(p);
      var d := es[|es| - 1].createdAt - es[|es| - 2].createdAt;
      var q := d / Day;
      GapsSnoc(es);
      assert d == Day * q + d % Day && 0 <= d % Day < Day;
      assert p[0] == es[0] && p[|p| - 1] == es[|es| - 2];
    }
  }

  /** The gaps of a longer list are those of its prefix and one more gap. */
  lemma GapsSnoc(es: seq<Entry>)
    requires |es| >= 2
    ensures Sum(Gaps(es)) == Sum(Gaps(es[..|es| - 1])) + (es[|es| - 1].createdAt - es[|es| - 2].createdAt) / Day
  {
    var p := es[..|es| - 1];
    var q := (es[|es| - 1].createdAt - es[|es| - 2].createdAt) / Day;
    assert Gaps(es) == Gaps(p) + [q] by {
      if |p| < 2 {
        assert |es| == 2;
      }
    }
    assert (Gaps(p) + [q])[..|Gaps(p)|] == Gaps(p);
  }

  function FrequencyLow(): Insight
  {
    Insight("frequency-low", Suggestion, "Journaling Frequency", Wording(FrequencyLowText), Plain)
  }

  function ConsistencyHigh(): Insight
  {
    Insight("consistency-high", Pattern, "Consistent Journaling", Wording(ConsistencyHighText), Plain)
  }

  function FrequencyRule(entries: seq<Entry>): seq<Insight>
    requires |entries| >= 3
  {
    var avg := Sum(Gaps(entries)) as real / (|entries| - 1) as real;
    if avg > 7.0 && |entries| > 0 then [FrequencyLow()]
    else if avg < 2.0 && |entries| > 10 then [ConsistencyHigh()]
    else []
  }

  /**
   * Low frequency fires when the gaps average more than seven days; high
   * consistency, when they average under two days over more than ten
   * entries.
   */
  lemma FrequencyRuleExact(entries: seq<Entry>)
    requires |entries| >= 3
    ensures var s, m := Sum(Gaps(entries)), |entries| - 1;
      && (FrequencyRule(entries) == [FrequencyLow()] <==> s > 7 * m)
      && (FrequencyRule(entries) == [ConsistencyHigh()] <==> s < 2 * m && |entries| > 10)
      && (FrequencyRule(entries) == [] <==> !(s > 7 * m) && !(s < 2 * m && |entries| > 10))
  {
    AverageCompare(Sum(Gaps(entries)), |entries| - 1);
  }

  /* ---------- common themes ---------- */

  /** `array.join(sep)`. */
  function Join(ss: seq<string>, sep: string): string
  {
    if ss == [] then "" else if |ss| == 1 then ss[0] else ss[0] + sep + Join(ss[1..], sep)
  }

  function ThemesRule(entries: seq<Entry>): seq<Insight>
  {
    var top := Keys(TopCounts(AllTags(entries), 3));
    if |top| > 0 then
      [Insight("common-themes", Pattern, "Common Themes",
        Wording(ThemesText) + Join(top, ", ") + ".", Themes(top))]
    else []
  }

  /**
   * The themes insight appears exactly when some entry has a tag, and names
   * up to three distinct tags, most used first, none less used than a tag
   * left out.
   */
  lemma ThemesFacts(entries: seq<Entry>)
    ensures ThemesRule(entries) != [] <==> AllTags(entries) != []
    ensures ThemesRule(entries) != [] ==>
      var top := TopCounts(AllTags(entries), 3);
      && ThemesRule(entries)[0].detail == Themes(Keys(top))
      && 1 <= |top| <= 3
      && SortedDesc(top)
      && NoDuplicates(Keys(top))
      && (forall i :: 0 <= i < |top| ==>
            top[i].0 in AllTags(entries) && top[i].1 == multiset(AllTags(entries))[top[i].0])
      && (forall k :: k in AllTags(entries) && k !in Keys(top) ==>
            forall i :: 0 <= i < |top| ==> top[i].1 >= multiset(AllTags(entries))[k])
  {
    TopCountsFacts(AllTags(entries), 3);
    DistinctElements(AllTags(entries));
    if AllTags(entries) != [] {
      assert AllTags(entries)[0] in Distinct(AllTags(entries));
    }
  }

  /* ---------- entry length ---------- */

  /** The total content length of `es`. */
  function TotalLength(es: seq<Entry>): nat
  {
    if es == [] then 0 else TotalLength(es[..|es| - 1]) + |es[|es| - 1].content|
  }

  function LengthShort(): Insight
  {
    Insight("entry-length-short", Suggestion, "Journal Entry Length", Wording(LengthShortText), Plain)
  }

  function LengthLong(): Insight
  {
    Insight("entry-length-long", Pattern, "Detailed Journaling", Wording(LengthLongText), Plain)
  }

  /** The mean content length of `es`, as an exact quotient. */
  function AverageLength(es: seq<Entry>): real
    requires es != []
  {
    TotalLength(es) as real / |es| as real
  }

  /** The last three entries against the average of all. */
  function LengthRule(entries: seq<Entry>): seq<Insight>
    requires |entries| >= 3
  {
    LengthVerdict(AverageLength(entries), AverageLength(entries[|entries| - 3..]), |entries|)
  }

  /** The two thresholds of the length rule, for `n` entries. */
  function LengthVerdict(avg: real, recentAvg: real, n: nat): seq<Insight>
  {
    if recentAvg < avg * 0.7 && n > 5 then [LengthShort()]
    else if recentAvg > avg * 1.5 && n > 5 then [LengthLong()]
    else []
  }

  /**
   * With more than five entries, "short" fires when the last three average
   * under 70% of the overall average and "long" when they average over
   * 150% of it; never both.
   */
  lemma LengthRuleExact(entries: seq<Entry>)
    requires |entries| >= 3
    ensures var n, t, r := |entries|, TotalLength(entries), TotalLength(entries[|entries| - 3..]);
      && (LengthRule(entries) == [LengthShort()] <==> n > 5 && 10 * (n * r) < 21 * t)
      && (LengthRule(entries) == [LengthLong()] <==> n > 5 && 2 * (n * r) > 9 * t)
      && (LengthRule(entries) == [] <==> n <= 5 || (10 * (n * r) >= 21 * t && 2 * (n * r) <= 9 * t))
  {
    var n, t, r := |entries|, TotalLength(entries), TotalLength(entries[|entries| - 3..]);
    var avg, recent := AverageLength(entries), AverageLength(entries[n - 3..]);
    assert recent == r as real / 3.0;
    RecentCompare(n, t, r);
    LengthVerdictCases(avg, recent, n);
  }

  lemma LengthVerdictCases(avg: real, recent: real, n: nat)
    ensures LengthVerdict(avg, recent, n) == [LengthShort()] <==> n > 5 && recent < avg * 0.7
    ensures LengthVerdict(avg, recent, n) == [LengthLong()] <==> n > 5 && !(recent < avg * 0.7) && recent > avg * 1.5
    ensures LengthVerdict(avg, recent, n) == [] <==> n <= 5 || (!(recent < avg * 0.7) && !(recent > avg * 1.5))
  {
  }

  /* ---------- time of day ---------- */

  predicate IsMorning(hour: int) { 5 <= hour < 12 }
  predicate IsAfternoon(hour: int) { 12 <= hour < 18 }
  predicate IsEvening(hour: int) { 18 <= hour < 22 }
  predicate IsNight(hour: int) { hour >= 22 || hour < 5 }

  /** The four periods with their entry counts, in declaration order. */
  function PeriodCounts(entries: seq<Entry>): seq<Count<string>>
  {
    [ ("Morning", CountWhere(entries, (e: Entry) => IsMorning(e.hour))),
      ("Afternoon", CountWhere(entries, (e: Entry) => IsAfternoon(e.hour))),
      ("Evening", CountWhere(entries, (e: Entry) => IsEvening(e.hour))),
      ("Night", CountWhere(entries, (e: Entry) => IsNight(e.hour))) ]
  }

  function TimeRule(entries: seq<Entry>): seq<Insight>
  {
    var d := SortDesc(PeriodCounts(entries));
    SortDescFacts(PeriodCounts(entries));
    if d[0].1 as real > |entries| as real * 0.6 then
      [Insight("time-of-day", Pattern, "Journaling Routine",
        Wording(RoutineText) + Lower(d[0].0) + ".", Routine(d[0].0))]
    else []
  }

  /** Every hour falls in exactly one period, so the four counts add up to the entries. */
  lemma {:induction false} PeriodsPartition(es: seq<Entry>)
    ensures var c := PeriodCounts(es); c[0].1 + c[1].1 + c[2].1 + c[3].1 == |es|
  {
    if es != [] {
      PeriodsPartition(es[1..]);
    }
  }

  /**
   * The routine insight names the busiest period, the earliest of Morning,
   * Afternoon, Evening and Night on a tie, and fires exactly when that period
   * holds more than 60% of the entries.
   */
  lemma TimeRuleFacts(entries: seq<Entry>)
    ensures var c := PeriodCounts(entries);
      var top := Max(Max(c[0].1, c[1].1), Max(c[2].1, c[3].1));
      && (TimeRule(entries) != [] <==> 5 * top > 3 * |entries|)
      && (TimeRule(entries) != [] ==>
            exists k :: 0 <= k < 4 && c[k].1 == top && (forall j :: 0 <= j < k ==> c[j].1 < top) &&
              TimeRule(entries) == [Insight("time-of-day", Pattern, "Journaling Routine",
                Wording(RoutineText) + Lower(c[k].0) + ".", Routine(c[k].0))])
  {
    var c := PeriodCounts(entries);
    var top := Max(Max(c[0].1, c[1].1), Max(c[2].1, c[3].1));
    var k := if c[0].1 == top then 0 else if c[1].1 == top then 1 else if c[2].1 == top then 2 else 3;
    SortDescHead(c, k);
    assert c[k].1 as real > |entries| as real * 0.6 <==> 5 * top > 3 * |entries|;
  }

  /* ---------- category–mood correlation ---------- */

  const DrainingMoods: seq<string> := ["Anxious", "Sad", "Tired", "Stressed", "Angry"]
  const UpliftingMoods: seq<string> := ["Happy", "Calm", "Productive", "Excited"]

  /** The (category, mood) pair of every category link of every entry that has a mood. */
  function CorrelationPairs(entries: seq<Entry>): seq<(string, string)>
  {
    if entries == [] then []
    else
      var e := entries[0];
      (if HasMood(e) then
         seq(|e.categories|, i requires 0 <= i < |e.categories| => (e.categories[i].name, e.mood.value))
       else [])
      + CorrelationPairs(entries[1..])
  }

  function CorrelationDescription(category: string, mood: string): string
  {
    if mood in DrainingMoods then Wording(CorrelationText) + category + Wording(AssociationText) + Lower(mood) + Wording(DrainingText)
    else if mood in UpliftingMoods then Wording(CorrelationText) + category + Wording(AssociationText) + Lower(mood) + Wording(UpliftingText)
    else ""
  }

  function CorrelationInsight(category: string, mood: string): Insight
  {
    Insight("correlation-" + Lower(category) + "-" + Lower(mood), Correlation, category + " & " + mood,
      CorrelationDescription(category, mood), Association(category, mood))
  }

  /** The insight for one mood of a category whose moods total `total`, if any. */
  function CorrelationFor(category: string, total: nat, mc: Count<string>): seq<Insight>
  {
    if total > 0 && (mc.1 as real / total as real) * 100.0 > 70.0 && total >= 5
       && CorrelationDescription(category, mc.0) != ""
    then [CorrelationInsight(category, mc.0)]
    else []
  }

  function MoodCorrelations(category: string, total: nat, t: seq<Count<string>>): seq<Insight>
  {
    if t == [] then []
    else MoodCorrelations(category, total, t[..|t| - 1]) + CorrelationFor(category, total, t[|t| - 1])
  }

  function CorrelationsIn(g: seq<(string, seq<Count<string>>)>): seq<Insight>
  {
    if g == [] then []
    else
      var last := g[|g| - 1];
      CorrelationsIn(g[..|g| - 1]) + MoodCorrelations(last.0, SumCounts(last.1), last.1)
  }

  function Correlations(entries: seq<Entry>): seq<Insight>
  {
    CorrelationsIn(GroupTally(CorrelationPairs(entries)))
  }

  lemma {:induction false} CountWithinSum<K>(t: seq<Count<K>>, j: nat)
    requires j < |t|
    ensures t[j].1 <= SumCounts(t)
  {
    if j < |t| - 1 {
      assert t[..|t| - 1][j] == t[j];
      CountWithinSum(t[..|t| - 1], j);
    }
  }

  /** The two nested `forEach` loops over the correlation record. */
  method CorrelationInsights(entries: seq<Entry>) returns (r: seq<Insight>)
    ensures r == Correlations(entries)
  {
    var pairs := CorrelationPairs(entries);
    var g := GroupCount(pairs);
    r := [];
    for i := 0 to |g|
      invariant r == CorrelationsIn(g[..i])
    {
      TallyFacts(SecondsWith(pairs, g[i].0));
      var found := CategoryCorrelations(g[i].0, g[i].1);
      CorrelationsInNext(g, i);
      r := r + found;
    }
    assert g[..|g|] == g;
  }

  lemma CorrelationsInNext(g: seq<(string, seq<Count<string>>)>, i: nat)
    requires i < |g|
    ensures CorrelationsIn(g[..i + 1]) == CorrelationsIn(g[..i]) + MoodCorrelations(g[i].0, SumCounts(g[i].1), g[i].1)
  {
    assert g[..i + 1][..i] == g[..i];
  }

  /** The inner `forEach` over the mood counts of one category. */
  method CategoryCorrelations(category: string, moods: seq<Count<string>>) returns (found: seq<Insight>)
    requires forall k :: 0 <= k < |moods| ==> moods[k].1 >= 1
    ensures found == MoodCorrelations(category, SumCounts(moods), moods)
  {
    var total := SumCounts(moods);
    found := [];
    for j := 0 to |moods|
      invariant found == MoodCorrelations(category, total, moods[..j])
    {
      var mood := moods[j].0;
      var count := moods[j].1;
      CountWithinSum(moods, j);
      var percentage := (count as real / total as real) * 100.0;
      if percentage > 70.0 && total >= 5 {
        var description := CorrelationDescription(category, mood);
        if description != "" {
          found := found + [CorrelationInsight(category, mood)];
        }
      }
      assert moods[..j + 1][..j] == moods[..j];
    }
    assert moods[..|moods|] == moods;
  }

  lemma PercentAbove70(count: nat, total: nat)
    requires total > 0
    ensures (count as real / total as real) * 100.0 > 70.0 <==> 10 * count > 7 * total
  {
    DivCompare(count as real, total as real, 0.7);
  }

  /** Nothing fires for a category when every mood together is at most 70% of `total`. */
  lemma {:induction false} NoneFire(category: string, total: nat, t: seq<Count<string>>)
    requires 10 * SumCounts(t) <= 7 * total
    ensures MoodCorrelations(category, total, t) == []
  {
    if t != [] {
      CountWithinSum(t, |t| - 1);
      if total > 0 {
        PercentAbove70(t[|t| - 1].1, total);
      }
      NoneFire(category, total, t[..|t| - 1]);
    }
  }

  /** At most one mood of a category can be above 70% of its moods. */
  lemma {:induction false} AtMostOneMood(category: string, total: nat, t: seq<Count<string>>)
    requires SumCounts(t) <= total
    ensures |MoodCorrelations(category, total, t)| <= 1
  {
    if t != [] {
      var p := t[..|t| - 1];
      var c := t[|t| - 1].1;
      if total > 0 {
        PercentAbove70(c, total);
      }
      if 10 * c > 7 * total {
        NoneFire(category, total, p);
      } else {
        AtMostOneMood(category, total, p);
      }
    }
  }

  /** A mood above 70% of at least five associations, and on one of the two lists. */
  predicate Strong(total: nat, mc: Count<string>)
  {
    total >= 5 && 10 * mc.1 > 7 * total && (mc.0 in DrainingMoods || mc.0 in UpliftingMoods)
  }

  /**
   * Each correlation insight of a category is the insight of one of its
   * moods that is strong: more than 70% of at least five mood-tagged
   * associations, and on one of the two lists.
   */
  lemma {:induction false} MoodCorrelationsFacts(category: string, total: nat, t: seq<Count<string>>)
    ensures forall ins :: ins in MoodCorrelations(category, total, t) ==>
      exists j :: 0 <= j < |t| && ins == CorrelationInsight(category, t[j].0) && Strong(total, t[j])
    ensures forall j :: 0 <= j < |t| && Strong(total, t[j]) ==>
      CorrelationInsight(category, t[j].0) in MoodCorrelations(category, total, t)
  {
    MoodCorrelationsComplete(category, total, t);
    if t != [] {
      var p := t[..|t| - 1];
      MoodCorrelationsFacts(category, total, p);
      var last := t[|t| - 1];
      if total > 0 {
        PercentAbove70(last.1, total);
      }
      forall ins | ins in MoodCorrelations(category, total, t)
        ensures exists j :: 0 <= j < |t| && ins == CorrelationInsight(category, t[j].0) && Strong(total, t[j])
      {
        if ins in MoodCorrelations(category, total, p) {
          var j :| 0 <= j < |p| && ins == CorrelationInsight(category, p[j].0) && Strong(total, p[j]);
          assert t[j] == p[j];
        } else {
          assert ins == CorrelationInsight(category, last.0) && Strong(total, last);
        }
      }
    }
  }

  /**
   * At most one correlation per category, each the insight of a strong mood
   * of its category.
   */
  lemma {:induction false} CorrelationsInFacts(g: seq<(string, seq<Count<string>>)>)
    ensures |CorrelationsIn(g)| <= |g|
    ensures forall ins :: ins in CorrelationsIn(g) ==>
      exists i, j :: 0 <= i < |g| && 0 <= j < |g[i].1| &&
        ins == CorrelationInsight(g[i].0, g[i].1[j].0) && Strong(SumCounts(g[i].1), g[i].1[j])
    ensures forall i, j :: 0 <= i < |g| && 0 <= j < |g[i].1| && Strong(SumCounts(g[i].1), g[i].1[j]) ==>
      CorrelationInsight(g[i].0, g[i].1[j].0) in CorrelationsIn(g)
  {
    CorrelationsInComplete(g);
    if g != [] {
      var p := g[..|g| - 1];
      var last := g[|g| - 1];
      CorrelationsInFacts(p);
      AtMostOneMood(last.0, SumCounts(last.1), last.1);
      MoodCorrelationsFacts(last.0, SumCounts(last.1), last.1);
      forall ins | ins in CorrelationsIn(g)
        ensures exists i, j :: (0 <= i < |g| && 0 <= j < |g[i].1| &&
          ins == CorrelationInsight(g[i].0, g[i].1[j].0) && Strong(SumCounts(g[i].1), g[i].1[j]))
      {
        if ins in CorrelationsIn(p) {
          var i, j :| 0 <= i < |p| && 0 <= j < |p[i].1| &&
            ins == CorrelationInsight(p[i].0, p[i].1[j].0) && Strong(SumCounts(p[i].1), p[i].1[j]);
          assert g[i] == p[i];
        } else {
          assert ins in MoodCorrelations(last.0, SumCounts(last.1), last.1);
          var j :| 0 <= j < |last.1| && ins == CorrelationInsight(last.0, last.1[j].0) &&
            Strong(SumCounts(last.1), last.1[j]);
          assert g[|g| - 1] == last;
        }
      }
    }
  }

  /** One mood's step yields its correlation insight exactly when the mood is strong. */
  lemma CorrelationForExact(category: string, total: nat, mc: Count<string>)
    ensures CorrelationFor(category, total, mc) ==
      if Strong(total, mc) then [CorrelationInsight(category, mc.0)] else []
  {
    if total > 0 {
      PercentAbove70(mc.1, total);
    }
    if mc.0 in DrainingMoods || mc.0 in UpliftingMoods {
      assert |Wording(CorrelationText)| > 0;
    }
  }

  /** Every strong mood of a category yields its correlation insight. */
  lemma {:induction false} MoodCorrelationsComplete(category: string, total: nat, t: seq<Count<string>>)
    ensures forall j :: 0 <= j < |t| && Strong(total, t[j]) ==>
      CorrelationInsight(category, t[j].0) in MoodCorrelations(category, total, t)
  {
    if t != [] {
      var p := t[..|t| - 1];
      MoodCorrelationsComplete(category, total, p);
      CorrelationForExact(category, total, t[|t| - 1]);
      forall j | 0 <= j < |t| && Strong(total, t[j])
        ensures CorrelationInsight(category, t[j].0) in MoodCorrelations(category, total, t)
      {
        if j < |p| {
          assert p[j] == t[j];
        }
      }
    }
  }

  /** Every strong mood of every category yields its correlation insight. */
  lemma {:induction false} CorrelationsInComplete(g: seq<(string, seq<Count<string>>)>)
    ensures forall i, j :: 0 <= i < |g| && 0 <= j < |g[i].1| && Strong(SumCounts(g[i].1), g[i].1[j]) ==>
      CorrelationInsight(g[i].0, g[i].1[j].0) in CorrelationsIn(g)
  {
    if g != [] {
      var p := g[..|g| - 1];
      var last := g[|g| - 1];
      CorrelationsInComplete(p);
      MoodCorrelationsComplete(last.0, SumCounts(last.1), last.1);
      forall i, j | 0 <= i < |g| && 0 <= j < |g[i].1| && Strong(SumCounts(g[i].1), g[i].1[j])
        ensures CorrelationInsight(g[i].0, g[i].1[j].0) in CorrelationsIn(g)
      {
        if i < |p| {
          assert p[i] == g[i];
        }
      }
    }
  }

  /* ---------- all rules ---------- */

  /** Every rule's insights, in the order the rules run. */
  function Rules(entries: seq<Entry>): seq<Insight>
    requires |entries| >= 3
  {
    MoodTrends(entries) + FrequencyRule(entries) + ThemesRule(entries)
      + LengthRule(entries) + TimeRule(entries) + Correlations(entries)
  }

  /** Nothing for fewer than three entries; otherwise the first five insights, in rule order. */
  function RecentInsights(entries: seq<Entry>): seq<Insight>
  {
    if |entries| < 3 then [] else Take(Rules(entries), MaxInsights)
  }

  /**
   * `generateInsights`: nothing for fewer than three entries; otherwise the
   * first five insights the rules produce, in rule order.
   */
  method GenerateInsights(entries: seq<Entry>) returns (r: seq<Insight>)
    ensures |entries| < 3 ==> r == []
    ensures r == RecentInsights(entries)
    ensures |r| <= MaxInsights
  {
    if |entries| < 3 {
      return [];
    }
    var insights := MoodTrendInsights(entries);
    var frequency := FrequencyInsight(entries);
    insights := insights + frequency;
    var themes := ThemesInsight(entries);
    insights := insights + themes;
    var length := LengthInsight(entries);
    insights := insights + length;
    var routine := TimeInsight(entries);
    insights := insights + routine;
    var correlations := CorrelationInsights(entries);
    insights := insights + correlations;
    assert insights == Rules(entries);
    r := Take(insights, MaxInsights);
  }

  /** The frequency-pattern step: the gaps, their average and the two thresholds. */
  method FrequencyInsight(entries: seq<Entry>) returns (pushed: seq<Insight>)
    requires |entries| >= 3
    ensures pushed == FrequencyRule(entries)
  {
    var gaps := DaysBetween(entries);
    var avgDaysBetween := Sum(gaps) as real / |gaps| as real;
    pushed := [];
    if avgDaysBetween > 7.0 && |entries| > 0 {
      pushed := [FrequencyLow()];
    } else if avgDaysBetween < 2.0 && |entries| > 10 {
      pushed := [ConsistencyHigh()];
    }
  }

  /** The tag-pattern step: `tagFrequency`, sorted, its first three names. */
  method ThemesInsight(entries: seq<Entry>) returns (pushed: seq<Insight>)
    ensures pushed == ThemesRule(entries)
  {
    var tagFrequency := CountKeys(AllTags(entries));
    var mostFrequentTags := Keys(Take(SortDesc(tagFrequency), 3));
    pushed := [];
    if |mostFrequentTags| > 0 {
      pushed := [Insight("common-themes", Pattern, "Common Themes",
        Wording(ThemesText) + Join(mostFrequentTags, ", ") + ".", Themes(mostFrequentTags))];
    }
  }

  /** The entry-length step: all entries against the last three. */
  method LengthInsight(entries: seq<Entry>) returns (pushed: seq<Insight>)
    requires |entries| >= 3
    ensures pushed == LengthRule(entries)
  {
    var avgEntryLength := AverageLength(entries);
    var recentEntries := entries[|entries| - 3..];
    var recentAvgLength := AverageLength(recentEntries);
    pushed := [];
    if recentAvgLength < avgEntryLength * 0.7 && |entries| > 5 {
      pushed := [LengthShort()];
    } else if recentAvgLength > avgEntryLength * 1.5 && |entries| > 5 {
      pushed := [LengthLong()];
    }
  }

  /** The time-of-day step: the four periods sorted by count. */
  method TimeInsight(entries: seq<Entry>) returns (pushed: seq<Insight>)
    ensures pushed == TimeRule(entries)
  {
    var distribution := SortDesc(PeriodCounts(entries));
    SortDescFacts(PeriodCounts(entries));
    pushed := [];
    if distribution[0].1 as real > |entries| as real * 0.6 {
      var time := distribution[0].0;
      pushed := [Insight("time-of-day", Pattern, "Journaling Routine",
        Wording(RoutineText) + Lower(time) + ".", Routine(time))];
    }
  }
}
