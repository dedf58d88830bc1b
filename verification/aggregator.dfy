/**
 * The aggregations of the analytics route: entry frequency per bucket, the
 * per-day consistency map, the mood pie and per-date mood lines, the
 * primary-category distribution, the tag cloud and the per-entry word
 * counts. Each record the route fills with a `forEach` loop is filled here by
 * `CountKeys` or `GroupCount`, whose results are the first-seen tallies.
 */
module Aggregator {

  import opened Wrappers
  import opened Text
  import opened Counting
  import opened Ordering
  import opened Journal
  import opened Insights

  /** A `{ name, value, color }` item of the mood pie or the category chart. */
  datatype Slice = Slice(name: string, value: nat, color: string)

  const DefaultMoodColor := "#D1D5DB"

  /** The colour table of the mood pie. */
  const MoodColors: map<string, string> := map[
    "Happy" := "#10B981",
    "Calm" := "#60A5FA",
    "Productive" := "#8B5CF6",
    "Excited" := "#F59E0B",
    "Anxious" := "#EF4444",
    "Sad" := "#6B7280",
    "Tired" := "#9CA3AF",
    "Angry" := "#B91C1C",
    "Stressed" := "#F97316",
    "Neutral" := "#A1A1AA",
    NotSpecified := "#D1D5DB"
  ]

  /** `moodColors[name] || '#D1D5DB'`: a mood outside the table gets the grey. */
  function MoodColor(name: string): (c: string)
    ensures name !in MoodColors ==> c == DefaultMoodColor
    ensures name in MoodColors ==> c == MoodColors[name]
    ensures name == NotSpecified ==> c == DefaultMoodColor
  {
    if name in MoodColors then MoodColors[name] else DefaultMoodColor
  }

  /** The slices of a tally, coloured by `color`. */
  function Colored(t: seq<Count<string>>, color: string -> string): seq<Slice>
  {
    seq(|t|, i requires 0 <= i < |t| => Slice(t[i].0, t[i].1, color(t[i].0)))
  }

  function SumValues(s: seq<Slice>): nat
  {
    if s == [] then 0 else SumValues(s[..|s| - 1]) + s[|s| - 1].value
  }

  lemma {:induction false} SumValuesColored(t: seq<Count<string>>, color: string -> string)
    ensures SumValues(Colored(t, color)) == SumCounts(t)
  {
    if t != [] {
      var p := t[..|t| - 1];
      assert Colored(t, color)[..|t| - 1] == Colored(p, color);
      SumValuesColored(p, color);
    }
  }

  /* ---------- entry frequency and consistency ---------- */

  /**
   * `getEntryFrequencyData`: one `{ date, count }` per bucket, buckets in
   * the order their first entry appears, counts summing to the entries.
   */
  method EntryFrequency(entries: seq<Entry>, timeframe: string) returns (r: seq<Count<string>>)
    ensures r == TallyOf(FrequencyKeys(entries, timeframe))
    ensures Keys(r) == Distinct(FrequencyKeys(entries, timeframe))
    ensures NoDuplicates(Keys(r))
    ensures forall e :: e in entries ==> FrequencyKey(e, timeframe) in Keys(r)
    ensures forall i :: 0 <= i < |r| ==> r[i].1 >= 1
    ensures SumCounts(r) == |entries|
  {
    var ks := FrequencyKeys(entries, timeframe);
    r := CountKeys(ks);
    TallyFacts(ks);
    forall e | e in entries ensures FrequencyKey(e, timeframe) in ks {
      var i :| 0 <= i < |entries| && entries[i] == e;
      assert ks[i] == FrequencyKey(e, timeframe);
    }
  }

  /** The consistency map: entries per calendar day, days in first-seen order. */
  method Consistency(entries: seq<Entry>) returns (r: seq<Count<string>>)
    ensures r == TallyOf(Days(entries))
    ensures Keys(r) == Distinct(Days(entries))
    ensures NoDuplicates(Keys(r))
    ensures forall e :: e in entries ==> e.day in Keys(r)
    ensures forall i :: 0 <= i < |r| ==> r[i].1 >= 1
    ensures SumCounts(r) == |entries|
  {
    var ks := Days(entries);
    r := CountKeys(ks);
    TallyFacts(ks);
    forall e | e in entries ensures e.day in ks {
      var i :| 0 <= i < |entries| && entries[i] == e;
      assert ks[i] == e.day;
    }
  }

  /* ---------- mood distribution ---------- */

  /** The (bucket, mood label) pair of each entry, for the line chart. */
  function LinePairs(entries: seq<Entry>, timeframe: string): seq<(string, string)>
  {
    seq(|entries|, i requires 0 <= i < |entries| => (LineKey(entries[i], timeframe), MoodLabel(entries[i])))
  }

  /**
   * `getMoodDistributionData`: the pie counts each mood label once per
   * entry, an absent mood under "Not specified"; the line data is empty for
   * the timeframe "all" and otherwise counts moods per date bucket.
   */
  method MoodDistribution(entries: seq<Entry>, timeframe: string)
      returns (pie: seq<Slice>, lines: seq<(string, seq<Count<string>>)>)
    ensures pie == Colored(TallyOf(MoodLabels(entries)), MoodColor)
    ensures forall i :: 0 <= i < |pie| ==>
      pie[i].value == multiset(MoodLabels(entries))[pie[i].name] && pie[i].color == MoodColor(pie[i].name)
    ensures NoDuplicates(Keys(TallyOf(MoodLabels(entries))))
    ensures SumValues(pie) == |entries|
    ensures forall e :: e in entries && !HasMood(e) ==>
      exists i :: 0 <= i < |pie| && pie[i].name == NotSpecified
    ensures timeframe == "all" ==> lines == []
    ensures timeframe != "all" ==> lines == GroupTally(LinePairs(entries, timeframe))
    ensures timeframe != "all" ==> SumGroups(lines) == |entries|
  {
    var labels := MoodLabels(entries);
    var t := CountKeys(labels);
    TallyFacts(labels);
    SumValuesColored(t, MoodColor);
    pie := Colored(t, MoodColor);
    forall e | e in entries && !HasMood(e) ensures exists i :: 0 <= i < |pie| && pie[i].name == NotSpecified {
      var j :| 0 <= j < |entries| && entries[j] == e;
      assert labels[j] == NotSpecified;
      assert NotSpecified in Keys(t);
      var i :| 0 <= i < |t| && Keys(t)[i] == NotSpecified;
      assert pie[i].name == NotSpecified;
    }
    if timeframe == "all" {
      lines := [];
    } else {
      lines := GroupCount(LinePairs(entries, timeframe));
      GroupTallySum(LinePairs(entries, timeframe));
    }
  }

  /* ---------- category distribution ---------- */

  /** `entry.categories.find(c => c.primary)`. */
  function FirstPrimary(cs: seq<CategoryLink>): (r: Option<CategoryLink>)
    ensures r.None? <==> forall i :: 0 <= i < |cs| ==> !cs[i].primary
    ensures r.Some? ==>
      exists i :: 0 <= i < |cs| && cs[i] == r.value && cs[i].primary &&
        forall j :: 0 <= j < i ==> !cs[j].primary
  {
    if cs == [] then None
    else if cs[0].primary then Some(cs[0])
    else FirstPrimary(cs[1..])
  }

  /** The primary category of each entry that has one, in entry order. */
  function Primaries(entries: seq<Entry>): seq<CategoryLink>
  {
    if entries == [] then [] else PrimaryOf(entries[0]) + Primaries(entries[1..])
  }

  /**
   * At most one primary category per entry, exactly one per entry iff every
   * entry has one; each is primary, and every entry's primary link is there.
   */
  lemma {:induction false} PrimariesFacts(entries: seq<Entry>)
    ensures |Primaries(entries)| <= |entries|
    ensures |Primaries(entries)| == |entries| <==> forall e :: e in entries ==> FirstPrimary(e.categories).Some?
    ensures forall c :: c in Primaries(entries) ==> c.primary
    ensures forall e :: e in entries && FirstPrimary(e.categories).Some? ==>
      FirstPrimary(e.categories).value in Primaries(entries)
  {
    if entries != [] {
      PrimariesFacts(entries[1..]);
      assert forall e :: e in entries <==> e == entries[0] || e in entries[1..];
    }
  }

  /** The primary category of one entry, as a list of at most one link. */
  function PrimaryOf(e: Entry): seq<CategoryLink>
  {
    match FirstPrimary(e.categories)
    case Some(c) => [c]
    case None => []
  }

  /**
   * Entries contribute their primary categories one after another: those of
   * a concatenation are those of each part, in order.
   */
  lemma {:induction false} PrimariesAppend(a: seq<Entry>, b: seq<Entry>)
    ensures Primaries(a + b) == Primaries(a) + Primaries(b)
  {
    if a == [] {
      assert a + b == b;
    } else {
      assert (a + b)[0] == a[0] && (a + b)[1..] == a[1..] + b;
      PrimariesAppend(a[1..], b);
    }
  }

  function Names(cs: seq<CategoryLink>): seq<string>
  {
    seq(|cs|, i requires 0 <= i < |cs| => cs[i].name)
  }

  /** The colour of the first link named `name`, or "" when there is none. */
  function FirstColor(cs: seq<CategoryLink>, name: string): (c: string)
    ensures name in Names(cs) ==>
      exists i :: 0 <= i < |cs| && cs[i].name == name && cs[i].color == c &&
        forall j :: 0 <= j < i ==> cs[j].name != name
  {
    if cs == [] then ""
    else if cs[0].name == name then cs[0].color
    else
      var c := FirstColor(cs[1..], name);
      assert Names(cs) == [cs[0].name] + Names(cs[1..]);
      c
  }

  /**
   * `getCategoryDistributionData`: entries without a primary category are
   * skipped; each category keeps the colour of its first occurrence.
   */
  method CategoryDistribution(entries: seq<Entry>) returns (r: seq<Slice>)
    ensures var prim := Primaries(entries);
      && |r| == |Distinct(Names(prim))|
      && (forall i :: 0 <= i < |r| ==>
            r[i].name == Distinct(Names(prim))[i] &&
            r[i].value == multiset(Names(prim))[r[i].name] && r[i].value >= 1 &&
            r[i].color == FirstColor(prim, r[i].name))
      && SumValues(r) == |prim|
    ensures SumValues(r) <= |entries|
  {
    var prim := Primaries(entries);
    PrimariesFacts(entries);
    var names := Names(prim);
    var t := CountKeys(names);
    TallyFacts(names);
    SumValuesColored(t, n => FirstColor(prim, n));
    r := Colored(t, n => FirstColor(prim, n));
  }

  /* ---------- tag cloud ---------- */

  /**
   * `getTagCloudData`: at most 40 tags, each with its number of uses,
   * sorted by non-increasing count with ties in first-seen order; no tag
   * left out is used more often than a tag kept.
   */
  method TagCloud(entries: seq<Entry>) returns (r: seq<Count<string>>)
    ensures r == TopCounts(AllTags(entries), 40)
    ensures |r| <= 40
    ensures SortedDesc(r)
    ensures NoDuplicates(Keys(r))
    ensures forall i :: 0 <= i < |r| ==> r[i].1 >= 1 && r[i].1 == multiset(AllTags(entries))[r[i].0]
    ensures forall k :: k in AllTags(entries) && k !in Keys(r) ==>
      forall i :: 0 <= i < |r| ==> r[i].1 >= multiset(AllTags(entries))[k]
  {
    var t := CountKeys(AllTags(entries));
    r := Take(SortDesc(t), 40);
    TopCountsFacts(AllTags(entries), 40);
  }

  /* ---------- entry length ---------- */

  datatype LengthPoint = LengthPoint(date: string, wordCount: nat)

  /** `entryLength`: one point per entry, in entry order. */
  function EntryLengths(entries: seq<Entry>): (r: seq<LengthPoint>)
    ensures |r| == |entries|
    ensures forall i :: 0 <= i < |r| ==> r[i].date == entries[i].day
  {
    seq(|entries|, i requires 0 <= i < |entries| =>
      LengthPoint(entries[i].day, WordCount(StripHtml(entries[i].content))))
  }

  /**
   * The word count of an entry is the number of non-empty whitespace-free
   * runs of its content once every `<...>` is replaced by a space; collapsing
   * and trimming whitespace does not change it.
   */
  lemma EntryLengthsWords(entries: seq<Entry>)
    ensures forall i :: 0 <= i < |entries| ==>
      EntryLengths(entries)[i].wordCount == |SpaceTokens(StripMarkup(entries[i].content))|
  {
    forall i | 0 <= i < |entries|
      ensures EntryLengths(entries)[i].wordCount == |SpaceTokens(StripMarkup(entries[i].content))|
    {
      WordCountOfStripped(entries[i].content);
    }
  }

  /* ---------- the response ---------- */

  /** The body of a successful analytics response. */
  datatype Analytics = Analytics(
    consistency: seq<Count<string>>,
    entryFrequency: seq<Count<string>>,
    moodPie: seq<Slice>,
    moodLines: seq<(string, seq<Count<string>>)>,
    categoryDistribution: seq<Slice>,
    tagCloud: seq<Count<string>>,
    recentInsights: seq<Insight>,
    entryLength: seq<LengthPoint>,
    totalEntries: nat)

  /**
   * The route's `GET` once the entries are loaded: every chart counts each
   * entry once, there is one length point per entry, and at most five
   * insights, none for fewer than three entries.
   */
  method Analyze(entries: seq<Entry>, timeframe: string) returns (a: Analytics)
    ensures a.totalEntries == |entries|
    ensures a.entryFrequency == TallyOf(FrequencyKeys(entries, timeframe))
    ensures SumCounts(a.entryFrequency) == a.totalEntries
    ensures a.moodPie == Colored(TallyOf(MoodLabels(entries)), MoodColor)
    ensures SumValues(a.moodPie) == a.totalEntries
    ensures timeframe == "all" ==> a.moodLines == []
    ensures timeframe != "all" ==> a.moodLines == GroupTally(LinePairs(entries, timeframe))
    ensures timeframe != "all" ==> SumGroups(a.moodLines) == a.totalEntries
    ensures var prim := Primaries(entries);
      && |a.categoryDistribution| == |Distinct(Names(prim))|
      && (forall i :: 0 <= i < |a.categoryDistribution| ==>
            a.categoryDistribution[i].name == Distinct(Names(prim))[i] &&
            a.categoryDistribution[i].value == multiset(Names(prim))[a.categoryDistribution[i].name] &&
            a.categoryDistribution[i].color == FirstColor(prim, a.categoryDistribution[i].name))
      && SumValues(a.categoryDistribution) == |prim|
    ensures SumValues(a.categoryDistribution) <= a.totalEntries
    ensures a.tagCloud == TopCounts(AllTags(entries), 40)
    ensures a.recentInsights == RecentInsights(entries)
    ensures |a.recentInsights| <= MaxInsights
    ensures a.consistency == TallyOf(Days(entries))
    ensures SumCounts(a.consistency) == a.totalEntries
    ensures a.entryLength == EntryLengths(entries)
  {
    var entryFrequency := EntryFrequency(entries, timeframe);
    var moodPie, moodLines := MoodDistribution(entries, timeframe);
    var categoryDistribution := CategoryDistribution(entries);
    var tagCloud := TagCloud(entries);
    var recentInsights := GenerateInsights(entries);
    var consistency := Consistency(entries);
    var entryLength := EntryLengths(entries);
    a := Analytics(consistency, entryFrequency, moodPie, moodLines, categoryDistribution,
      tagCloud, recentInsights, entryLength, |entries|);
  }
}
