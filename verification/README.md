# Journal analytics, modelled in Dafny

This project models the computational core of a journaling web app:

- **The analytics route.** It takes a user's entries, ordered by creation time, and produces the dashboard data:
  - entry frequency per day or month;
  - the mood pie and per-date mood lines;
  - the primary-category distribution;
  - the top-40 tag cloud;
  - the per-day consistency series;
  - per-entry word counts;
  - up to five heuristic insights. These cover mood trends between the two halves of the period, the journaling frequency, common themes, recent entry length, the time of day, and category–mood correlations.
- **The entry analyzer.** A word-list sentiment with a suggested mood, plus tag suggestions drawn from the text's most frequent words.
- **The entry-length chart.** A seven-point moving average.
- **The calendar heatmap.** Each day's entry count becomes one of five colour classes.

Modules:

- `Wrappers`: `Option`.
- `Text`: ASCII lower-casing.
  - The `<...>` replacement, the token splitting by character class, `stripHtml` and `wordCount`.
- `Counting`: first-seen tallies, and the loops that build them.
  - The route's records are filled in place by `forEach` loops. `CountKeys` and `GroupCount` model those loops over a map plus an insertion-order list.
  - Both are proved equal to the tallies `TallyOf` and `GroupTally`.
- `Ordering`: `slice` as `Take`.
  - `Array.prototype.sort` by descending count, which is stable. It is modelled as an insertion sort and proved sorted, a permutation and stable.
  - `TopCounts`: the most frequent keys.
- `Journal`: the entry record.
- `Aggregator`: the route's chart data and the assembled response.
- `Insights`: `generateInsights`, one rule function per heuristic plus the methods that push them.
- `Analyzer`: sentiment, tag extraction and entry analysis.
- `LengthChart`: the moving average.
- `Heatmap`: the cell lookup and colour classes.
- `Ratio`: comparing a real quotient with a constant, and multiplying an inequality by a natural number.

Floating-point thresholds are stated exactly, as integer comparisons after cross-multiplying. Lemmas such as `Insights.PercentCompare` and `Insights.TrendFiresExact` state those comparisons. The source computes them in double-precision floating point, which can round differently exactly at a threshold; "Left out" lists what this means.

## Model

| member | source | states |
|---|---|---|
| Text.Lower | src/app/lib/services/ai.service.ts:19 | lower-casing keeps the length and maps every character through the ASCII A–Z lower-casing |
| Text.StripMarkupNoOpen | src/app/lib/services/ai.service.ts:19 | a text without `<` is left unchanged by the `<[^>]+>` replacement |
| Text.StripMarkupIsMarkupFree | src/app/api/analytics/route.ts:92 | after the replacement no `<...>` run with a non-empty body remains |
| Text.StripMarkupIdempotent | src/app/api/analytics/route.ts:92 | replacing markup a second time changes nothing |
| Text.StripMarkupSeparates | src/app/api/analytics/route.ts:92 | a `<m>` with non-empty `m`, after text without `<`, becomes exactly one space; the text before it is kept |
| Text.RunsShape | src/app/lib/services/ai.service.ts:20 | every token of `split(...).filter(Boolean)` is non-empty and made only of the kept character class |
| Text.RunsSeparator | src/app/lib/services/ai.service.ts:20 | a separator character splits the token list: tokens of `x + [c] + y` are the tokens of `x` followed by those of `y` |
| Text.StripHtmlWords | src/app/api/analytics/route.ts:91-93 | collapsing whitespace runs and trimming leave the whitespace-separated tokens unchanged |
| Text.WordCountOfStripped | src/app/api/analytics/route.ts:91-97 | `wordCount(stripHtml(html))` is the number of non-empty whitespace-free runs of `html` once markup is replaced; each such token is non-empty and has no whitespace |
| Counting.DistinctElements | src/app/api/analytics/route.ts:135 | the first-seen key list has exactly the keys of the input and no duplicates |
| Counting.TallyOf | src/app/api/analytics/route.ts:127-138 | item `i` is the `i`-th distinct key in first-seen order, with its number of occurrences |
| Counting.TallyFacts | src/app/api/analytics/route.ts:125-138 | tally keys are the first-seen distinct keys, have the same key set as the input, count at least 1 each, and sum to the input length |
| Counting.CountKeys | src/app/api/analytics/route.ts:142-147 | the `forEach` that creates a record key at 0 and increments it builds exactly the first-seen tally |
| Counting.GroupTally | src/app/api/analytics/route.ts:174-190 | one group per distinct outer key in first-seen order, each holding the tally of its inner keys |
| Counting.GroupTallySum | src/app/api/analytics/route.ts:176-183 | the counts of all groups add up to the number of pairs |
| Counting.GroupCount | src/app/api/analytics/route.ts:174-183 | the nested-record `forEach` builds exactly the grouped tally |
| Ordering.Take | src/app/api/analytics/route.ts:239 | `slice(0, n)` is a prefix of length `min(n, len)` |
| Ordering.SortDescFacts | src/app/api/analytics/route.ts:239 | the descending sort is sorted, a permutation of its input, and stable: the items of any one count keep their input order |
| Ordering.TakeSortDescTop | src/app/api/analytics/route.ts:239 | an item left out by sort-then-slice has a count no larger than any item kept |
| Ordering.TopCountsFacts | src/app/api/analytics/route.ts:358-361 | the top `n` has `min(n, distinct keys)` items, sorted, with distinct keys, each with its true count, and no key left out outnumbers a kept one |
| Ordering.TopLeftOut | src/app/api/analytics/route.ts:358-361 | a key left out of the top `n` occurs no more often than any key kept |
| Ordering.SortDescHead | src/app/api/analytics/route.ts:403-408 | after the stable sort the first maximal item comes first |
| Journal.MoodLabel | src/app/api/analytics/route.ts:144 | `entry.mood \|\| 'Not specified'`: the mood when it is a non-empty string, otherwise "Not specified"; never empty |
| Aggregator.MoodColor | src/app/api/analytics/route.ts:149-167 | a mood in the colour table gets its colour; any other mood, and "Not specified", gets `#D1D5DB` |
| Aggregator.SumValuesColored | src/app/api/analytics/route.ts:164-168 | colouring a tally keeps the sum of its values |
| Aggregator.EntryFrequency | src/app/api/analytics/route.ts:125-139 | buckets (month for year/all, day otherwise) are distinct and in first-seen order; every entry's bucket is present; counts are at least 1 and sum to the number of entries |
| Aggregator.Consistency | src/app/api/analytics/route.ts:79-89 | the per-day counts have distinct days in first-seen order, cover every entry's day, count at least 1 each, and sum to the number of entries |
| Aggregator.MoodDistribution | src/app/api/analytics/route.ts:141-197 | the pie has one slice per distinct mood label with its count and table colour; the values sum to the number of entries; an entry without a mood yields a "Not specified" slice; line data is empty for "all", otherwise grouped per bucket with counts summing to the number of entries |
| Aggregator.FirstPrimary | src/app/api/analytics/route.ts:204 | `find(c => c.primary)`: absent exactly when no link is primary, otherwise the first primary link |
| Aggregator.PrimariesFacts | src/app/api/analytics/route.ts:203-205 | at most one primary category per entry, exactly one per entry iff every entry has one; each is primary, and every entry's first primary link is among them |
| Aggregator.PrimariesAppend | src/app/api/analytics/route.ts:203-205 | entries contribute their primary links in entry order: those of a concatenation are those of the first part followed by those of the second |
| Aggregator.FirstColor | src/app/api/analytics/route.ts:207-212 | the colour recorded for a category is that of its first occurrence |
| Aggregator.CategoryDistribution | src/app/api/analytics/route.ts:199-222 | one slice per distinct primary category in first-seen order, valued by its count (at least 1) and coloured by its first occurrence; the values sum to the number of entries with a primary category, at most the number of entries |
| Aggregator.TagCloud | src/app/api/analytics/route.ts:224-240 | at most 40 tags, distinct, each with its true count of at least 1, sorted non-increasing, and no tag left out used more often than a tag kept |
| Aggregator.EntryLengths | src/app/api/analytics/route.ts:99-105 | one point per entry, in entry order, dated by the entry's day |
| Aggregator.EntryLengthsWords | src/app/api/analytics/route.ts:91-105 | each point's word count is the number of whitespace-free runs of its content once markup is replaced |
| Aggregator.Analyze | src/app/api/analytics/route.ts:65-115 | `totalEntries` is the number of entries; frequency, pie and consistency are the tallies of the entries and each counts every entry once; the mood lines are empty for "all" and otherwise the per-bucket mood tallies, counting every entry once; the category slices are the distinct primary categories with their counts and first colours, summing to the number of entries with a primary category; the tag cloud is the top 40; insights are the first five rule results (none below three entries); one length point per entry |
| Insights.PercentCompare | src/app/api/analytics/route.ts:264-269 | `(x / f) * 100` above 30, below −30 or positive exactly when `10x > 3f`, `10x < −3f` or `x > 0` |
| Insights.TrendFiresExact | src/app/api/analytics/route.ts:262-268 | a mood trend fires iff the first half has none and the second some (counted as +100%), or the change exceeds 30% of a non-zero first-half count |
| Insights.Rising | src/app/api/analytics/route.ts:269 | a fired trend points up before any flip exactly when the second half has more |
| Insights.TrendDirection | src/app/api/analytics/route.ts:269-319 | the trend insight's id is `mood-` plus the lower-cased mood; its direction is up iff the count rose, flipped for the moods on the flipped list; the title says "Improving" iff the final direction is up, "Declining" otherwise |
| Insights.TrendOfMood | src/app/api/analytics/route.ts:272-317 | a Happy or Productive trend points up exactly when the count rose; a Sad, Anxious, Tired or Stressed trend points up exactly when it fell |
| Insights.TrendsForFacts | src/app/api/analytics/route.ts:258-322 | at most one trend per mood, each for a mood whose trend fires |
| Insights.MoodTrendInsights | src/app/api/analytics/route.ts:258-322 | the loop over the significant moods pushes exactly the fired trends in mood order |
| Insights.TrendStep | src/app/api/analytics/route.ts:259-320 | one mood's step pushes its trend insight iff the trend fires |
| Insights.DaysBetween | src/app/api/analytics/route.ts:325-329 | the gap loop yields, for each consecutive pair, the floored whole days between them |
| Insights.GapsSnoc | src/app/api/analytics/route.ts:326-329 | appending an entry adds the floored days between the last two entries to the gap sum |
| Insights.GapsSpan | src/app/api/analytics/route.ts:326-331 | the summed day gaps, times a day, never exceed the first-to-last span and fall short of it by less than one day per gap |
| Insights.AverageCompare | src/app/api/analytics/route.ts:331-340 | the average gap is above 7 or below 2 exactly when the gap sum exceeds `7m` or is below `2m` |
| Insights.FrequencyRuleExact | src/app/api/analytics/route.ts:331-347 | "frequency-low" iff the gap sum exceeds 7 days per gap; otherwise "consistency-high" iff it is under 2 per gap with more than 10 entries; otherwise nothing |
| Insights.FrequencyInsight | src/app/api/analytics/route.ts:333-347 | the frequency step pushes what the frequency rule gives |
| Insights.ThemesFacts | src/app/api/analytics/route.ts:349-371 | the themes insight appears iff any tag is used; it lists the top 1–3 tags, distinct, most used first, with none left out used more |
| Insights.ThemesInsight | src/app/api/analytics/route.ts:350-371 | the themes step pushes what the themes rule gives |
| Insights.RecentCompare | src/app/api/analytics/route.ts:375-387 | recent average below 0.7 (above 1.5) times the overall average exactly when `10·n·r < 21·t` (`2·n·r > 9·t`) |
| Insights.LengthRuleExact | src/app/api/analytics/route.ts:373-394 | "entry-length-short" iff more than 5 entries and the last three average under 70% of the mean; otherwise "entry-length-long" iff above 150%; otherwise nothing |
| Insights.LengthInsight | src/app/api/analytics/route.ts:374-394 | the length step pushes what the length rule gives |
| Insights.PeriodsPartition | src/app/api/analytics/route.ts:397-401 | morning, afternoon, evening and night counts add up to the number of entries |
| Insights.TimeRuleFacts | src/app/api/analytics/route.ts:397-418 | the routine insight fires iff the largest period count exceeds 60% of the entries, and names the first period (in declaration order) with that count |
| Insights.TimeInsight | src/app/api/analytics/route.ts:397-418 | the time-of-day step pushes what the time rule gives |
| Insights.PercentAbove70 | src/app/api/analytics/route.ts:439-441 | `(count / total) * 100 > 70` exactly when `10·count > 7·total` |
| Insights.NoneFire | src/app/api/analytics/route.ts:437-441 | a category whose mood counts are all at most 70% of its total yields no correlation |
| Insights.AtMostOneMood | src/app/api/analytics/route.ts:436-461 | at most one mood per category can exceed 70% |
| Insights.MoodCorrelationsFacts | src/app/api/analytics/route.ts:438-461 | a category's correlations are exactly those of its strong moods: each emitted one is for a mood above 70% of at least 5 associations and in one of the two mood lists, and every such mood yields its insight |
| Insights.CorrelationForExact | src/app/api/analytics/route.ts:439-459 | one mood yields the correlation insight for it if it is strong (above 70% of at least 5, on a list) and nothing otherwise |
| Insights.MoodCorrelationsComplete | src/app/api/analytics/route.ts:438-461 | every strong mood of a category yields its correlation insight |
| Insights.CorrelationsInFacts | src/app/api/analytics/route.ts:436-462 | at most one correlation per category; each is the insight `CorrelationInsight` builds (id `correlation-{category}-{mood}`, lower-cased) for a strong mood of its category, and every strong mood of every category yields it |
| Insights.CorrelationsInComplete | src/app/api/analytics/route.ts:436-462 | every strong mood of every category yields its correlation insight |
| Insights.CorrelationInsights | src/app/api/analytics/route.ts:421-462 | the nested loops push exactly the correlations of the category–mood tallies, in first-seen order |
| Insights.CategoryCorrelations | src/app/api/analytics/route.ts:437-460 | the inner loop over one category's mood counts pushes exactly that category's correlations, judged against the sum of its counts |
| Insights.GenerateInsights | src/app/api/analytics/route.ts:242-466 | no insights below three entries; otherwise the first five of trends, frequency, themes, length, time of day and correlations, in that order; never more than five |
| Analyzer.CountSentimentWords | src/app/lib/services/ai.service.ts:22-29 | the `forEach` counts the tokens on the positive list and those on the negative list |
| Analyzer.AnalyzeSentiment | src/app/lib/services/ai.service.ts:31-56 | positive iff more positive than negative words, negative iff fewer, neutral iff equal; the mood is drawn from the positive or negative mood list, or is "Neutral"; the score is the balance over `min(words, 100)`, 0 without words |
| Analyzer.ScoreBound | src/app/lib/services/ai.service.ts:48-50 | the score is 0 without words and lies in [−1, 1] for at most 100 words |
| Analyzer.ScoreWithin | src/app/lib/services/ai.service.ts:48-50 | for counts of positive and negative words each at most the word count, the score is 0 without words and in [−1, 1] for at most 100 words |
| Analyzer.Candidates | src/app/lib/services/ai.service.ts:72-74 | kept words are longer than 3, not stop words, and come from the input |
| Analyzer.CandidatesCount | src/app/lib/services/ai.service.ts:72-74 | every candidate word of the input is kept exactly as often as it occurs, and no other word is kept |
| Analyzer.CandidatesAppend | src/app/lib/services/ai.service.ts:72-74 | the filter keeps input order: the candidates of a concatenation are those of each part, in order |
| Analyzer.WithoutFacts | src/app/lib/services/ai.service.ts:88-89 | the filter keeps only input tags, none of them excluded, and never more than it was given |
| Analyzer.WithoutCount | src/app/lib/services/ai.service.ts:88-89 | every tag not excluded is kept exactly as often as it occurs, and no excluded tag is kept |
| Analyzer.WithoutAppend | src/app/lib/services/ai.service.ts:88-89 | the filter keeps input order: the kept tags of a concatenation are those of each part, in order |
| Analyzer.WithoutDistinct | src/app/lib/services/ai.service.ts:89 | filtering distinct tags leaves distinct tags |
| Analyzer.WithoutRanked | src/app/lib/services/ai.service.ts:89 | filtering tags ordered by frequency leaves them ordered |
| Analyzer.SuggestedTagsFacts | src/app/lib/services/ai.service.ts:60-90 | at most 10 tags, distinct, each a token of the text longer than 3 and not a stop word, none equal to a lower-cased existing tag, in non-increasing frequency; every word of the ten most frequent candidates that is not an existing tag is returned, and no new candidate word left out is more frequent than a returned tag |
| Analyzer.SuggestedTagsComplete | src/app/lib/services/ai.service.ts:81-89 | every new word of the top ten is suggested, so no new candidate word left out outnumbers a suggested tag |
| Analyzer.ExtractTags | src/app/lib/services/ai.service.ts:60-90 | the Map-counting, sorting, slicing and filtering steps compute the suggested tags |
| Analyzer.AnalyzeEntryContent | src/app/lib/services/ai.service.ts:92-105 | the sentiment as above, and at most 5 suggested tags, the first five of `extractTags`, each a candidate token of the content |
| Analyzer.MarkupIsSeparator | src/app/lib/services/ai.service.ts:19-20 | a `<...>` run separates the words on either side and contributes none of its own |
| LengthChart.WindowStart | src/components/analytics/EntryLengthChart.tsx:37 | the window of item `i` starts at `max(0, i − 6)` and holds `min(i + 1, 7)` items |
| LengthChart.MovingAverage | src/components/analytics/EntryLengthChart.tsx:33-47 | the nested loops compute, for each item, the rounded mean of its window |
| LengthChart.RoundNearest | src/components/analytics/EntryLengthChart.tsx:45 | the rounded average is the integer nearest to `sum / count`, halves rounding up |
| LengthChart.WordSumWithin | src/components/analytics/EntryLengthChart.tsx:37-40 | a bound on every word count of the window bounds the window sum by that bound times the window size |
| LengthChart.RoundWithin | src/components/analytics/EntryLengthChart.tsx:45 | rounding a mean that is at most (at least) an integer bound stays at most (at least) it |
| LengthChart.MovingAveragesFacts | src/components/analytics/EntryLengthChart.tsx:33-47 | one output per input, in order, with the word count kept and the date relabelled; the first average equals its own word count |
| LengthChart.MovingAverageWithin | src/components/analytics/EntryLengthChart.tsx:37-45 | every average lies between the smallest and largest word count of its window |
| Heatmap.Lookup | src/components/analytics/CalendarHeatmap.tsx:20-22 | a date absent from the data has count 0 |
| Heatmap.LookupDistinct | src/components/analytics/CalendarHeatmap.tsx:20-22 | with distinct dates the lookup returns that date's count |
| Heatmap.MaxCount | src/components/analytics/CalendarHeatmap.tsx:24 | no maximum (−Infinity) exactly for empty data; otherwise an upper bound of all counts attained by one of them |
| Heatmap.CeilDivBounds | src/components/analytics/CalendarHeatmap.tsx:28 | the integer ceiling `q` of `a / d` satisfies `d·(q − 1) < a ≤ d·q` |
| Heatmap.IntensityExact | src/components/analytics/CalendarHeatmap.tsx:28-41 | for positive count and maximum, the intensity is `k` in 1..4 exactly when `count / max` lies in `((k−1)/4, k/4]`, the last shade taking all above three quarters |
| Heatmap.ColorIntensityFacts | src/components/analytics/CalendarHeatmap.tsx:26-42 | a zero count is `bg-slate-100`; a positive count is one of the four blue classes; a count at the maximum is `bg-blue-400` |
| Heatmap.IntensityMonotone | src/components/analytics/CalendarHeatmap.tsx:28 | a larger count never gets a lower intensity |
| Heatmap.ConsistencyCells | src/components/analytics/CalendarHeatmap.tsx:20-57 | over the consistency series a day's cell shows its entry count, is grey exactly when the day has no entries, and is the darkest blue on a busiest day |

## Left out

- The database query, the session check, the HTTP responses and the `startDate` derived from the timeframe (src/app/api/analytics/route.ts:7-64, 116-122). The model starts from the entries the query returns.
- Date handling.
  - `format(createdAt, 'yyyy-MM-dd')`, `format(createdAt, 'yyyy-MM')` and `getHours()` depend on the time zone. They are fields of the entry: `day`, `month` and `hour`.
  - `createdAt` is integer milliseconds.
  - The chart's `format(parseISO(date), 'MMM d')` is an abstract function parameter.
- The heatmap's 91 calendar days around today: they need the clock. The model gives the class of any one date's cell.
- JavaScript object key order. `Object.entries` lists integer-like keys before other keys. The model uses first-seen order throughout, which is what the source gets for non-numeric date, mood, category and tag names.
- Inherited property names. A mood, category or tag named like an `Object.prototype` member (`constructor`, say) makes `!acc[key]` false at first sight. The model ignores this.
- Aggregator.MoodDistribution: each line item is `{ date, ...moods }`. A mood literally named `date` would overwrite the date. The model keeps the date and the mood counts apart.
- Character semantics.
  - `toLowerCase` is modelled for ASCII letters only.
  - Lengths count characters, not UTF-16 code units.
  - `\W` and `\s` follow the JavaScript classes, including the Unicode spaces of `\s`.
- Analyzer.AnalyzeSentiment: the mood is any member of the matching list. `Math.random` is a nondeterministic choice, not a distribution.
- Analyzer.AnalyzeSentiment: `parseFloat(score.toFixed(2))` is not modelled. The score is the exact quotient.
- Analyzer.ScoreBound: the bound is stated for at most 100 words only. With more words the divisor stays at 100, so 101 occurrences of "happy" give 1.01, despite the comment promising a score between −1 and 1.
- Analyzer.ScoreWithin: the same bound as ScoreBound, stated on the counts, for at most 100 words only.
- Insights.LengthRuleExact: the rule is stated over exact rationals. The source compares doubles, and at both boundaries those can differ.
  - At 1.5×: with 9 entries, 34 characters in total and 17 in the last three, the exact values are equal (no insight), but the double comparison fires "entry-length-long".
  - At 0.7×: with 21 entries, 410 characters in total and 41 in the last three, the exact values are equal (no insight), but `41 / 3` rounds below `(410 / 21) * 0.7` in doubles, which fires "entry-length-short"; 42 entries with 820 and 41, and 21 entries with 820 and 82, behave the same way.
- Insights.CorrelationInsights: the JavaScript guard `percentage > 70` on a category total of zero cannot arise, because every category in the record has at least one mood. The model's `total > 0` test reflects that.
- Floating-point elsewhere. `Math.round`, `Math.ceil`, the average-gap limits and the percentage thresholds are exact integer formulas. The model does not claim they agree with the double computations at the exact thresholds, where rounding of the quotient may decide the comparison.
- The tag cloud's font-size and opacity interpolation belongs to the React component, which is not part of this model.
