/**
 * A journal entry as the analytics route receives it: the creation time in
 * milliseconds since the epoch, its local-time calendar keys and hour (the
 * values `format(createdAt, 'yyyy-MM-dd')`, `format(createdAt, 'yyyy-MM')`
 * and `getHours()` would produce), the optional mood, the rich-text content
 * and the category and tag associations.
 */
module Journal {

  import opened Wrappers

  datatype CategoryLink = CategoryLink(name: string, color: string, primary: bool)

  datatype Entry = Entry(
    createdAt: int,
    day: string,
    month: string,
    hour: int,
    mood: Option<string>,
    content: string,
    categories: seq<CategoryLink>,
    tags: seq<string>)

  const NotSpecified := "Not specified"

  /** A mood counts as present when it is a non-empty string (JavaScript truthiness). */
  predicate HasMood(e: Entry)
  {
    e.mood.Some? && e.mood.value != ""
  }

  /** `entry.mood || 'Not specified'`. */
  function MoodLabel(e: Entry): (m: string)
    ensures m != ""
    ensures HasMood(e) ==> m == e.mood.value
    ensures !HasMood(e) ==> m == NotSpecified
  {
    if HasMood(e) then e.mood.value else NotSpecified
  }

  /** The frequency chart groups by month for the long timeframes, by day otherwise. */
  function FrequencyKey(e: Entry, timeframe: string): string
  {
    if timeframe == "year" || timeframe == "all" then e.month else e.day
  }

  /** The mood line chart groups by month for a year, by day otherwise. */
  function LineKey(e: Entry, timeframe: string): string
  {
    if timeframe == "year" then e.month else e.day
  }

  /** `entries.map(f)` for the per-entry keys used by the aggregations. */
  function FrequencyKeys(entries: seq<Entry>, timeframe: string): seq<string>
  {
    seq(|entries|, i requires 0 <= i < |entries| => FrequencyKey(entries[i], timeframe))
  }

  function Days(entries: seq<Entry>): seq<string>
  {
    seq(|entries|, i requires 0 <= i < |entries| => entries[i].day)
  }

  function MoodLabels(entries: seq<Entry>): seq<string>
  {
    seq(|entries|, i requires 0 <= i < |entries| => MoodLabel(entries[i]))
  }

  /** Every tag name of every entry, in order. */
  function AllTags(entries: seq<Entry>): seq<string>
  {
    if entries == [] then [] else entries[0].tags + AllTags(entries[1..])
  }
}
