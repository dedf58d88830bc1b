/**
 * The heuristic text analyzer behind entry analysis: a word-list sentiment
 * with a suggested mood, and tag suggestions from the most frequent longer
 * words of the text that are not stop words and not already tags.
 */
module Analyzer {

  import opened Text
  import opened Counting
  import opened Ordering
  import opened Ratio

  const PositiveWords: seq<string> := [
    "happy", "joy", "excited", "wonderful", "great", "good", "excellent",
    "amazing", "love", "enjoy", "pleased", "delighted", "grateful", "thankful"
  ]

  const NegativeWords: seq<string> := [
    "sad", "angry", "upset", "terrible", "bad", "awful", "horrible",
    "hate", "dislike", "disappointed", "worry", "anxious", "stressed",
    "tired", "exhausted", "frustrated"
  ]

  const PositiveMoods: seq<string> := ["Happy", "Excited", "Productive", "Calm"]

  const NegativeMoods: seq<string> := ["Sad", "Angry", "Stressed", "Anxious", "Tired"]

  const StopWords: set<string> := {
    "a", "an", "the", "and", "but", "or", "for", "nor", "on", "at", "to", "by",
    "is", "are", "was", "were", "be", "been", "being", "in", "that", "this",
    "it", "i", "my", "me", "mine", "you", "your", "yours", "he", "she", "they"
  }

  datatype Sentiment = Positive | Negative | Neutral

  datatype SentimentAnalysis = SentimentAnalysis(sentiment: Sentiment, score: real, suggestedMood: string)

  datatype Analysis = Analysis(
    sentiment: Sentiment,
    sentimentScore: real,
    suggestedMood: string,
    suggestedTags: seq<string>)

  /** The words of a text: lower-cased, markup replaced by a space, split on non-word runs. */
  function Tokens(text: string): seq<string>
  {
    WordTokens(StripMarkup(Lower(text)))
  }

  /** The number of `words` found in `list`. */
  function CountIn(words: seq<string>, list: seq<string>): (n: nat)
    ensures n <= |words|
  {
    if words == [] then 0
    else CountIn(words[..|words| - 1], list) + (if words[|words| - 1] in list then 1 else 0)
  }

  /** `totalWords > 0 ? totalSentiment / Math.min(totalWords, 100) : 0`, exactly. */
  function Score(pos: nat, neg: nat, totalWords: nat): real
  {
    if totalWords > 0 then (pos as int - neg as int) as real / Min(totalWords, 100) as real else 0.0
  }

  /* ---------- sentiment ---------- */

  /** The `forEach` over the words that counts positive and negative ones. */
  method CountSentimentWords(words: seq<string>) returns (positiveCount: nat, negativeCount: nat)
    ensures positiveCount == CountIn(words, PositiveWords)
    ensures negativeCount == CountIn(words, NegativeWords)
  {
    positiveCount, negativeCount := 0, 0;
    for i := 0 to |words|
      invariant positiveCount == CountIn(words[..i], PositiveWords)
      invariant negativeCount == CountIn(words[..i], NegativeWords)
    {
      var word := words[i];
      if word in PositiveWords {
        positiveCount := positiveCount + 1;
      }
      if word in NegativeWords {
        negativeCount := negativeCount + 1;
      }
      assert words[..i + 1][..i] == words[..i];
    }
    assert words[..|words|] == words;
  }

  /**
   * `analyzeSentiment`: the polarity follows the sign of positive minus
   * negative words, the suggested mood is one of the moods of that polarity
   * (any of them: the source picks one at random), and the score is the
   * balance over the number of words, capped at 100.
   */
  method AnalyzeSentiment(text: string) returns (a: SentimentAnalysis)
    ensures var words := Tokens(text);
      var p, n := CountIn(words, PositiveWords), CountIn(words, NegativeWords);
      && (a.sentiment == Positive <==> p > n)
      && (a.sentiment == Negative <==> p < n)
      && (a.sentiment == Neutral <==> p == n)
      && (a.sentiment == Positive ==> a.suggestedMood in PositiveMoods)
      && (a.sentiment == Negative ==> a.suggestedMood in NegativeMoods)
      && (a.sentiment == Neutral ==> a.suggestedMood == "Neutral")
      && a.score == Score(p, n, |words|)
  {
    var words := Tokens(text);
    var positiveCount, negativeCount := CountSentimentWords(words);
    var totalSentiment := positiveCount as int - negativeCount as int;
    var sentiment, suggestedMood;
    if totalSentiment > 0 {
      sentiment := Positive;
      var k :| 0 <= k < |PositiveMoods|;
      suggestedMood := PositiveMoods[k];
    } else if totalSentiment < 0 {
      sentiment := Negative;
      var k :| 0 <= k < |NegativeMoods|;
      suggestedMood := NegativeMoods[k];
    } else {
      sentiment := Neutral;
      suggestedMood := "Neutral";
    }
    var totalWords := |words|;
    var score := if totalWords > 0 then totalSentiment as real / Min(totalWords, 100) as real else 0.0;
    a := SentimentAnalysis(sentiment, score, suggestedMood);
  }

  /**
   * The score is 0 without words, and lies in [-1, 1] whenever the text
   * has at most 100 words.
   */
  lemma ScoreBound(text: string)
    ensures var words := Tokens(text);
      var s := Score(CountIn(words, PositiveWords), CountIn(words, NegativeWords), |words|);
      && (words == [] ==> s == 0.0)
      && (|words| <= 100 ==> -1.0 <= s <= 1.0)
  {
    var words := Tokens(text);
    ScoreWithin(CountIn(words, PositiveWords), CountIn(words, NegativeWords), |words|);
  }

  /** Counts no larger than the number of words give a score in [-1, 1] up to 100 words. */
  lemma ScoreWithin(p: nat, n: nat, total: nat)
    requires p <= total && n <= total
    ensures total == 0 ==> Score(p, n, total) == 0.0
    ensures total <= 100 ==> -1.0 <= Score(p, n, total) <= 1.0
  {
    if 0 < total <= 100 {
      var m := total as real;
      var balance := (p as int - n as int) as real;
      assert Min(total, 100) as real == m;
      assert -m <= balance <= m;
      DivCompare(balance, m, 1.0);
      DivCompare(balance, m, -1.0);
    }
  }

  /* ---------- tags ---------- */

  /** A word long enough and not a stop word. */
  predicate Candidate(w: string)
  {
    |w| > 3 && w !in StopWords
  }

  /** `words.filter(word => word.length > 3 && !stopWords.has(word))`. */
  function Candidates(words: seq<string>): (r: seq<string>)
    ensures forall w :: w in r ==> Candidate(w) && w in words
  {
    if words == [] then []
    else (if Candidate(words[0]) then [words[0]] else []) + Candidates(words[1..])
  }

  /** Every candidate word of the input is kept as often as it occurs, and nothing else. */
  lemma {:induction false} CandidatesCount(words: seq<string>, w: string)
    ensures multiset(Candidates(words))[w] == if Candidate(w) then multiset(words)[w] else 0
  {
    if words != [] {
      assert words == [words[0]] + words[1..];
      CandidatesCount(words[1..], w);
    }
  }

  /** The filter works word by word: the candidates of a concatenation are concatenated. */
  lemma {:induction false} CandidatesAppend(a: seq<string>, b: seq<string>)
    ensures Candidates(a + b) == Candidates(a) + Candidates(b)
  {
    if a == [] {
      assert a + b == b;
    } else {
      assert (a + b)[0] == a[0] && (a + b)[1..] == a[1..] + b;
      CandidatesAppend(a[1..], b);
    }
  }

  function LowerAll(ss: seq<string>): seq<string>
  {
    seq(|ss|, i requires 0 <= i < |ss| => Lower(ss[i]))
  }

  /** The number of times `w` is a candidate word of `text`. */
  function Frequency(text: string, w: string): nat
  {
    multiset(Candidates(Tokens(text)))[w]
  }

  /** What `extractTags` returns: the ten most frequent candidates, minus existing tags. */
  function SuggestedTags(text: string, existingTags: seq<string>): seq<string>
  {
    Without(Keys(TopCounts(Candidates(Tokens(text)), 10)), LowerAll(existingTags))
  }

  /**
   * `tags.filter(tag => !existing.includes(tag))`: members of the input only,
   * none of them excluded.
   */
  function Without(tags: seq<string>, existing: seq<string>): seq<string>
  {
    if tags == [] then []
    else (if tags[0] in existing then [] else [tags[0]]) + Without(tags[1..], existing)
  }

  /** The filter keeps only input tags, none of them excluded, and never adds any. */
  lemma {:induction false} WithoutFacts(tags: seq<string>, existing: seq<string>)
    ensures |Without(tags, existing)| <= |tags|
    ensures forall t :: t in Without(tags, existing) ==> t in tags && t !in existing
  {
    if tags != [] {
      WithoutFacts(tags[1..], existing);
      assert forall t :: t in tags[1..] ==> t in tags;
    }
  }

  /** Every tag not excluded is kept as often as it occurs, and no excluded one. */
  lemma {:induction false} WithoutCount(tags: seq<string>, existing: seq<string>, t: string)
    ensures multiset(Without(tags, existing))[t] == if t in existing then 0 else multiset(tags)[t]
  {
    if tags != [] {
      assert tags == [tags[0]] + tags[1..];
      WithoutCount(tags[1..], existing, t);
    }
  }

  /** The filter works tag by tag: the kept tags of a concatenation are concatenated. */
  lemma {:induction false} WithoutAppend(a: seq<string>, b: seq<string>, existing: seq<string>)
    ensures Without(a + b, existing) == Without(a, existing) + Without(b, existing)
  {
    if a == [] {
      assert a + b == b;
    } else {
      var h := if a[0] in existing then [] else [a[0]];
      assert (a + b)[0] == a[0] && (a + b)[1..] == a[1..] + b;
      assert Without(a + b, existing) == h + Without(a[1..] + b, existing);
      WithoutAppend(a[1..], b, existing);
      assert h + (Without(a[1..], existing) + Without(b, existing))
          == (h + Without(a[1..], existing)) + Without(b, existing);
    }
  }

  lemma TailDistinct(s: seq<string>)
    requires |s| > 0 && NoDuplicates(s)
    ensures NoDuplicates(s[1..]) && s[0] !in s[1..]
  {
    forall i, j | 0 <= i < j < |s| - 1 ensures s[1..][i] != s[1..][j] {
      assert s[1..][i] == s[i + 1] && s[1..][j] == s[j + 1];
    }
  }

  /** Filtering keeps distinctness. */
  lemma {:induction false} WithoutDistinct(tags: seq<string>, existing: seq<string>)
    requires NoDuplicates(tags)
    ensures NoDuplicates(Without(tags, existing))
  {
    if tags != [] {
      TailDistinct(tags);
      WithoutDistinct(tags[1..], existing);
      WithoutFacts(tags[1..], existing);
    }
  }

  /** Non-increasing by `rank`. */
  predicate Ranked(s: seq<string>, rank: string -> nat)
  {
    forall i, j :: 0 <= i < j < |s| ==> rank(s[i]) >= rank(s[j])
  }

  /** Filtering keeps an order by rank. */
  lemma {:induction false} WithoutRanked(tags: seq<string>, existing: seq<string>, rank: string -> nat)
    requires Ranked(tags, rank)
    ensures Ranked(Without(tags, existing), rank)
  {
    if tags != [] {
      var rest := tags[1..];
      forall i, j | 0 <= i < j < |rest| ensures rank(rest[i]) >= rank(rest[j]) {
        assert rest[i] == tags[i + 1] && rest[j] == tags[j + 1];
      }
      WithoutRanked(rest, existing, rank);
      WithoutFacts(rest, existing);
      var wr := Without(rest, existing);
      forall t | t in wr ensures rank(tags[0]) >= rank(t) {
        var k :| 0 <= k < |rest| && rest[k] == t;
        assert tags[k + 1] == t;
      }
    }
  }

  /**
   * The suggested tags are at most ten distinct candidate words of the text,
   * most frequent first, none equal to an existing tag once that tag is
   * lower-cased.
   */
  lemma SuggestedTagsFacts(text: string, existingTags: seq<string>)
    ensures var tags := SuggestedTags(text, existingTags);
      && |tags| <= 10
      && NoDuplicates(tags)
      && (forall t :: t in tags ==> Candidate(t) && t in Tokens(text))
      && (forall t :: t in tags ==> forall e :: e in existingTags ==> t != Lower(e))
      && Ranked(tags, w => Frequency(text, w))
    ensures forall w :: w in Keys(TopCounts(Candidates(Tokens(text)), 10)) && IsNew(w, existingTags) ==>
      w in SuggestedTags(text, existingTags)
    ensures forall w, t ::
      (w in Tokens(text) && Candidate(w) && IsNew(w, existingTags) &&
       w !in SuggestedTags(text, existingTags) && t in SuggestedTags(text, existingTags)) ==>
      Frequency(text, w) <= Frequency(text, t)
  {
    SuggestedTagsSound(text, existingTags);
    SuggestedTagsComplete(text, existingTags);
  }

  /** `w` equals no existing tag once that tag is lower-cased. */
  predicate IsNew(w: string, existingTags: seq<string>)
  {
    forall e :: e in existingTags ==> w != Lower(e)
  }

  /**
   * Every word of the top ten that is not an existing tag is suggested, so
   * no new candidate word left out is more frequent than a suggested one.
   */
  lemma SuggestedTagsComplete(text: string, existingTags: seq<string>)
    ensures forall w :: w in Keys(TopCounts(Candidates(Tokens(text)), 10)) && IsNew(w, existingTags) ==>
      w in SuggestedTags(text, existingTags)
    ensures forall w, t ::
      (w in Tokens(text) && Candidate(w) && IsNew(w, existingTags) &&
       w !in SuggestedTags(text, existingTags) && t in SuggestedTags(text, existingTags)) ==>
      Frequency(text, w) <= Frequency(text, t)
  {
    var words := Candidates(Tokens(text));
    var potentialTags := Keys(TopCounts(words, 10));
    var existingTagsLower := LowerAll(existingTags);
    WithoutFacts(potentialTags, existingTagsLower);
    forall w | w in potentialTags && IsNew(w, existingTags) ensures w in SuggestedTags(text, existingTags) {
      NewNotLowered(w, existingTags);
      WithoutKeeps(potentialTags, existingTagsLower, w);
    }
    forall w, t | w in Tokens(text) && Candidate(w) && IsNew(w, existingTags) &&
      w !in SuggestedTags(text, existingTags) && t in SuggestedTags(text, existingTags)
      ensures Frequency(text, w) <= Frequency(text, t)
    {
      CandidatesCount(Tokens(text), w);
      NewNotLowered(w, existingTags);
      if w in potentialTags {
        WithoutKeeps(potentialTags, existingTagsLower, w);
      }
      TopLeftOut(words, 10, w, t);
    }
  }

  lemma NewNotLowered(w: string, existingTags: seq<string>)
    requires IsNew(w, existingTags)
    ensures w !in LowerAll(existingTags)
  {
  }

  lemma WithoutKeeps(tags: seq<string>, existing: seq<string>, w: string)
    requires w in tags && w !in existing
    ensures w in Without(tags, existing)
  {
    WithoutCount(tags, existing, w);
    assert multiset(Without(tags, existing))[w] > 0;
  }

  /** The suggested tags: few, distinct, candidate words, new, and ranked by frequency. */
  lemma SuggestedTagsSound(text: string, existingTags: seq<string>)
    ensures var tags := SuggestedTags(text, existingTags);
      && |tags| <= 10
      && NoDuplicates(tags)
      && (forall t :: t in tags ==> Candidate(t) && t in Tokens(text))
      && (forall t :: t in tags ==> forall e :: e in existingTags ==> t != Lower(e))
      && Ranked(tags, w => Frequency(text, w))
  {
    var words := Candidates(Tokens(text));
    var top := TopCounts(words, 10);
    var potentialTags := Keys(top);
    var existingTagsLower := LowerAll(existingTags);
    var tags := Without(potentialTags, existingTagsLower);
    var rank := (w: string) => Frequency(text, w);
    TopCountsFacts(words, 10);
    forall i, j | 0 <= i < j < |potentialTags| ensures rank(potentialTags[i]) >= rank(potentialTags[j]) {
      assert potentialTags[i] == top[i].0 && potentialTags[j] == top[j].0;
    }
    WithoutFacts(potentialTags, existingTagsLower);
    WithoutRanked(potentialTags, existingTagsLower, rank);
    WithoutDistinct(potentialTags, existingTagsLower);
    forall t | t in tags ensures Candidate(t) && t in Tokens(text) {
      var i :| 0 <= i < |potentialTags| && potentialTags[i] == t;
      assert top[i].0 in words;
    }
    forall t, e | t in tags && e in existingTags ensures t != Lower(e) {
      var k :| 0 <= k < |existingTags| && existingTags[k] == e;
      assert existingTagsLower[k] == Lower(e);
    }
  }

  /**
   * `extractTags`: normalize, keep the candidate words, count them in a map,
   * sort by count, keep ten and drop the existing tags.
   */
  method ExtractTags(text: string, existingTags: seq<string>) returns (tags: seq<string>)
    ensures tags == SuggestedTags(text, existingTags)
  {
    var normalizedText := StripMarkup(Lower(text));
    var words := Candidates(WordTokens(normalizedText));
    var wordFrequency := CountKeys(words);
    var potentialTags := Keys(Take(SortDesc(wordFrequency), 10));
    var existingTagsLower := LowerAll(existingTags);
    tags := Without(potentialTags, existingTagsLower);
  }

  /**
   * `analyzeEntryContent`: the sentiment of the content and the first five
   * suggested tags.
   */
  method AnalyzeEntryContent(content: string, existingTags: seq<string>) returns (r: Analysis)
    ensures r.suggestedTags == Take(SuggestedTags(content, existingTags), 5)
    ensures |r.suggestedTags| <= 5
    ensures forall t :: t in r.suggestedTags ==> Candidate(t) && t in Tokens(content)
    ensures var words := Tokens(content);
      var p, n := CountIn(words, PositiveWords), CountIn(words, NegativeWords);
      && (r.sentiment == Positive <==> p > n)
      && (r.sentiment == Negative <==> p < n)
      && r.sentimentScore == Score(p, n, |words|)
      && (r.sentiment == Positive ==> r.suggestedMood in PositiveMoods)
      && (r.sentiment == Negative ==> r.suggestedMood in NegativeMoods)
      && (r.sentiment == Neutral ==> r.suggestedMood == "Neutral")
  {
    var sentimentAnalysis := AnalyzeSentiment(content);
    var tags := ExtractTags(content, existingTags);
    var suggestedTags := Take(tags, 5);
    SuggestedTagsFacts(content, existingTags);
    r := Analysis(sentimentAnalysis.sentiment, sentimentAnalysis.score, sentimentAnalysis.suggestedMood, suggestedTags);
  }

  /* ---------- markup ---------- */

  lemma LowerKeeps(s: string, c: char)
    requires c !in s && !('A' <= c <= 'Z') && !('a' <= c <= 'z')
    ensures c !in Lower(s)
  {
    forall i | 0 <= i < |s| ensures Lower(s)[i] != c {
      assert s[i] != c;
    }
  }

  /**
   * A `<...>` run separates the words on either side and contributes none of
   * its own.
   */
  lemma MarkupIsSeparator(a: string, m: string, b: string)
    requires '<' !in a && '>' !in m && |m| > 0
    ensures Tokens(a + ['<'] + m + ['>'] + b) == Tokens(a) + Tokens(b)
  {
    var la, lm, lb := Lower(a), Lower(m), Lower(b);
    assert Lower(a + ['<'] + m + ['>'] + b) == la + ['<'] + lm + ['>'] + lb;
    LowerKeeps(a, '<');
    LowerKeeps(m, '>');
    StripMarkupSeparates(la, lm, lb);
    RunsSeparator(la, ' ', StripMarkup(lb), IsWordChar);
    StripMarkupNoOpen(la);
  }
}
