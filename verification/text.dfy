/**
 * Text normalisation shared by the analytics route and the heuristic analyzer:
 * ASCII lower-casing, replacement of `<...>` markup by a space, the runs that
 * `split(/\W+/).filter(Boolean)` and `split(/\s+/).filter(Boolean)` produce,
 * and the `stripHtml` / `wordCount` pair used for the entry-length series.
 */
module Text {

  /* ---------- characters ---------- */

  function LowerChar(c: char): char
  {
    if 'A' <= c <= 'Z' then (c as int + 32) as char else c
  }

  /** `toLowerCase`, for the ASCII letters. */
  function Lower(s: string): (r: string)
    ensures |r| == |s|
    ensures forall i :: 0 <= i < |s| ==> r[i] == LowerChar(s[i])
  {
    seq(|s|, i requires 0 <= i < |s| => LowerChar(s[i]))
  }

  /** A character matched by the regular-expression class `\w`. */
  predicate IsWordChar(c: char)
  {
    ('a' <= c <= 'z') || ('A' <= c <= 'Z') || ('0' <= c <= '9') || c == '_'
  }

  /** A character matched by the regular-expression class `\s` (and removed by `trim`). */
  predicate IsSpace(c: char)
  {
    var n := c as int;
    (9 <= n <= 13) || n == 32 || n == 0xA0 || n == 0x1680 || (0x2000 <= n <= 0x200A)
    || n == 0x2028 || n == 0x2029 || n == 0x202F || n == 0x205F || n == 0x3000 || n == 0xFEFF
  }

  predicate NotSpace(c: char)
  {
    !IsSpace(c)
  }

  /* ---------- markup: replace(/<[^>]+>/g, ' ') ---------- */

  /** Index of the first occurrence of `c` in `s`. */
  function IndexOf(s: string, c: char): (k: nat)
    requires c in s
    ensures k < |s| && s[k] == c && c !in s[..k]
  {
    if s[0] == c then 0 else
      assert s == [s[0]] + s[1..];
      1 + IndexOf(s[1..], c)
  }

  /** The first `c` of `m + [c] + rest`, when `m` has none, is right after `m`. */
  lemma {:induction false} IndexOfAfter(m: string, c: char, rest: string)
    requires c !in m
    ensures IndexOf(m + [c] + rest, c) == |m|
  {
    if m != [] {
      assert (m + [c] + rest)[1..] == m[1..] + [c] + rest;
      IndexOfAfter(m[1..], c, rest);
    }
  }

  /** True when the pattern `<[^>]+>` matches at index `i` of `s`. */
  predicate MarkupAt(s: string, i: nat)
  {
    i + 1 < |s| && s[i] == '<' && s[i + 1] != '>' && '>' in s[i + 1..]
  }

  /**
   * Every leftmost, non-overlapping match of `<[^>]+>` replaced by one space.
   * A match runs from a `<` to the first `>` after it and needs at least one
   * character in between.
   */
  function StripMarkup(s: string): string
    decreases |s|
  {
    if s == [] then []
    else if MarkupAt(s, 0) then
      var j := 1 + IndexOf(s[1..], '>');
      [' '] + StripMarkup(s[j + 1..])
    else
      [s[0]] + StripMarkup(s[1..])
  }

  /** No match of `<[^>]+>` is left in `s`. */
  ghost predicate MarkupFree(s: string)
  {
    forall i: nat :: i < |s| ==> !MarkupAt(s, i)
  }

  /** Text without `<` is left untouched. */
  lemma {:induction false} StripMarkupNoOpen(s: string)
    requires '<' !in s
    ensures StripMarkup(s) == s
  {
    if s != [] {
      assert s[1..] == s[..][1..];
      assert '<' !in s[1..] by {
        forall k | 0 <= k < |s[1..]| ensures s[1..][k] != '<' { assert s[1..][k] == s[k + 1]; }
      }
      StripMarkupNoOpen(s[1..]);
    }
  }

  lemma {:induction false} StripMarkupKeepsNoClose(s: string)
    requires '>' !in s
    ensures '>' !in StripMarkup(s)
  {
    if s != [] {
      assert !MarkupAt(s, 0);
      assert forall k :: 0 <= k < |s[1..]| ==> s[1..][k] == s[k + 1];
      StripMarkupKeepsNoClose(s[1..]);
    }
  }

  lemma MarkupAtShift(c: char, t: string, i: nat)
    requires i < |t|
    ensures MarkupAt([c] + t, i + 1) == MarkupAt(t, i)
  {
    var s := [c] + t;
    assert s[i + 1..] == t[i..];
    assert s[i + 2..] == t[i + 1..];
  }

  /** Nothing that the pattern would still match survives the replacement. */
  lemma {:induction false} StripMarkupIsMarkupFree(s: string)
    ensures MarkupFree(StripMarkup(s))
    decreases |s|
  {
    if s == [] {
    } else if MarkupAt(s, 0) {
      var j := 1 + IndexOf(s[1..], '>');
      var t := StripMarkup(s[j + 1..]);
      StripMarkupIsMarkupFree(s[j + 1..]);
      forall i: nat | i < |[' '] + t| ensures !MarkupAt([' '] + t, i) {
        if i > 0 { MarkupAtShift(' ', t, i - 1); }
      }
    } else {
      var t := StripMarkup(s[1..]);
      StripMarkupIsMarkupFree(s[1..]);
      forall i: nat | i < |[s[0]] + t| ensures !MarkupAt([s[0]] + t, i) {
        if i > 0 {
          MarkupAtShift(s[0], t, i - 1);
        } else if s[0] == '<' && |s| > 1 {
          var u := [s[0]] + t;
          if s[1] == '>' {
            assert s[1..] == ['>'] + s[2..];
            assert !MarkupAt(s[1..], 0);
            assert t == ['>'] + StripMarkup(s[2..]);
            assert u[1] == '>';
          } else {
            assert '>' !in s[1..];
            StripMarkupKeepsNoClose(s[1..]);
            assert u[1..] == t;
          }
        }
      }
    }
  }

  /** Text with no match left is a fixed point. */
  lemma {:induction false} StripMarkupOfMarkupFree(s: string)
    requires MarkupFree(s)
    ensures StripMarkup(s) == s
    decreases |s|
  {
    if s != [] {
      assert !MarkupAt(s, 0);
      forall i: nat | i < |s[1..]| ensures !MarkupAt(s[1..], i) {
        assert s == [s[0]] + s[1..];
        MarkupAtShift(s[0], s[1..], i);
        assert !MarkupAt(s, i + 1);
      }
      StripMarkupOfMarkupFree(s[1..]);
      assert s == [s[0]] + s[1..];
    }
  }

  /** Replacing markup twice changes nothing more than replacing it once. */
  lemma StripMarkupIdempotent(s: string)
    ensures StripMarkup(StripMarkup(s)) == StripMarkup(s)
  {
    StripMarkupIsMarkupFree(s);
    StripMarkupOfMarkupFree(StripMarkup(s));
  }

  /** A complete `<m>` run at the start becomes one space. */
  lemma MarkupAtStart(m: string, b: string)
    requires '>' !in m && |m| > 0
    ensures StripMarkup(['<'] + m + ['>'] + b) == [' '] + StripMarkup(b)
  {
    var s := ['<'] + m + ['>'] + b;
    assert s[1..] == m + ['>'] + b;
    assert s[1..][|m|] == '>';
    assert MarkupAt(s, 0);
    IndexOfAfter(m, '>', b);
    assert s[|m| + 2..] == b;
  }

  /**
   * A complete `<m>` run (m non-empty, without `>`) after text with no `<`
   * becomes a single space: what lies inside the brackets is gone.
   */
  lemma {:induction false} StripMarkupSeparates(a: string, m: string, b: string)
    requires '<' !in a && '>' !in m && |m| > 0
    ensures StripMarkup(a + ['<'] + m + ['>'] + b) == a + [' '] + StripMarkup(b)
    decreases |a|
  {
    if a == [] {
      assert a + ['<'] + m + ['>'] + b == ['<'] + m + ['>'] + b;
      MarkupAtStart(m, b);
    } else {
      var t := a[1..] + ['<'] + m + ['>'] + b;
      assert a + ['<'] + m + ['>'] + b == [a[0]] + t;
      assert '<' !in a[1..] by {
        forall i | 0 <= i < |a[1..]| ensures a[1..][i] != '<' { assert a[1..][i] == a[i + 1]; }
      }
      StripMarkupSeparates(a[1..], m, b);
      StripMarkupPlain(a[0], t);
      assert [a[0]] + (a[1..] + [' '] + StripMarkup(b)) == a + [' '] + StripMarkup(b);
    }
  }

  /** A character other than `<` at the front is kept as it is. */
  lemma StripMarkupPlain(c: char, t: string)
    requires c != '<'
    ensures StripMarkup([c] + t) == [c] + StripMarkup(t)
  {
    assert ([c] + t)[1..] == t;
  }

  /* ---------- runs: split(sep).filter(Boolean) ---------- */

  function Flush(cur: string): seq<string>
  {
    if cur == [] then [] else [cur]
  }

  /**
   * The maximal non-empty runs of characters satisfying `keep`, where `cur`
   * is the run being built. With `cur == []` this is what `split` on the
   * complement class followed by `filter(Boolean)` returns.
   */
  function RunsFrom(s: string, keep: char -> bool, cur: string): seq<string>
    decreases |s|
  {
    if s == [] then Flush(cur)
    else if keep(s[0]) then RunsFrom(s[1..], keep, cur + [s[0]])
    else Flush(cur) + RunsFrom(s[1..], keep, [])
  }

  function Runs(s: string, keep: char -> bool): seq<string>
  {
    RunsFrom(s, keep, [])
  }

  /** `text.split(/\W+/).filter(Boolean)`. */
  function WordTokens(s: string): seq<string>
  {
    Runs(s, IsWordChar)
  }

  /** `text.split(/\s+/).filter(Boolean)`. */
  function SpaceTokens(s: string): seq<string>
  {
    Runs(s, NotSpace)
  }

  lemma {:induction false} RunsFromShape(s: string, keep: char -> bool, cur: string)
    requires forall c :: c in cur ==> keep(c)
    ensures forall r :: r in RunsFrom(s, keep, cur) ==> |r| > 0 && forall c :: c in r ==> keep(c)
    decreases |s|
  {
    if s != [] {
      if keep(s[0]) {
        RunsFromShape(s[1..], keep, cur + [s[0]]);
      } else {
        RunsFromShape(s[1..], keep, []);
      }
    }
  }

  /** Every run is non-empty and made only of kept characters. */
  lemma RunsShape(s: string, keep: char -> bool)
    ensures forall r :: r in Runs(s, keep) ==> |r| > 0 && forall c :: c in r ==> keep(c)
  {
    RunsFromShape(s, keep, []);
  }

  lemma {:induction false} RunsFromSeparator(x: string, c: char, y: string, keep: char -> bool, cur: string)
    requires !keep(c)
    ensures RunsFrom(x + [c] + y, keep, cur) == RunsFrom(x, keep, cur) + RunsFrom(y, keep, [])
    decreases |x|
  {
    var s := x + [c] + y;
    if x == [] {
      assert s[1..] == y;
    } else {
      assert s[0] == x[0] && s[1..] == x[1..] + [c] + y;
      if keep(x[0]) {
        RunsFromSeparator(x[1..], c, y, keep, cur + [x[0]]);
      } else {
        RunsFromSeparator(x[1..], c, y, keep, []);
      }
    }
  }

  /** A separator character splits the runs of the two sides apart. */
  lemma RunsSeparator(x: string, c: char, y: string, keep: char -> bool)
    requires !keep(c)
    ensures Runs(x + [c] + y, keep) == Runs(x, keep) + Runs(y, keep)
  {
    RunsFromSeparator(x, c, y, keep, []);
  }

  /* ---------- stripHtml and wordCount ---------- */

  /** The input with its leading whitespace removed. */
  function SkipSpace(s: string): (r: string)
    ensures |r| <= |s|
    ensures r == [] || !IsSpace(r[0])
  {
    if s != [] && IsSpace(s[0]) then SkipSpace(s[1..]) else s
  }

  /** `replace(/\s+/g, ' ')`: each maximal whitespace run becomes one space. */
  function Collapse(s: string): string
    decreases |s|
  {
    if s == [] then []
    else if IsSpace(s[0]) then [' '] + Collapse(SkipSpace(s[1..]))
    else [s[0]] + Collapse(s[1..])
  }

  /** The input with its trailing whitespace removed. */
  function TrimEnd(s: string): (r: string)
    ensures |r| <= |s|
    ensures r == [] || !IsSpace(r[|r| - 1])
  {
    if s != [] && IsSpace(s[|s| - 1]) then TrimEnd(s[..|s| - 1]) else s
  }

  /** `trim()`. */
  function Trim(s: string): string
  {
    TrimEnd(SkipSpace(s))
  }

  /** `stripHtml` of the analytics route: markup to spaces, whitespace collapsed, trimmed. */
  function StripHtml(html: string): string
  {
    Trim(Collapse(StripMarkup(html)))
  }

  /** `wordCount` of the analytics route. */
  function WordCount(text: string): nat
  {
    |SpaceTokens(text)|
  }

  lemma {:induction false} RunsFromSkipSpace(s: string)
    ensures RunsFrom(s, NotSpace, []) == RunsFrom(SkipSpace(s), NotSpace, [])
  {
    if s != [] && IsSpace(s[0]) {
      RunsFromSkipSpace(s[1..]);
    }
  }

  lemma {:induction false} RunsFromCollapse(s: string, cur: string)
    ensures RunsFrom(Collapse(s), NotSpace, cur) == RunsFrom(s, NotSpace, cur)
    decreases |s|
  {
    if s == [] {
    } else if IsSpace(s[0]) {
      var rest := SkipSpace(s[1..]);
      var c := Collapse(s);
      assert c == [' '] + Collapse(rest);
      assert c[1..] == Collapse(rest);
      RunsFromCollapse(rest, []);
      RunsFromSkipSpace(s[1..]);
    } else {
      var c := Collapse(s);
      assert c[0] == s[0] && c[1..] == Collapse(s[1..]);
      RunsFromCollapse(s[1..], cur + [s[0]]);
    }
  }

  lemma {:induction false} RunsTrimEnd(s: string)
    ensures Runs(TrimEnd(s), NotSpace) == Runs(s, NotSpace)
    decreases |s|
  {
    if s != [] && IsSpace(s[|s| - 1]) {
      var p := s[..|s| - 1];
      RunsTrimEnd(p);
      assert s == p + [s[|s| - 1]] + [];
      RunsSeparator(p, s[|s| - 1], [], NotSpace);
    }
  }

  /** Collapsing and trimming whitespace do not change which words there are. */
  lemma StripHtmlWords(html: string)
    ensures SpaceTokens(StripHtml(html)) == SpaceTokens(StripMarkup(html))
  {
    var c := Collapse(StripMarkup(html));
    RunsFromCollapse(StripMarkup(html), []);
    RunsFromSkipSpace(c);
    RunsTrimEnd(SkipSpace(c));
  }

  /** The entry word count: the whitespace-separated words once markup is replaced. */
  lemma WordCountOfStripped(html: string)
    ensures WordCount(StripHtml(html)) == |SpaceTokens(StripMarkup(html))|
    ensures forall w :: w in SpaceTokens(StripHtml(html)) ==> |w| > 0 && forall c :: c in w ==> !IsSpace(c)
  {
    StripHtmlWords(html);
    RunsShape(StripMarkup(html), NotSpace);
  }
}
