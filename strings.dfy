/**
 * The pieces of Rust's `str` and formatting behaviour that the core relies on:
 * `starts_with`, `trim` (Unicode White_Space), `lines()`, `split(':').nth(1)`,
 * `trim_end_matches`, and decimal rendering of integers with `{}` and `{:02}`.
 * Strings are sequences of Unicode scalar values, as Rust's `char`s are.
 */
module Strings {
  import opened Prelude

  predicate StartsWith(s: string, prefix: string) {
    |prefix| <= |s| && s[..|prefix|] == prefix
  }

  predicate EndsWith(s: string, suffix: string) {
    |suffix| <= |s| && s[|s| - |suffix|..] == suffix
  }

  /** `t` occurs somewhere inside `s` (Rust `str::contains`). */
  predicate Contains(s: string, t: string) {
    exists i :: 0 <= i <= |s| && StartsWith(s[i..], t)
  }

  /** Rust's `char::is_whitespace`: the Unicode White_Space property. */
  predicate IsWhitespace(c: char) {
    ('\t' <= c && c <= '\r') || c == ' ' || c == '\U{85}' || c == '\U{A0}' || c == '\U{1680}'
    || ('\U{2000}' <= c && c <= '\U{200A}') || c == '\U{2028}' || c == '\U{2029}'
    || c == '\U{202F}' || c == '\U{205F}' || c == '\U{3000}'
  }

  /** Neither end of `s` is whitespace: `trim` leaves it as it is. */
  predicate Trimmed(s: string) {
    s == [] || (!IsWhitespace(s[0]) && !IsWhitespace(s[|s| - 1]))
  }

  predicate AllWhitespace(s: string) {
    forall k :: 0 <= k < |s| ==> IsWhitespace(s[k])
  }

  lemma AllWhitespaceJoin(a: string, b: string)
    requires AllWhitespace(a) && AllWhitespace(b)
    ensures AllWhitespace(a + b)
  {
    forall k | 0 <= k < |a + b|
      ensures IsWhitespace((a + b)[k])
    {
      if k < |a| {
        assert (a + b)[k] == a[k];
      } else {
        assert (a + b)[k] == b[k - |a|];
      }
    }
  }

  /** Rust `str::trim_start`. */
  function TrimStart(s: string): (r: string)
    ensures |r| <= |s| && r == s[|s| - |r|..]
    ensures AllWhitespace(s[..|s| - |r|])
    ensures r == [] || !IsWhitespace(r[0])
  {
    if |s| > 0 && IsWhitespace(s[0]) then
      var r := TrimStart(s[1..]);
      assert s[..|s| - |r|] == [s[0]] + s[1..][..|s| - 1 - |r|];
      AllWhitespaceJoin([s[0]], s[1..][..|s| - 1 - |r|]);
      r
    else
      s
  }

  /** Rust `str::trim_end`. */
  function TrimEnd(s: string): (r: string)
    ensures |r| <= |s| && r == s[..|r|]
    ensures AllWhitespace(s[|r|..])
    ensures r == [] || !IsWhitespace(r[|r| - 1])
  {
    if |s| > 0 && IsWhitespace(s[|s| - 1]) then
      var r := TrimEnd(s[..|s| - 1]);
      assert s[|r|..] == s[..|s| - 1][|r|..] + [s[|s| - 1]];
      AllWhitespaceJoin(s[..|s| - 1][|r|..], [s[|s| - 1]]);
      r
    else
      s
  }

  /** Rust `str::trim`: whitespace removed from both ends, nothing else. */
  function Trim(s: string): (r: string)
    ensures Trimmed(r) && |r| <= |s|
    ensures Trimmed(s) ==> r == s
  {
    TrimEnd(TrimStart(s))
  }

  /** `trim` keeps a slice of its input and removes only whitespace around it. */
  lemma TrimSlice(s: string)
    ensures var r := Trim(s);
            exists i :: 0 <= i <= |s| - |r| && r == s[i..i + |r|]
                        && AllWhitespace(s[..i]) && AllWhitespace(s[i + |r|..])
  {
    WhitespaceAround(s, TrimStart(s), Trim(s));
  }

  /** A prefix `r` of a suffix `t` of `s`, with whitespace cut off on both sides, is a slice of `s`. */
  lemma WhitespaceAround(s: string, t: string, r: string)
    requires |t| <= |s| && t == s[|s| - |t|..] && AllWhitespace(s[..|s| - |t|])
    requires |r| <= |t| && r == t[..|r|] && AllWhitespace(t[|r|..])
    ensures exists i :: 0 <= i <= |s| - |r| && r == s[i..i + |r|]
                        && AllWhitespace(s[..i]) && AllWhitespace(s[i + |r|..])
  {
    var i := |s| - |t|;
    assert r == s[i..i + |r|];
    assert s[i + |r|..] == t[|r|..];
  }

  /** Whitespace in front of a text that does not start with whitespace is all that `trim_start` removes. */
  lemma {:induction false} TrimStartAfterWhitespace(w: string, u: string)
    requires AllWhitespace(w) && (u == [] || !IsWhitespace(u[0]))
    ensures TrimStart(w + u) == u
  {
    if w == [] {
      assert w + u == u;
    } else {
      assert (w + u)[1..] == w[1..] + u;
      TrimStartAfterWhitespace(w[1..], u);
    }
  }

  /** Whitespace after a text that does not end with whitespace is all that `trim_end` removes. */
  lemma {:induction false} TrimEndBeforeWhitespace(u: string, w: string)
    requires AllWhitespace(w) && (u == [] || !IsWhitespace(u[|u| - 1]))
    ensures TrimEnd(u + w) == u
  {
    if w == [] {
      assert u + w == u;
    } else {
      assert (u + w)[..|u + w| - 1] == u + w[..|w| - 1];
      TrimEndBeforeWhitespace(u, w[..|w| - 1]);
    }
  }

  /** `trim` removes exactly the whitespace around a trimmed text. */
  lemma TrimAround(w: string, v: string, w': string)
    requires AllWhitespace(w) && Trimmed(v) && AllWhitespace(w')
    ensures Trim(w + v + w') == v
  {
    if v == [] {
      AllWhitespaceJoin(w, w');
      assert w + v + w' == (w + w') + [];
      TrimStartAfterWhitespace(w + w', []);
    } else {
      assert w + v + w' == w + (v + w');
      TrimStartAfterWhitespace(w, v + w');
      TrimEndBeforeWhitespace(v, w');
    }
  }

  /** Position of the first `c` in `s`. */
  function IndexOf(s: string, c: char): (r: Option<nat>)
    ensures r.None? <==> c !in s
    ensures r.Some? ==> r.value < |s| && s[r.value] == c && c !in s[..r.value]
  {
    if |s| == 0 then None
    else if s[0] == c then Some(0)
    else match IndexOf(s[1..], c)
      case None => None
      case Some(i) =>
        assert s[..i + 1] == [s[0]] + s[1..][..i];
        Some(i + 1)
  }

  /**
   * Rust `s.split(sep).nth(1)`: the text between the first and the second
   * `sep`, or up to the end when there is only one; `None` without any `sep`.
   */
  function SecondField(s: string, sep: char): (r: Option<string>)
    ensures r.None? <==> sep !in s
    ensures r.Some? ==> sep !in r.value
  {
    match IndexOf(s, sep)
    case None => None
    case Some(i) =>
      var rest := s[i + 1..];
      match IndexOf(rest, sep)
      case None => Some(rest)
      case Some(j) => Some(rest[..j])
  }

  /** The second field is exactly the text between the first two separators. */
  lemma SecondFieldBetween(pre: string, mid: string, post: string, sep: char)
    requires sep !in pre && sep !in mid
    ensures SecondField(pre + [sep] + mid + [sep] + post, sep) == Some(mid)
    ensures SecondField(pre + [sep] + mid, sep) == Some(mid)
  {
    var s := pre + [sep] + mid + [sep] + post;
    assert s[|pre|] == sep && s[..|pre|] == pre;
    assert IndexOf(s, sep) == Some(|pre|);
    assert s[|pre| + 1..] == mid + [sep] + post;
    assert (mid + [sep] + post)[|mid|] == sep && (mid + [sep] + post)[..|mid|] == mid;
    assert IndexOf(mid + [sep] + post, sep) == Some(|mid|);
    var t := pre + [sep] + mid;
    assert t[|pre|] == sep && t[..|pre|] == pre;
    assert IndexOf(t, sep) == Some(|pre|);
    assert t[|pre| + 1..] == mid;
  }

  /** `s` is `pat` written `k` times. */
  function Repeat(pat: string, k: nat): (r: string)
    ensures k > 0 ==> |pat| <= |r|
  {
    if k == 0 then [] else Repeat(pat, k - 1) + pat
  }

  /** Rust `str::trim_end_matches(pat)`: every trailing repetition of `pat` is removed. */
  function TrimEndMatches(s: string, pat: string): (r: string)
    requires pat != []
    ensures |r| <= |s| && r == s[..|r|]
    ensures !EndsWith(r, pat)
    ensures !EndsWith(s, pat) ==> r == s
    decreases |s|
  {
    if EndsWith(s, pat) then TrimEndMatches(s[..|s| - |pat|], pat) else s
  }

  lemma RepeatStep(s: string, pat: string, k: nat)
    requires k > 0
    ensures s + Repeat(pat, k) == (s + Repeat(pat, k - 1)) + pat
  {
  }

  /** One trailing copy of the pattern is removed. */
  lemma TrimEndMatchesStep(u: string, pat: string)
    requires pat != []
    ensures TrimEndMatches(u + pat, pat) == TrimEndMatches(u, pat)
  {
    var t := u + pat;
    assert t[|t| - |pat|..] == pat;
    assert t[..|t| - |pat|] == u;
  }

  /** Any number of trailing copies of the pattern are removed, not just one. */
  lemma {:induction false} TrimEndMatchesRepeat(s: string, pat: string, k: nat)
    requires pat != []
    ensures TrimEndMatches(s + Repeat(pat, k), pat) == TrimEndMatches(s, pat)
  {
    if k == 0 {
      assert s + Repeat(pat, k) == s;
    } else {
      calc {
        TrimEndMatches(s + Repeat(pat, k), pat);
        { RepeatStep(s, pat, k); }
        TrimEndMatches((s + Repeat(pat, k - 1)) + pat, pat);
        { TrimEndMatchesStep(s + Repeat(pat, k - 1), pat); }
        TrimEndMatches(s + Repeat(pat, k - 1), pat);
        { TrimEndMatchesRepeat(s, pat, k - 1); }
        TrimEndMatches(s, pat);
      }
    }
  }

  /** What `trim_end_matches` removes is whole copies of the pattern and nothing else. */
  lemma {:induction false} TrimEndMatchesCopies(s: string, pat: string)
    requires pat != []
    ensures exists k: nat :: s == TrimEndMatches(s, pat) + Repeat(pat, k)
    decreases |s|
  {
    if EndsWith(s, pat) {
      var u := s[..|s| - |pat|];
      var r := TrimEndMatches(u, pat);
      assert TrimEndMatches(s, pat) == r;
      TrimEndMatchesCopies(u, pat);
      var k: nat :| u == r + Repeat(pat, k);
      assert s == u + pat;
      RepeatStep(r, pat, k + 1);
    } else {
      assert s == s + Repeat(pat, 0);
    }
  }

  /** Rust's `lines()` drops a `'\r'` that stands right before the `'\n'`. */
  function StripCR(line: string): string {
    if |line| > 0 && line[|line| - 1] == '\r' then line[..|line| - 1] else line
  }

  /**
   * Rust `str::lines()`: the text split at `"\n"` (a `"\r\n"` ending counts as
   * one); a final line ending does not start an extra empty line.
   */
  function Lines(s: string): (r: seq<string>)
    ensures forall k :: 0 <= k < |r| ==> '\n' !in r[k]
    ensures s == [] <==> r == []
    decreases |s|
  {
    if s == [] then []
    else match IndexOf(s, '\n')
      case None => [s]
      case Some(i) => [StripCR(s[..i])] + Lines(s[i + 1..])
  }

  /** The text `println!` produces for each of `ls` in turn. */
  function Unlines(ls: seq<string>): string {
    if ls == [] then [] else ls[0] + "\n" + Unlines(ls[1..])
  }

  /** `lines()` undoes a sequence of `println!`s of lines free of line endings. */
  lemma {:induction false} LinesUnlines(ls: seq<string>)
    requires forall k :: 0 <= k < |ls| ==> '\n' !in ls[k] && !EndsWith(ls[k], "\r")
    ensures Lines(Unlines(ls)) == ls
  {
    if ls != [] {
      var a, rest := ls[0], Unlines(ls[1..]);
      var s := a + "\n" + rest;
      assert s[|a|] == '\n' && s[..|a|] == a;
      assert IndexOf(s, '\n') == Some(|a|);
      assert s[|a| + 1..] == rest;
      assert StripCR(a) == a by {
        if |a| > 0 {
          assert a[|a| - 1..] == [a[|a| - 1]];
        }
      }
      LinesUnlines(ls[1..]);
    }
  }

  predicate AllDigits(s: string) {
    forall k :: 0 <= k < |s| ==> '0' <= s[k] <= '9'
  }

  function DigitChar(d: nat): (c: char)
    requires d < 10
    ensures '0' <= c <= '9' && c as int - '0' as int == d
  {
    "0123456789"[d]
  }

  /** Rust's `{}` rendering of an unsigned integer: decimal, no leading zeros. */
  function Decimal(n: nat): (r: string)
    ensures |r| >= 1 && AllDigits(r)
    ensures r[0] == '0' ==> n == 0
  {
    if n < 10 then [DigitChar(n)] else Decimal(n / 10) + [DigitChar(n % 10)]
  }

  /** The number a string of decimal digits denotes. */
  function DigitsValue(s: string): nat
    requires AllDigits(s)
  {
    if s == [] then 0 else DigitsValue(s[..|s| - 1]) * 10 + (s[|s| - 1] as int - '0' as int)
  }

  /** Reading back what `Decimal` wrote gives the number. */
  lemma {:induction false} DecimalRoundTrip(n: nat)
    ensures DigitsValue(Decimal(n)) == n
  {
    if n >= 10 {
      var d := Decimal(n / 10);
      assert (d + [DigitChar(n % 10)])[..|d|] == d;
      DecimalRoundTrip(n / 10);
    }
  }

  lemma {:induction false} LeadingZeroValue(s: string)
    requires AllDigits(s)
    ensures AllDigits("0" + s) && DigitsValue("0" + s) == DigitsValue(s)
  {
    if s != [] {
      assert ("0" + s)[..|s|] == "0" + s[..|s| - 1];
      LeadingZeroValue(s[..|s| - 1]);
    }
  }

  /** Rust's `{:02}`: decimal, left-padded with zeros to at least two digits. */
  function Pad2(n: nat): (r: string)
    ensures AllDigits(r) && DigitsValue(r) == n
    ensures |r| == 2 || (|r| > 2 && r[0] != '0')
  {
    DecimalRoundTrip(n);
    if n < 10 then
      LeadingZeroValue(Decimal(n));
      "0" + Decimal(n)
    else
      Decimal(n)
  }

  lemma DecimalInjective(a: nat, b: nat)
    requires Decimal(a) == Decimal(b)
    ensures a == b
  {
    DecimalRoundTrip(a);
    DecimalRoundTrip(b);
  }
}
