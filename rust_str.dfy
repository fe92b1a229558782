/**
 * The parts of Rust's `str` API that the core relies on, over `seq<char>`:
 * `char::is_whitespace`, `str::split_whitespace`, `str::trim` and `str::lines`.
 */
module RustStr {

  /** `char::is_whitespace`: the Unicode White_Space property (25 code points). */
  predicate IsWhitespace(c: char) {
    var n := c as int;
    (0x09 <= n <= 0x0D) || n == 0x20 || n == 0x85 || n == 0xA0 || n == 0x1680
    || (0x2000 <= n <= 0x200A) || n == 0x2028 || n == 0x2029 || n == 0x202F
    || n == 0x205F || n == 0x3000
  }

  predicate AllWhitespace(s: seq<char>) {
    forall i :: 0 <= i < |s| ==> IsWhitespace(s[i])
  }

  /** A non-empty run of characters none of which is whitespace. */
  predicate IsToken(s: seq<char>) {
    |s| > 0 && forall i :: 0 <= i < |s| ==> !IsWhitespace(s[i])
  }

  // ---------------------------------------------------------------------------
  // split_whitespace

  /** Length of the longest whitespace-free prefix of `s`. */
  function TokenLen(s: seq<char>): (n: nat)
    ensures n <= |s|
    ensures forall i :: 0 <= i < n ==> !IsWhitespace(s[i])
    ensures n < |s| ==> IsWhitespace(s[n])
  {
    if s == [] || IsWhitespace(s[0]) then 0 else 1 + TokenLen(s[1..])
  }

  /** `str::split_whitespace`: the maximal whitespace-free runs of `s`, in order. */
  function Words(s: seq<char>): (ws: seq<seq<char>>)
    decreases |s|
  {
    if s == [] then []
    else if IsWhitespace(s[0]) then Words(s[1..])
    else
      var n := TokenLen(s);
      [s[..n]] + Words(s[n..])
  }

  /** Every word is a token, i.e. non-empty and free of whitespace. */
  lemma {:induction false} WordsAreTokens(s: seq<char>)
    ensures forall k :: 0 <= k < |Words(s)| ==> IsToken(Words(s)[k])
    decreases |s|
  {
    if s == [] {
    } else if IsWhitespace(s[0]) {
      WordsAreTokens(s[1..]);
    } else {
      WordsAreTokens(s[TokenLen(s)..]);
    }
  }

  /**
   * The number of positions of `s` where a run of non-whitespace characters
   * begins, scanning left to right; `afterBreak` says whether the character
   * before `s` was whitespace (or `s` is at the start of the text).
   */
  function WordStarts(s: seq<char>, afterBreak: bool): nat {
    if s == [] then 0
    else (if afterBreak && !IsWhitespace(s[0]) then 1 else 0) + WordStarts(s[1..], IsWhitespace(s[0]))
  }

  /** The number of maximal runs of non-whitespace characters in `s`. */
  function RunCount(s: seq<char>): nat {
    WordStarts(s, true)
  }

  /** Inside a token no run begins, so the scan resumes after it as if after a break. */
  lemma {:induction false} StartsAfterToken(s: seq<char>, n: nat)
    requires 1 <= n <= |s|
    requires forall i :: 0 <= i < n ==> !IsWhitespace(s[i])
    requires n == |s| || IsWhitespace(s[n])
    ensures WordStarts(s[1..], false) == WordStarts(s[n..], true)
    decreases n
  {
    if n == 1 {
      assert s[1..] == s[n..];
    } else {
      var u := s[1..];
      assert u[1..] == s[2..] && u[n - 1..] == s[n..];
      assert forall i :: 0 <= i < n - 1 ==> u[i] == s[i + 1];
      StartsAfterToken(u, n - 1);
    }
  }

  /** `split_whitespace().count()` is the number of maximal non-whitespace runs. */
  lemma {:induction false} WordCountIsRunCount(s: seq<char>)
    ensures |Words(s)| == RunCount(s)
    decreases |s|
  {
    if s != [] {
      if IsWhitespace(s[0]) {
        WordCountIsRunCount(s[1..]);
      } else {
        var n := TokenLen(s);
        StartsAfterToken(s, n);
        WordCountIsRunCount(s[n..]);
      }
    }
  }

  /** There are no words exactly when every character is whitespace (this covers empty input). */
  lemma {:induction false} NoWordsIffAllWhitespace(s: seq<char>)
    ensures Words(s) == [] <==> AllWhitespace(s)
    decreases |s|
  {
    if s != [] {
      NoWordsIffAllWhitespace(s[1..]);
    }
  }

  lemma {:induction false} TokenLenAcrossSeparator(x: seq<char>, w: char, y: seq<char>)
    requires IsWhitespace(w)
    ensures TokenLen(x + [w] + y) == TokenLen(x)
    decreases |x|
  {
    if x != [] && !IsWhitespace(x[0]) {
      assert (x + [w] + y)[1..] == x[1..] + [w] + y;
      TokenLenAcrossSeparator(x[1..], w, y);
    }
  }

  /** Leading whitespace is skipped, with or without the rest of the text after it. */
  lemma SkipLeadingWhitespace(x: seq<char>, w: char, y: seq<char>)
    requires x != [] && IsWhitespace(x[0])
    ensures Words(x + [w] + y) == Words(x[1..] + [w] + y)
    ensures Words(x) == Words(x[1..])
  {
    assert (x + [w] + y)[0] == x[0];
    assert (x + [w] + y)[1..] == x[1..] + [w] + y;
  }

  /** A leading token ends at the first whitespace, whatever follows it. */
  lemma SplitLeadingToken(x: seq<char>, w: char, y: seq<char>)
    requires IsWhitespace(w) && x != [] && !IsWhitespace(x[0])
    ensures var n := TokenLen(x);
            && Words(x + [w] + y) == [x[..n]] + Words(x[n..] + [w] + y)
            && Words(x) == [x[..n]] + Words(x[n..])
  {
    var s := x + [w] + y;
    var n := TokenLen(x);
    TokenLenAcrossSeparator(x, w, y);
    assert s[0] == x[0] && s[..n] == x[..n];
    assert s[n..] == x[n..] + [w] + y;
  }

  /** Splitting at any whitespace character splits the word list there. */
  lemma {:induction false} WordsAcrossSeparator(x: seq<char>, w: char, y: seq<char>)
    requires IsWhitespace(w)
    ensures Words(x + [w] + y) == Words(x) + Words(y)
    decreases |x|
  {
    if x == [] {
      assert x + [w] + y == [w] + y && ([w] + y)[1..] == y;
    } else if IsWhitespace(x[0]) {
      SkipLeadingWhitespace(x, w, y);
      WordsAcrossSeparator(x[1..], w, y);
    } else {
      var n := TokenLen(x);
      SplitLeadingToken(x, w, y);
      WordsAcrossSeparator(x[n..], w, y);
      var head, rest := [x[..n]], Words(x[n..]);
      assert head + (rest + Words(y)) == (head + rest) + Words(y);
    }
  }

  /** A single token splits into itself. */
  lemma WordsOfToken(t: seq<char>)
    requires IsToken(t)
    ensures Words(t) == [t]
  {
    assert TokenLen(t) == |t|;
    assert t[..|t|] == t;
    assert t[|t|..] == [];
  }

  // ---------------------------------------------------------------------------
  // trim

  function TrimStart(s: seq<char>): seq<char> {
    if s != [] && IsWhitespace(s[0]) then TrimStart(s[1..]) else s
  }

  function TrimEnd(s: seq<char>): seq<char> {
    if s != [] && IsWhitespace(s[|s| - 1]) then TrimEnd(s[..|s| - 1]) else s
  }

  /** `str::trim`: `s` without its leading and trailing whitespace. */
  function Trim(s: seq<char>): seq<char> {
    TrimEnd(TrimStart(s))
  }

  lemma {:induction false} WordsTrimStart(s: seq<char>)
    ensures Words(TrimStart(s)) == Words(s)
    decreases |s|
  {
    if s != [] && IsWhitespace(s[0]) {
      WordsTrimStart(s[1..]);
    }
  }

  lemma {:induction false} WordsTrimEnd(s: seq<char>)
    ensures Words(TrimEnd(s)) == Words(s)
    decreases |s|
  {
    if s != [] && IsWhitespace(s[|s| - 1]) {
      var x := s[..|s| - 1];
      assert s == x + [s[|s| - 1]] + [];
      WordsAcrossSeparator(x, s[|s| - 1], []);
      WordsTrimEnd(x);
    }
  }

  /** Trimming does not change the words. */
  lemma WordsOfTrim(s: seq<char>)
    ensures Words(Trim(s)) == Words(s)
  {
    WordsTrimStart(s);
    WordsTrimEnd(TrimStart(s));
  }

  /** Trimming leaves nothing exactly when the line has no words. */
  lemma {:induction false} TrimEmptyIffNoWords(s: seq<char>)
    ensures Trim(s) == [] <==> Words(s) == []
  {
    WordsOfTrim(s);
    var t := Trim(s);
    if t != [] {
      TrimmedEnds(s);
      assert Words(t) != [] by {
        NoWordsIffAllWhitespace(t);
      }
    }
  }

  lemma {:induction false} TrimStartEnds(s: seq<char>)
    ensures TrimStart(s) == [] || !IsWhitespace(TrimStart(s)[0])
    decreases |s|
  {
    if s != [] && IsWhitespace(s[0]) {
      TrimStartEnds(s[1..]);
    }
  }

  lemma {:induction false} TrimEndEnds(s: seq<char>)
    ensures TrimEnd(s) == [] || !IsWhitespace(TrimEnd(s)[|TrimEnd(s)| - 1])
    decreases |s|
  {
    if s != [] && IsWhitespace(s[|s| - 1]) {
      TrimEndEnds(s[..|s| - 1]);
    }
  }

  /** The trimmed string neither starts nor ends with whitespace. */
  lemma TrimmedEnds(s: seq<char>)
    ensures Trim(s) != [] ==> !IsWhitespace(Trim(s)[0]) && !IsWhitespace(Trim(s)[|Trim(s)| - 1])
  {
    TrimEndEnds(TrimStart(s));
    if Trim(s) != [] {
      TrimStartEnds(s);
      TrimEndKeepsFirst(TrimStart(s));
    }
  }

  lemma {:induction false} TrimEndKeepsFirst(s: seq<char>)
    ensures TrimEnd(s) != [] ==> TrimEnd(s)[0] == s[0]
    decreases |s|
  {
    if s != [] && IsWhitespace(s[|s| - 1]) {
      TrimEndKeepsFirst(s[..|s| - 1]);
    }
  }

  // ---------------------------------------------------------------------------
  // lines

  /** `s` split at every '\n'; there is always one more piece than there are newlines. */
  function SplitNewlines(s: seq<char>): (pieces: seq<seq<char>>)
    ensures |pieces| >= 1
  {
    if s == [] then [[]]
    else
      var r := SplitNewlines(s[..|s| - 1]);
      if s[|s| - 1] == '\n' then r + [[]]
      else r[..|r| - 1] + [r[|r| - 1] + [s[|s| - 1]]]
  }

  /** Drops one trailing '\r', as `lines` does for a "\r\n" line ending. */
  function StripCarriageReturn(line: seq<char>): seq<char> {
    if line != [] && line[|line| - 1] == '\r' then line[..|line| - 1] else line
  }

  /**
   * `str::lines`: the pieces between '\n's with a "\r\n" ending reduced to the
   * line itself; a final empty piece (empty input, or input ending in '\n') is
   * not a line.
   */
  function Lines(s: seq<char>): seq<seq<char>> {
    var pieces := SplitNewlines(s);
    var complete := pieces[..|pieces| - 1];
    var last := pieces[|pieces| - 1];
    seq(|complete|, i requires 0 <= i < |complete| => StripCarriageReturn(complete[i]))
      + (if last == [] then [] else [last])
  }

  lemma {:induction false} SplitNewlinesShape(s: seq<char>)
    ensures |SplitNewlines(s)| == multiset(s)['\n'] + 1
    ensures SplitNewlines(s)[|SplitNewlines(s)| - 1] == [] <==> s == [] || s[|s| - 1] == '\n'
  {
    if s != [] {
      var init := s[..|s| - 1];
      assert s == init + [s[|s| - 1]];
      assert multiset(s) == multiset(init) + multiset{s[|s| - 1]};
      SplitNewlinesShape(init);
    }
  }

  /** `lines().count()`: the number of '\n's, plus one for an unterminated last line. */
  lemma LineCount(s: seq<char>)
    ensures |Lines(s)| == multiset(s)['\n'] + (if s != [] && s[|s| - 1] != '\n' then 1 else 0)
  {
    SplitNewlinesShape(s);
  }
}
