/** String operations the prompt builder borrows from Python: joining lines
    with "\n", `str.strip()` without arguments, and the decimal rendering of
    a number inside an f-string. Strings are sequences of Unicode scalar
    values, so `|s|` is Python's `len(s)`. */
module Text {

  // ---------------------------------------------------------------------
  // "\n".join(lines)
  // ---------------------------------------------------------------------

  /** `"\n".join(lines)`: the lines with one newline between neighbours. */
  function JoinLines(lines: seq<string>): string
  {
    if |lines| == 0 then ""
    else if |lines| == 1 then lines[0]
    else JoinLines(lines[..|lines| - 1]) + "\n" + lines[|lines| - 1]
  }

  /** Where line `i` starts in `JoinLines(lines)`: the lengths of the lines
      before it, each followed by its newline. */
  function Offset(lines: seq<string>, i: nat): nat
    requires i <= |lines|
  {
    if i == 0 then 0 else Offset(lines, i - 1) + |lines[i - 1]| + 1
  }

  /** `line` occupies a whole line of `s`, starting at `pos`. */
  predicate WholeLineAt(s: string, line: string, pos: nat)
  {
    && pos + |line| <= |s|
    && s[pos..pos + |line|] == line
    && (pos == 0 || s[pos - 1] == '\n')
    && (pos + |line| == |s| || s[pos + |line|] == '\n')
  }

  /** The joined text is as long as all lines plus one newline between each
      pair of neighbours. */
  lemma {:induction false} JoinLinesLength(lines: seq<string>)
    requires lines != []
    ensures |JoinLines(lines)| + 1 == Offset(lines, |lines|)
  {
    if |lines| > 1 {
      var init := lines[..|lines| - 1];
      JoinLinesLength(init);
      OffsetOfPrefix(lines, |lines| - 1, |lines| - 1);
    }
  }

  /** Offsets only depend on the lines before them. */
  lemma {:induction false} OffsetOfPrefix(lines: seq<string>, m: nat, i: nat)
    requires i <= m <= |lines|
    ensures Offset(lines[..m], i) == Offset(lines, i)
  {
    if i > 0 {
      OffsetOfPrefix(lines, m, i - 1);
      assert lines[..m][i - 1] == lines[i - 1];
    }
  }

  /** Later lines start later. */
  lemma {:induction false} OffsetStrictlyIncreasing(lines: seq<string>, i: nat, j: nat)
    requires i < j <= |lines|
    ensures Offset(lines, i) < Offset(lines, j)
  {
    if i < j - 1 {
      OffsetStrictlyIncreasing(lines, i, j - 1);
    }
  }

  /** Every line of the list appears, as a whole line, in the joined text at
      its offset: joining neither loses nor reorders lines. */
  lemma {:induction false} JoinLinesWholeLine(lines: seq<string>, i: nat)
    requires i < |lines|
    ensures WholeLineAt(JoinLines(lines), lines[i], Offset(lines, i))
  {
    var n := |lines|;
    if n > 1 {
      var init := lines[..n - 1];
      var head := JoinLines(init);
      assert JoinLines(lines) == head + "\n" + lines[n - 1];
      JoinLinesLength(init);
      OffsetOfPrefix(lines, n - 1, n - 1);
      if i == n - 1 {
        WholeLineAfter(head, lines[n - 1]);
      } else {
        JoinLinesWholeLine(init, i);
        OffsetOfPrefix(lines, n - 1, i);
        assert init[i] == lines[i];
        WholeLineBefore(head, lines[n - 1], lines[i], Offset(lines, i));
      }
    }
  }

  /** The text after the last newline is a whole line. */
  lemma WholeLineAfter(head: string, last: string)
    ensures WholeLineAt(head + "\n" + last, last, |head| + 1)
  {
    var s := head + "\n" + last;
    assert s[|head| + 1..] == last;
  }

  /** A whole line stays one when more lines are appended. */
  lemma WholeLineBefore(head: string, last: string, line: string, pos: nat)
    requires WholeLineAt(head, line, pos)
    ensures WholeLineAt(head + "\n" + last, line, pos)
  {
    var s := head + "\n" + last;
    assert s[pos..pos + |line|] == head[pos..pos + |line|];
    assert pos > 0 ==> s[pos - 1] == head[pos - 1];
    if pos + |line| < |head| {
      assert s[pos + |line|] == head[pos + |line|];
    } else {
      assert s[|head|] == '\n';
    }
  }

  // ---------------------------------------------------------------------
  // str.strip()
  // ---------------------------------------------------------------------

  /** Python's `str.isspace()` on one character: the ASCII blanks, the
      information separators U+001C..U+001F, and the Unicode space and
      line/paragraph separators (U+3000, the ideographic space, included). */
  predicate IsSpace(c: char)
  {
    || c == ' ' || c == '\t' || c == '\n' || c == '\r'
    || c == '\U{0B}' || c == '\U{0C}'
    || ('\U{1C}' <= c <= '\U{1F}')
    || c == '\U{85}' || c == '\U{A0}' || c == '\U{1680}'
    || ('\U{2000}' <= c <= '\U{200A}')
    || c == '\U{2028}' || c == '\U{2029}' || c == '\U{202F}' || c == '\U{205F}'
    || c == '\U{3000}'
  }

  predicate AllSpace(s: string)
  {
    All(s, IsSpace)
  }

  /** Every character of `s` passes `p`. */
  predicate All(s: string, p: char -> bool)
  {
    forall k {:trigger p(s[k])} :: 0 <= k < |s| ==> p(s[k])
  }

  // The trimming below is stated for any character test `p`; `Strip` is the
  // instance for whitespace.

  /** How many characters passing `p` the string `s` starts with. */
  function LeadingRun(s: string, p: char -> bool): (k: nat)
    ensures k <= |s| && All(s[..k], p)
    ensures k == |s| || !p(s[k])
  {
    if s != [] && p(s[0]) then
      var k := LeadingRun(s[1..], p);
      var head := s[..k + 1];
      assert All(head, p) by {
        forall m | 0 <= m < |head| ensures p(head[m]) {
          if m > 0 { assert head[m] == s[1..][..k][m - 1]; }
        }
      }
      k + 1
    else 0
  }

  /** How many characters passing `p` the string `s` ends with. */
  function TrailingRun(s: string, p: char -> bool): (k: nat)
    ensures k <= |s| && All(s[|s| - k..], p)
    ensures k == |s| || !p(s[|s| - k - 1])
  {
    if s != [] && p(s[|s| - 1]) then
      var init := s[..|s| - 1];
      var k := TrailingRun(init, p);
      var tail := s[|s| - (k + 1)..];
      assert All(tail, p) by {
        forall m | 0 <= m < |tail| ensures p(tail[m]) {
          if m < k { assert tail[m] == init[|init| - k..][m]; }
        }
      }
      k + 1
    else 0
  }

  /** `s` without the characters passing `p` at either end: a slice of `s`
      that neither starts nor ends with such a character. */
  function Trim(s: string, p: char -> bool): (r: string)
    ensures exists i, j :: 0 <= i <= j <= |s| && r == s[i..j] && All(s[..i], p) && All(s[j..], p)
    ensures r == [] || (!p(r[0]) && !p(r[|r| - 1]))
  {
    var i := LeadingRun(s, p);
    var t := s[i..];
    var k := TrailingRun(t, p);
    TailOfSuffix(s, t, i, p, k);
    SliceEnds(s, p, i, |s| - k);
    s[i..|s| - k]
  }

  /** A run at the end of the suffix `t` of `s` is a run at the end of `s`. */
  lemma TailOfSuffix(s: string, t: string, i: nat, p: char -> bool, k: nat)
    requires i <= |s| && t == s[i..] && k <= |t|
    requires All(t[|t| - k..], p) && (k == |t| || !p(t[|t| - k - 1]))
    ensures All(s[|s| - k..], p) && (i == |s| - k || !p(s[|s| - k - 1]))
  {
    var tail := s[|s| - k..];
    assert All(tail, p) by {
      forall m | 0 <= m < |tail| ensures p(tail[m]) {
        assert tail[m] == t[|t| - k..][m];
      }
    }
    if k < |t| {
      assert s[|s| - k - 1] == t[|t| - k - 1];
    }
  }

  /** A slice whose first and last characters fail `p`. */
  lemma SliceEnds(s: string, p: char -> bool, i: nat, j: nat)
    requires i <= j <= |s| && (i == |s| || !p(s[i])) && (i == j || !p(s[j - 1]))
    ensures var r := s[i..j]; r == [] || (!p(r[0]) && !p(r[|r| - 1]))
  {
    if i < j {
      assert s[i..j][0] == s[i];
      assert s[i..j][j - i - 1] == s[j - 1];
    }
  }

  /** Trimming yields the empty string exactly when every character passes. */
  lemma TrimEmptyIffAll(s: string, p: char -> bool)
    ensures Trim(s, p) == "" <==> All(s, p)
  {
    var r := Trim(s, p);
    var i, j :| 0 <= i <= j <= |s| && r == s[i..j] && All(s[..i], p) && All(s[j..], p);
    if r == "" {
      AllAround(s, p, i, j);
    } else {
      NotAll(s, p, i);
    }
  }

  /** Passing characters up to `i` and from `j` on, with nothing between. */
  lemma AllAround(s: string, p: char -> bool, i: nat, j: nat)
    requires i == j <= |s| && All(s[..i], p) && All(s[j..], p)
    ensures All(s, p)
  {
    forall k | 0 <= k < |s| ensures p(s[k]) {
      if k < i { assert s[k] == s[..i][k]; } else { assert s[k] == s[j..][k - j]; }
    }
  }

  /** One failing character is enough. */
  lemma NotAll(s: string, p: char -> bool, i: nat)
    requires i < |s| && !p(s[i])
    ensures !All(s, p)
  {
  }

  /** Text that neither starts nor ends with a passing character is left as
      is. */
  lemma TrimTrimmed(s: string, p: char -> bool)
    requires s == [] || (!p(s[0]) && !p(s[|s| - 1]))
    ensures Trim(s, p) == s
  {
    var r := Trim(s, p);
    var i, j :| 0 <= i <= j <= |s| && r == s[i..j] && All(s[..i], p) && All(s[j..], p);
    if s != [] {
      EdgesFail(s, p);
    }
    assert s[0..|s|] == s;
  }

  /** When `s` neither starts nor ends with a passing character, no
      non-empty prefix or suffix of it passes throughout. */
  lemma EdgesFail(s: string, p: char -> bool)
    requires s != [] && !p(s[0]) && !p(s[|s| - 1])
    ensures forall k :: 0 < k <= |s| ==> !All(s[..k], p)
    ensures forall k :: 0 <= k < |s| ==> !All(s[k..], p)
  {
    forall k | 0 < k <= |s| ensures !All(s[..k], p) {
      assert s[..k][0] == s[0];
    }
    forall k | 0 <= k < |s| ensures !All(s[k..], p) {
      assert s[k..][|s| - 1 - k] == s[|s| - 1];
    }
  }

  /** `s.strip()`: the slice of `s` left after removing whitespace from both
      ends; it neither starts nor ends with whitespace. */
  function Strip(s: string): (r: string)
    ensures exists i, j :: 0 <= i <= j <= |s| && r == s[i..j] && AllSpace(s[..i]) && AllSpace(s[j..])
    ensures r == [] || (!IsSpace(r[0]) && !IsSpace(r[|r| - 1]))
  {
    TrimSpace(s);
    Trim(s, IsSpace)
  }

  /** Trimming whitespace, with the ends stated through `AllSpace`. */
  lemma TrimSpace(s: string)
    ensures var r := Trim(s, IsSpace);
      && (exists i, j :: 0 <= i <= j <= |s| && r == s[i..j] && AllSpace(s[..i]) && AllSpace(s[j..]))
      && (r == [] || (!IsSpace(r[0]) && !IsSpace(r[|r| - 1])))
  {
    var r := Trim(s, IsSpace);
    var i, j :| 0 <= i <= j <= |s| && r == s[i..j] && All(s[..i], IsSpace) && All(s[j..], IsSpace);
    assert AllSpace(s[..i]) && AllSpace(s[j..]);
  }

  /** Stripping yields the empty string exactly when the input is all
      whitespace. */
  lemma StripEmptyIffAllSpace(s: string)
    ensures Strip(s) == "" <==> AllSpace(s)
  {
    TrimEmptyIffAll(s, IsSpace);
  }

  /** Stripping twice is stripping once. */
  lemma StripIdempotent(s: string)
    ensures Strip(Strip(s)) == Strip(s)
  {
    TrimTrimmed(Strip(s), IsSpace);
  }

  // ---------------------------------------------------------------------
  // f"{n}" for a natural number
  // ---------------------------------------------------------------------

  /** The digit character for `d`: '0' to '9' are consecutive code points. */
  function DigitChar(d: nat): char
    requires d < 10
  {
    ('0' as int + d) as char
  }

  predicate IsDigit(c: char)
  {
    '0' <= c <= '9'
  }

  function DigitValue(c: char): nat
    requires IsDigit(c)
  {
    (c as int - '0' as int) as nat
  }

  /** The number a string of decimal digits denotes. */
  function DecimalValue(s: string): nat
    requires forall k :: 0 <= k < |s| ==> IsDigit(s[k])
  {
    if s == [] then 0 else DecimalValue(s[..|s| - 1]) * 10 + DigitValue(s[|s| - 1])
  }

  /** `str(n)`: the shortest decimal numeral of `n`. */
  function NatToString(n: nat): (r: string)
    ensures r != []
    ensures forall k :: 0 <= k < |r| ==> IsDigit(r[k])
    ensures r[0] == '0' <==> n == 0
    ensures n > 0 ==> |r| <= n
  {
    if n < 10 then [DigitChar(n)]
    else NatToString(n / 10) + [DigitChar(n % 10)]
  }

  /** Reading back a numeral gives the number: the rendering is faithful. */
  lemma {:induction false} NatToStringValue(n: nat)
    ensures DecimalValue(NatToString(n)) == n
  {
    if n >= 10 {
      NatToStringValue(n / 10);
      var s := NatToString(n);
      assert s[..|s| - 1] == NatToString(n / 10);
    }
  }

  /** Different numbers have different numerals. */
  lemma NatToStringInjective(a: nat, b: nat)
    requires NatToString(a) == NatToString(b)
    ensures a == b
  {
    NatToStringValue(a);
    NatToStringValue(b);
  }
}
