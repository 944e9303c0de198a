/** The string operations the rating code leans on: `str.split(sep)` and
    `sep.join(parts)` for one separator character, `str.split()` on runs of
    whitespace, and the decimal text that `int(text)` accepts. */
module Strings {

  import opened Wrappers

  /** The ASCII whitespace of `string.whitespace`, which byte strings strip and
      split on. Unicode text also splits on further characters, which are not
      modelled here. */
  predicate IsSpace(c: char) {
    c == ' ' || c == '\t' || c == '\n' || c == '\r' || c == '\U{000B}' || c == '\U{000C}'
  }

  predicate IsDigit(c: char) {
    '0' <= c <= '9'
  }

  // ---------------------------------------------------------------------
  // s.split(sep) and sep.join(parts)
  // ---------------------------------------------------------------------

  /** `s.split(sep)`: always at least one part; empty parts are kept. */
  function Split(s: string, sep: char): (parts: seq<string>)
    ensures |parts| >= 1
    ensures forall i :: 0 <= i < |parts| ==> sep !in parts[i]
  {
    if |s| == 0 then [""]
    else
      var rest := Split(s[1..], sep);
      if s[0] == sep then [""] + rest
      else [[s[0]] + rest[0]] + rest[1..]
  }

  /** `sep.join(parts)`. */
  function Join(parts: seq<string>, sep: char): string
  {
    if |parts| == 0 then ""
    else if |parts| == 1 then parts[0]
    else parts[0] + [sep] + Join(parts[1..], sep)
  }

  /** Joining the parts of a split gives the string back. */
  lemma {:induction false} JoinSplit(s: string, sep: char)
    ensures Join(Split(s, sep), sep) == s
  {
    if |s| > 0 {
      var rest := Split(s[1..], sep);
      JoinSplit(s[1..], sep);
      if s[0] == sep {
        assert Split(s, sep) == [""] + rest;
        assert ([""] + rest)[1..] == rest;
      } else {
        var parts := [[s[0]] + rest[0]] + rest[1..];
        assert Split(s, sep) == parts;
        if |rest| > 1 {
          assert parts[1..] == rest[1..];
          assert Join(rest, sep) == rest[0] + [sep] + Join(rest[1..], sep);
        }
      }
    }
  }

  /** Splitting a join of separator-free parts gives the parts back. */
  lemma {:induction false} SplitJoin(parts: seq<string>, sep: char)
    requires |parts| >= 1
    requires forall i :: 0 <= i < |parts| ==> sep !in parts[i]
    ensures Split(Join(parts, sep), sep) == parts
  {
    if |parts| == 1 {
      SplitFree(parts[0], sep);
    } else {
      SplitJoin(parts[1..], sep);
      SplitPrefix(parts[0], Join(parts[1..], sep), sep);
      assert [parts[0]] + parts[1..] == parts;
    }
  }

  /** A string without the separator splits into itself. */
  lemma {:induction false} SplitFree(w: string, sep: char)
    requires sep !in w
    ensures Split(w, sep) == [w]
  {
    if |w| > 0 {
      SplitFree(w[1..], sep);
      assert [w[0]] + w[1..] == w;
    }
  }

  /** A separator-free word, the separator, then the rest: the word is the first part. */
  lemma {:induction false} SplitPrefix(w: string, rest: string, sep: char)
    requires sep !in w
    ensures Split(w + [sep] + rest, sep) == [w] + Split(rest, sep)
  {
    if |w| == 0 {
      assert w + [sep] + rest == [sep] + rest;
      assert ([sep] + rest)[1..] == rest;
    } else {
      SplitPrefix(w[1..], rest, sep);
      var s := w + [sep] + rest;
      assert s[0] == w[0];
      assert s[1..] == w[1..] + [sep] + rest;
      assert [w[0]] + w[1..] == w;
    }
  }

  // ---------------------------------------------------------------------
  // s.split(): words separated by runs of whitespace
  // ---------------------------------------------------------------------

  /** Length of the run of non-space characters at the front of `s`. */
  function WordLength(s: string): (n: nat)
    ensures n <= |s|
    ensures forall i :: 0 <= i < n ==> !IsSpace(s[i])
    ensures n < |s| ==> IsSpace(s[n])
  {
    if |s| == 0 || IsSpace(s[0]) then 0 else 1 + WordLength(s[1..])
  }

  predicate IsWord(w: string) {
    |w| > 0 && forall i :: 0 <= i < |w| ==> !IsSpace(w[i])
  }

  /** `s.split()`: the maximal runs of non-space characters, in order. */
  function Words(s: string): (ws: seq<string>)
    ensures forall i :: 0 <= i < |ws| ==> IsWord(ws[i])
    decreases |s|
  {
    if |s| == 0 then []
    else if IsSpace(s[0]) then Words(s[1..])
    else
      var n := WordLength(s);
      [s[..n]] + Words(s[n..])
  }

  /** The words joined by single spaces (the shape a template tag is written in). */
  function Unwords(ws: seq<string>): string
  {
    if |ws| == 0 then ""
    else if |ws| == 1 then ws[0]
    else ws[0] + " " + Unwords(ws[1..])
  }

  lemma {:induction false} WordLengthOfWord(w: string, rest: string)
    requires IsWord(w)
    requires |rest| == 0 || IsSpace(rest[0])
    ensures WordLength(w + rest) == |w|
  {
    if |w| > 1 {
      assert (w + rest)[1..] == w[1..] + rest;
      WordLengthOfWord(w[1..], rest);
    } else {
      assert (w + rest)[1..] == rest;
    }
  }

  /** Words of words joined by spaces are those words. */
  lemma {:induction false} WordsUnwords(ws: seq<string>)
    requires forall i :: 0 <= i < |ws| ==> IsWord(ws[i])
    ensures Words(Unwords(ws)) == ws
  {
    if |ws| == 1 {
      WordLengthOfWord(ws[0], "");
      assert ws[0] + "" == ws[0];
      assert ws[0][|ws[0]|..] == "";
      assert ws[0][..|ws[0]|] == ws[0];
    } else if |ws| > 1 {
      var tail := " " + Unwords(ws[1..]);
      var s := ws[0] + tail;
      assert Unwords(ws) == s;
      WordLengthOfWord(ws[0], tail);
      assert s[..|ws[0]|] == ws[0];
      assert s[|ws[0]|..] == tail;
      assert tail[1..] == Unwords(ws[1..]);
      WordsUnwords(ws[1..]);
      assert [ws[0]] + ws[1..] == ws;
    }
  }

  predicate AllSpace(s: string) {
    forall i :: 0 <= i < |s| ==> IsSpace(s[i])
  }

  /** Leading whitespace contributes no word. */
  lemma {:induction false} WordsSkipsSpace(sp: string, s: string)
    requires AllSpace(sp)
    ensures Words(sp + s) == Words(s)
  {
    if |sp| > 0 {
      assert (sp + s)[0] == sp[0];
      assert (sp + s)[1..] == sp[1..] + s;
      WordsSkipsSpace(sp[1..], s);
    } else {
      assert sp + s == s;
    }
  }

  /** A word ended by a run of whitespace is the first word, whatever follows. */
  lemma WordsSplitsWord(w: string, sp: string, rest: string)
    requires IsWord(w)
    requires |sp| > 0 && AllSpace(sp)
    ensures Words(w + sp + rest) == [w] + Words(rest)
  {
    var s := w + sp + rest;
    assert s == w + (sp + rest);
    assert (sp + rest)[0] == sp[0];
    WordLengthOfWord(w, sp + rest);
    assert s[0] == w[0];
    assert s[..|w|] == w;
    assert s[|w|..] == sp + rest;
    WordsSkipsSpace(sp, rest);
  }

  // ---------------------------------------------------------------------
  // Decimal numerals, as int(text) reads them
  // ---------------------------------------------------------------------

  function DigitValue(c: char): nat
    requires IsDigit(c)
  {
    (c as int - '0' as int) as nat
  }

  function DigitChar(d: nat): (c: char)
    requires d < 10
    ensures IsDigit(c) && DigitValue(c) == d
  {
    ('0' as int + d) as char
  }

  predicate AllDigits(s: string) {
    forall i :: 0 <= i < |s| ==> IsDigit(s[i])
  }

  /** The value of a string of decimal digits, most significant first. */
  function DigitsValue(s: string): nat
    requires AllDigits(s)
  {
    if |s| == 0 then 0 else DigitsValue(s[..|s| - 1]) * 10 + DigitValue(s[|s| - 1])
  }

  /** The shortest decimal numeral of a natural number. */
  function ShowNat(n: nat): (s: string)
    ensures |s| > 0 && AllDigits(s)
  {
    if n < 10 then [DigitChar(n)] else ShowNat(n / 10) + [DigitChar(n % 10)]
  }

  /** The numeral `repr(n)` prints for an integer. */
  function ShowInt(n: int): string
  {
    if n < 0 then "-" + ShowNat(-n) else ShowNat(n)
  }

  /** `s` with leading and trailing whitespace removed (`s.strip()`). */
  function Strip(s: string): (r: string)
    ensures |r| <= |s|
    ensures |r| > 0 ==> !IsSpace(r[0]) && !IsSpace(r[|r| - 1])
    decreases |s|
  {
    if |s| > 0 && IsSpace(s[0]) then Strip(s[1..])
    else if |s| > 0 && IsSpace(s[|s| - 1]) then Strip(s[..|s| - 1])
    else s
  }

  /** `int(text)` in base 10: surrounding whitespace, an optional sign, more
      whitespace after the sign (Python 2 skips it), then one or more digits;
      anything else is a ValueError (None here). */
  function ParseInt(text: string): (r: Option<int>)
    ensures r.Some? ==> |Strip(text)| > 0
  {
    var t := Strip(text);
    if |t| > 0 && (t[0] == '-' || t[0] == '+') then
      var body := Strip(t[1..]);
      if |body| > 0 && AllDigits(body) then
        Some(if t[0] == '-' then 0 - DigitsValue(body) as int else DigitsValue(body))
      else None
    else if |t| > 0 && AllDigits(t) then Some(DigitsValue(t))
    else None
  }

  lemma {:induction false} DigitsOfShow(n: nat)
    ensures DigitsValue(ShowNat(n)) == n
  {
    if n >= 10 {
      DigitsOfShow(n / 10);
      var s := ShowNat(n / 10) + [DigitChar(n % 10)];
      assert s[..|s| - 1] == ShowNat(n / 10);
    }
  }

  /** Text with no whitespace at either end has nothing to strip. */
  lemma StripTrimmed(s: string)
    requires |s| > 0 && !IsSpace(s[0]) && !IsSpace(s[|s| - 1])
    ensures Strip(s) == s
  {
  }

  /** A numeral has nothing to strip. */
  lemma StripDigits(d: string)
    requires |d| > 0 && AllDigits(d)
    ensures Strip(d) == d
  {
    assert !IsSpace(d[0]) && !IsSpace(d[|d| - 1]);
  }

  lemma ParseUnsigned(d: string)
    requires |d| > 0 && AllDigits(d)
    ensures ParseInt(d) == Some(DigitsValue(d))
  {
    StripDigits(d);
    assert IsDigit(d[0]);
  }

  lemma ParseNegative(d: string)
    requires |d| > 0 && AllDigits(d)
    ensures ParseInt("-" + d) == Some(0 - DigitsValue(d))
  {
    var s := "-" + d;
    StripDigits(d);
    assert s[1..] == d;
    assert s[|s| - 1] == d[|d| - 1];
    assert !IsSpace(s[0]) && !IsSpace(s[|s| - 1]);
    assert Strip(s) == s;
  }

  /** Whatever integer is printed, int() reads it back. */
  lemma ParseShow(n: int)
    ensures ParseInt(ShowInt(n)) == Some(n)
  {
    if n < 0 {
      DigitsOfShow(-n);
      assert ShowInt(n) == "-" + ShowNat(-n);
      ParseNegative(ShowNat(-n));
    } else {
      DigitsOfShow(n);
      ParseUnsigned(ShowNat(n));
    }
  }

  /** Leading whitespace is stripped away. */
  lemma {:induction false} StripSkipsSpace(sp: string, s: string)
    requires AllSpace(sp)
    ensures Strip(sp + s) == Strip(s)
  {
    if |sp| > 0 {
      assert (sp + s)[0] == sp[0];
      assert (sp + s)[1..] == sp[1..] + s;
      StripSkipsSpace(sp[1..], s);
    } else {
      assert sp + s == s;
    }
  }

  /** Whitespace between the sign and the digits is skipped, as in
      `int('- 12')`: a sign, any run of whitespace, then digits reads as the
      signed value of the digits. */
  lemma SpaceAfterSign(c: char, sp: string, d: string)
    requires c == '+' || c == '-'
    requires AllSpace(sp)
    requires |d| > 0 && AllDigits(d)
    ensures ParseInt([c] + sp + d) == Some(if c == '-' then 0 - DigitsValue(d) else DigitsValue(d))
  {
    var s := [c] + sp + d;
    assert Strip(s) == s by {
      assert s[0] == c && s[|s| - 1] == d[|d| - 1];
      StripTrimmed(s);
    }
    assert Strip(s[1..]) == d by {
      assert s[1..] == sp + d;
      StripSkipsSpace(sp, d);
      StripDigits(d);
    }
    ParseSigned(s, d);
  }

  lemma ParseSigned(s: string, d: string)
    requires Strip(s) == s && |s| > 0 && (s[0] == '-' || s[0] == '+')
    requires Strip(s[1..]) == d && |d| > 0 && AllDigits(d)
    ensures ParseInt(s) == Some(if s[0] == '-' then 0 - DigitsValue(d) else DigitsValue(d))
  {
  }
}
