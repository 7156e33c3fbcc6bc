/**
 * The small part of Python's string semantics that the forex view relies on:
 * slicing with clamped bounds, `str(int)`, ASCII `str.upper()`, and a text
 * file seen as the concatenation of what was written to it and read back
 * with `readlines()`. `split` is not called by the program: it is the
 * reader of comma-separated columns used to state that the comma join of a
 * candle's fields can be undone.
 */
module PyText {

  // ---------------------------------------------------------------------------
  // Slicing. Python clamps out-of-range slice bounds instead of raising.
  // ---------------------------------------------------------------------------

  /** `s[:n]` for a non-negative `n`. */
  function Take(s: string, n: nat): (r: string)
    ensures |r| == if n <= |s| then n else |s|
    ensures r == s[..|r|]
  {
    if n <= |s| then s[..n] else s
  }

  /** `s[n:]` for a non-negative `n`. */
  function Drop(s: string, n: nat): (r: string)
    ensures |r| == if n <= |s| then |s| - n else 0
    ensures r == s[|s| - |r|..]
  {
    if n <= |s| then s[n..] else []
  }

  /** `s[i:j]` for non-negative `i` and `j`. */
  function Slice(s: string, i: nat, j: nat): (r: string)
    ensures i <= j <= |s| ==> r == s[i..j]
    ensures j <= i || |s| <= i ==> r == []
    ensures i <= |s| <= j ==> r == s[i..]
  {
    if j <= i || |s| <= i then [] else if j <= |s| then s[i..j] else s[i..]
  }

  // ---------------------------------------------------------------------------
  // str(n) for a Python int, and the decimal reading that inverts it.
  // ---------------------------------------------------------------------------

  predicate IsDigit(c: char) {
    '0' <= c <= '9'
  }

  predicate AllDigits(s: string) {
    forall i :: 0 <= i < |s| ==> IsDigit(s[i])
  }

  function DigitChar(d: nat): (c: char)
    requires d < 10
    ensures IsDigit(c)
  {
    (48 + d) as char
  }

  function DigitValue(c: char): (d: nat)
    requires IsDigit(c)
    ensures d < 10
  {
    c as int - 48
  }

  /** The decimal digits of `n`, most significant first, without leading zeros. */
  function NatToDecimal(n: nat): (r: string)
    ensures |r| >= 1 && AllDigits(r)
    ensures |r| > 1 ==> r[0] != '0'
    ensures n < 10 <==> |r| == 1
  {
    if n < 10 then [DigitChar(n)] else NatToDecimal(n / 10) + [DigitChar(n % 10)]
  }

  /** `str(n)`: a minus sign for negative numbers, then the digits of `|n|`. */
  function IntToDecimal(n: int): (r: string)
    ensures |r| >= 1
    ensures n < 0 <==> r[0] == '-'
    ensures n >= 0 ==> AllDigits(r)
    ensures n < 0 ==> AllDigits(r[1..]) && |r| >= 2
    ensures n < 0 ==> r[1] != '0'
    ensures n >= 0 && |r| > 1 ==> r[0] != '0'
  {
    if n < 0 then "-" + NatToDecimal(-n) else NatToDecimal(n)
  }

  /** The value of a string of decimal digits (an independent reading of `str`). */
  function DigitsValue(s: string): nat
    requires AllDigits(s)
  {
    if s == [] then 0 else DigitsValue(s[..|s| - 1]) * 10 + DigitValue(s[|s| - 1])
  }

  /** The value of an optionally signed decimal string, as `int(s)` reads it. */
  function DecimalValue(s: string): int
    requires |s| >= 1
    requires if s[0] == '-' then AllDigits(s[1..]) else AllDigits(s)
  {
    if s[0] == '-' then 0 - DigitsValue(s[1..]) as int else DigitsValue(s)
  }

  lemma {:induction false} NatToDecimalValue(n: nat)
    ensures DigitsValue(NatToDecimal(n)) == n
  {
    var r := NatToDecimal(n);
    if n >= 10 {
      NatToDecimalValue(n / 10);
      assert r[..|r| - 1] == NatToDecimal(n / 10);
    }
  }

  /** Reading back what `str` wrote gives the number again. */
  lemma IntToDecimalRoundTrip(n: int)
    ensures DecimalValue(IntToDecimal(n)) == n
  {
    if n < 0 {
      NatToDecimalValue(-n);
      assert IntToDecimal(n)[1..] == NatToDecimal(-n);
    } else {
      NatToDecimalValue(n);
    }
  }

  /** Distinct numbers print differently. */
  lemma IntToDecimalInjective(m: int, n: int)
    requires IntToDecimal(m) == IntToDecimal(n)
    ensures m == n
  {
    IntToDecimalRoundTrip(m);
    IntToDecimalRoundTrip(n);
  }

  // ---------------------------------------------------------------------------
  // str.upper(), restricted to ASCII letters.
  // ---------------------------------------------------------------------------

  predicate IsLower(c: char) {
    'a' <= c <= 'z'
  }

  function UpperChar(c: char): (u: char)
    ensures !IsLower(u)
    ensures IsLower(c) ==> u as int == c as int - 32
    ensures !IsLower(c) ==> u == c
  {
    if IsLower(c) then (c as int - 32) as char else c
  }

  /** `s.upper()` */
  function Upper(s: string): (r: string)
    ensures |r| == |s|
    ensures forall i :: 0 <= i < |s| ==> r[i] == UpperChar(s[i])
  {
    if s == [] then [] else [UpperChar(s[0])] + Upper(s[1..])
  }

  /** Upper-casing leaves no lower-case letter behind. */
  lemma UpperHasNoLower(s: string)
    ensures forall i :: 0 <= i < |Upper(s)| ==> !IsLower(Upper(s)[i])
  {
  }

  /** Upper-casing twice is upper-casing once. */
  lemma UpperIdempotent(s: string)
    ensures Upper(Upper(s)) == Upper(s)
  {
    var u := Upper(s);
    assert forall i :: 0 <= i < |u| ==> Upper(u)[i] == u[i];
  }

  // ---------------------------------------------------------------------------
  // Text files: the content is the concatenation of the writes, and
  // readlines() cuts it after every newline.
  // ---------------------------------------------------------------------------

  function Concat(chunks: seq<string>): (r: string)
  {
    if chunks == [] then [] else chunks[0] + Concat(chunks[1..])
  }

  /** A single line as `readlines()` returns it: one newline, at its end. */
  predicate IsLine(line: string) {
    |line| >= 1 && line[|line| - 1] == '\n' && '\n' !in line[..|line| - 1]
  }

  /** Length of the first line of `content`, its newline included. */
  function FirstLineLength(content: string): (n: nat)
    ensures content != [] ==> 1 <= n <= |content|
    ensures content == [] ==> n == 0
  {
    if content == [] then 0
    else if content[0] == '\n' then 1
    else 1 + FirstLineLength(content[1..])
  }

  /** `readlines()`: the content cut after each newline; a last line may lack one. */
  function ReadLines(content: string): (lines: seq<string>)
    decreases |content|
  {
    if content == [] then []
    else
      var n := FirstLineLength(content);
      [content[..n]] + ReadLines(content[n..])
  }

  /**
   * Every piece `readlines()` returns is non-empty, holds no newline before
   * its last character, and all but the last end in a newline.
   */
  lemma {:induction false} ReadLinesShape(content: string)
    ensures forall i :: 0 <= i < |ReadLines(content)| ==> |ReadLines(content)[i]| >= 1
    ensures forall i :: 0 <= i < |ReadLines(content)| ==>
      '\n' !in ReadLines(content)[i][..|ReadLines(content)[i]| - 1]
    ensures forall i :: 0 <= i < |ReadLines(content)| - 1 ==> IsLine(ReadLines(content)[i])
    decreases |content|
  {
    if content != [] {
      var n := FirstLineLength(content);
      FirstLineShape(content);
      ReadLinesShape(content[n..]);
      if n == |content| {
        assert content[n..] == [];
      }
    }
  }

  lemma {:induction false} FirstLineShape(content: string)
    requires content != []
    ensures var n := FirstLineLength(content);
      '\n' !in content[..n - 1] && (n < |content| ==> content[n - 1] == '\n')
  {
    if content[0] != '\n' && |content| > 1 {
      FirstLineShape(content[1..]);
      var n := FirstLineLength(content);
      assert content[..n - 1] == [content[0]] + content[1..][..n - 2];
    }
  }

  /** Nothing is lost: the lines put back together are the content. */
  lemma {:induction false} ConcatReadLines(content: string)
    ensures Concat(ReadLines(content)) == content
    decreases |content|
  {
    if content != [] {
      var n := FirstLineLength(content);
      ConcatReadLines(content[n..]);
      assert content[..n] + content[n..] == content;
    }
  }

  lemma {:induction false} FirstLineOfLine(line: string, rest: string)
    requires IsLine(line)
    ensures FirstLineLength(line + rest) == |line|
    decreases |line|
  {
    if |line| > 1 {
      assert line[0] != '\n' by { assert line[0] == line[..|line| - 1][0]; }
      assert line[1..][..|line| - 2] == line[..|line| - 1][1..];
      FirstLineOfLine(line[1..], rest);
      assert (line + rest)[1..] == line[1..] + rest;
    }
  }

  /** Writing whole lines and reading them back gives the same lines. */
  lemma {:induction false} ReadLinesConcat(lines: seq<string>)
    requires forall i :: 0 <= i < |lines| ==> IsLine(lines[i])
    ensures ReadLines(Concat(lines)) == lines
  {
    if lines != [] {
      var rest := Concat(lines[1..]);
      FirstLineOfLine(lines[0], rest);
      ReadLinesConcat(lines[1..]);
      assert (lines[0] + rest)[..|lines[0]|] == lines[0];
      assert (lines[0] + rest)[|lines[0]|..] == rest;
    }
  }

  // ---------------------------------------------------------------------------
  // str.split(sep): how a CSV reader cuts a row into its columns.
  // ---------------------------------------------------------------------------

  /** `s.split(sep)` for a one-character separator. */
  function Split(s: string, sep: char): (fields: seq<string>)
    ensures |fields| >= 1
  {
    if s == [] then [""]
    else
      var rest := Split(s[1..], sep);
      if s[0] == sep then [""] + rest else [[s[0]] + rest[0]] + rest[1..]
  }

  /** A string without the separator is a single field. */
  lemma {:induction false} SplitNone(s: string, sep: char)
    requires sep !in s
    ensures Split(s, sep) == [s]
  {
    if s != [] {
      SplitNone(s[1..], sep);
      assert [s[0]] + s[1..] == s;
    }
  }

  /** Joining a separator-free field to the rest puts it first among the fields. */
  lemma {:induction false} SplitJoin(a: string, sep: char, b: string)
    requires sep !in a
    ensures Split(a + [sep] + b, sep) == [a] + Split(b, sep)
  {
    if a == [] {
      assert [] + [sep] + b == [sep] + b;
      assert ([sep] + b)[1..] == b;
    } else {
      assert (a + [sep] + b)[1..] == a[1..] + [sep] + b;
      SplitJoin(a[1..], sep, b);
      assert [a[0]] + a[1..] == a;
    }
  }
}
