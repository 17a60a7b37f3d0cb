/**
 * Text helpers shared by the model: Python's whitespace and digit classes (ASCII part),
 * `str.lower()` on ASCII letters, substring tests, `str.strip()`, `str(int)` and the
 * zero-padded numbers `strftime` writes.
 */
module Strings {

  /** `str.isspace()` restricted to ASCII: space, \t \n \v \f \r and the separators 0x1C-0x1F. */
  predicate IsSpace(c: char) {
    c == ' ' || 9 <= c as int <= 13 || 28 <= c as int <= 31
  }

  predicate IsDigit(c: char) {
    '0' <= c <= '9'
  }

  predicate AllDigits(s: string) {
    forall i :: 0 <= i < |s| ==> IsDigit(s[i])
  }

  predicate AllSpace(s: string) {
    forall i :: 0 <= i < |s| ==> IsSpace(s[i])
  }

  function DigitValue(c: char): (d: nat)
    requires IsDigit(c)
    ensures d < 10
  {
    c as int - '0' as int
  }

  function DigitChar(d: nat): (c: char)
    requires d < 10
    ensures IsDigit(c) && DigitValue(c) == d
  {
    ('0' as int + d) as char
  }

  /** The value of a decimal digit string, as Python's `int()` reads it. */
  function DecimalValue(s: string): nat
    requires AllDigits(s)
  {
    if s == [] then 0 else 10 * DecimalValue(s[..|s| - 1]) + DigitValue(s[|s| - 1])
  }

  lemma DecimalValueStep(s: string)
    requires AllDigits(s) && s != []
    ensures DecimalValue(s) == 10 * DecimalValue(s[..|s| - 1]) + DigitValue(s[|s| - 1])
    ensures |s| == 1 ==> DecimalValue(s) == DigitValue(s[0])
  {
  }

  /** `str(n)` for a natural number: shortest decimal form, read back as `n`. */
  function NatToDecimal(n: nat): (s: string)
    ensures |s| >= 1 && AllDigits(s) && DecimalValue(s) == n
    ensures s[0] == '0' ==> n == 0
  {
    if n < 10 then [DigitChar(n)]
    else
      var prefix := NatToDecimal(n / 10);
      var s := prefix + [DigitChar(n % 10)];
      assert s[..|s| - 1] == prefix;
      s
  }

  /** `str(i)` for any integer: a minus sign before the digits of a negative value. */
  function IntToDecimal(i: int): (s: string)
    ensures |s| >= 1
    ensures i >= 0 ==> AllDigits(s) && DecimalValue(s) == i
    ensures i < 0 ==> s[0] == '-' && AllDigits(s[1..]) && DecimalValue(s[1..]) == -i
  {
    if i < 0 then "-" + NatToDecimal(-i) else NatToDecimal(i)
  }

  function Pow10(w: nat): (p: nat)
    ensures p >= 1
  {
    if w == 0 then 1 else 10 * Pow10(w - 1)
  }

  /** `n` written with exactly `width` digits, zero-padded on the left (strftime's %m, %d, %Y). */
  function FixedDigits(n: nat, width: nat): (s: string)
    requires n < Pow10(width)
    ensures |s| == width && AllDigits(s) && DecimalValue(s) == n
  {
    if width == 0 then []
    else
      var prefix := FixedDigits(n / 10, width - 1);
      var s := prefix + [DigitChar(n % 10)];
      assert s[..|s| - 1] == prefix;
      s
  }

  /** Writing a digit string's value back with its own width gives the same string. */
  lemma {:induction false} FixedDigitsOfValue(s: string)
    requires AllDigits(s)
    ensures DecimalValue(s) < Pow10(|s|)
    ensures FixedDigits(DecimalValue(s), |s|) == s
  {
    if s != [] {
      var prefix := s[..|s| - 1];
      FixedDigitsOfValue(prefix);
      var v := DecimalValue(s);
      assert v / 10 == DecimalValue(prefix) && v % 10 == DigitValue(s[|s| - 1]);
      assert s == prefix + [s[|s| - 1]];
    }
  }

  /** `c.lower()` for ASCII letters; other characters are left as they are. */
  function Lower(c: char): (l: char)
    ensures 'A' <= c <= 'Z' ==> l as int == c as int + 32
    ensures !('A' <= c <= 'Z') ==> l == c
  {
    if 'A' <= c <= 'Z' then (c as int + 32) as char else c
  }

  function LowerStr(s: string): (l: string)
    ensures |l| == |s| && forall i :: 0 <= i < |s| ==> l[i] == Lower(s[i])
  {
    seq(|s|, i requires 0 <= i < |s| => Lower(s[i]))
  }

  lemma LowerStrAppend(a: string, b: string)
    ensures LowerStr(a + b) == LowerStr(a) + LowerStr(b)
  {
  }

  predicate StartsWith(s: string, prefix: string) {
    |prefix| <= |s| && s[..|prefix|] == prefix
  }

  /** Python's `part in s`: `part` occurs somewhere in `s` as a contiguous block. */
  predicate Contains(s: string, part: string) {
    exists i :: 0 <= i && i + |part| <= |s| && OccursAt(s, part, i)
  }

  predicate OccursAt(s: string, part: string, i: nat)
    requires i + |part| <= |s|
  {
    s[i..i + |part|] == part
  }

  /** `str.lstrip()` */
  function TrimStart(s: string): (r: string)
    ensures |r| <= |s| && r == s[|s| - |r|..]
    ensures AllSpace(s[..|s| - |r|])
    ensures r == [] || !IsSpace(r[0])
  {
    if s != [] && IsSpace(s[0]) then TrimStart(s[1..]) else s
  }

  /** `str.rstrip()` */
  function TrimEnd(s: string): (r: string)
    ensures |r| <= |s| && r == s[..|r|]
    ensures AllSpace(s[|r|..])
    ensures r == [] || !IsSpace(r[|r| - 1])
  {
    if s != [] && IsSpace(s[|s| - 1]) then TrimEnd(s[..|s| - 1]) else s
  }

  /** `str.strip()` */
  function Strip(s: string): (r: string)
  {
    TrimEnd(TrimStart(s))
  }

  /** Stripping removes exactly the whitespace around a text that neither begins nor ends with it. */
  lemma {:induction false} StripSurrounded(lead: string, x: string, trail: string)
    requires AllSpace(lead) && AllSpace(trail)
    requires x == [] || (!IsSpace(x[0]) && !IsSpace(x[|x| - 1]))
    ensures Strip(lead + x + trail) == x
  {
    assert lead + x + trail == lead + (x + trail);
    TrimStartSpaces(lead, x + trail);
    if x == [] {
      assert x + trail == trail + [];
      TrimStartSpaces(trail, []);
      assert TrimStart(lead + x + trail) == [];
    } else {
      TrimStartNonSpace(x + trail);
      TrimEndSpaces(x, trail);
    }
  }

  lemma {:induction false} TrimStartSpaces(lead: string, rest: string)
    requires AllSpace(lead)
    ensures TrimStart(lead + rest) == TrimStart(rest)
  {
    if lead != [] {
      var s := lead + rest;
      assert s != [] && IsSpace(s[0]);
      assert TrimStart(s) == TrimStart(s[1..]);
      assert s[1..] == lead[1..] + rest;
      TrimStartSpaces(lead[1..], rest);
    } else {
      assert lead + rest == rest;
    }
  }

  lemma TrimStartNonSpace(s: string)
    requires s != [] && !IsSpace(s[0])
    ensures TrimStart(s) == s
  {
  }

  lemma {:induction false} TrimEndSpaces(x: string, trail: string)
    requires AllSpace(trail)
    requires x == [] || !IsSpace(x[|x| - 1])
    ensures TrimEnd(x + trail) == x
  {
    if trail != [] {
      var s := x + trail;
      assert IsSpace(s[|s| - 1]);
      assert s[..|s| - 1] == x + trail[..|trail| - 1];
      TrimEndSpaces(x, trail[..|trail| - 1]);
    } else {
      assert x + trail == x;
    }
  }

  /** Python's `s.split()` with no separator: the maximal runs of non-whitespace, in order. */
  function SplitWhitespace(s: string): (tokens: seq<string>)
    ensures forall t :: t in tokens ==> t != [] && forall i :: 0 <= i < |t| ==> !IsSpace(t[i])
    decreases |s|
  {
    var t := TrimStart(s);
    if t == [] then []
    else
      var w := LeadingWord(t);
      [w] + SplitWhitespace(t[|w|..])
  }

  /** The longest prefix of `s` without whitespace. */
  function LeadingWord(s: string): (w: string)
    ensures |w| <= |s| && w == s[..|w|]
    ensures forall i :: 0 <= i < |w| ==> !IsSpace(s[i])
    ensures |w| < |s| ==> IsSpace(s[|w|])
  {
    if s == [] || IsSpace(s[0]) then [] else [s[0]] + LeadingWord(s[1..])
  }

  /** Two whitespace-free words joined by whitespace split back into exactly those two words. */
  lemma {:induction false} SplitTwoWords(a: string, gap: string, b: string)
    requires a != [] && b != [] && gap != []
    requires forall i :: 0 <= i < |a| ==> !IsSpace(a[i])
    requires forall i :: 0 <= i < |b| ==> !IsSpace(b[i])
    requires AllSpace(gap)
    ensures SplitWhitespace(a + gap + b) == [a, b]
  {
    var s := a + (gap + b);
    assert a + gap + b == s;
    TrimStartNonSpace(s);
    LeadingWordOf(a, gap + b);
    assert s[|a|..] == gap + b;
    calc {
      SplitWhitespace(s);
      [LeadingWord(s)] + SplitWhitespace(s[|LeadingWord(s)|..]);
      [a] + SplitWhitespace(gap + b);
      { SplitOneWord(gap, b); }
      [a] + [b];
    }
  }

  lemma SplitOneWord(gap: string, b: string)
    requires b != [] && forall i :: 0 <= i < |b| ==> !IsSpace(b[i])
    requires AllSpace(gap)
    ensures SplitWhitespace(gap + b) == [b]
  {
    TrimStartSpaces(gap, b);
    TrimStartNonSpace(b);
    LeadingWordOf(b, []);
    assert b + [] == b;
    assert b[|b|..] == [];
    assert SplitWhitespace([]) == [];
  }

  lemma {:induction false} LeadingWordOf(w: string, rest: string)
    requires forall i :: 0 <= i < |w| ==> !IsSpace(w[i])
    requires rest == [] || IsSpace(rest[0])
    ensures LeadingWord(w + rest) == w
  {
    if w != [] {
      assert (w + rest)[1..] == w[1..] + rest;
      LeadingWordOf(w[1..], rest);
    } else {
      assert w + rest == rest;
    }
  }
}
