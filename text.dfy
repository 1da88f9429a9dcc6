/** String helpers standing for the Python `str` methods the core calls:
    `startswith`, `replace`, `capitalize`, `rjust`, `center`, `zfill`, and
    `str()` of a non-negative integer. Only ASCII case mapping is modelled. */
module Text {

  const Space: char := ' '
  const Newline: char := '\n'

  /** `k.startswith("_")`: the attribute name is private. */
  predicate IsPrivate(k: string) {
    |k| > 0 && k[0] == '_'
  }

  function Repeat(c: char, n: nat): (r: string)
    ensures |r| == n
    ensures forall i :: 0 <= i < n ==> r[i] == c
  {
    if n == 0 then [] else [c] + Repeat(c, n - 1)
  }

  /** `s.replace(" ", "\n")`. */
  function SpacesToNewlines(s: string): (r: string)
    ensures |r| == |s|
    ensures forall i :: 0 <= i < |s| ==> r[i] == (if s[i] == Space then Newline else s[i])
  {
    seq(|s|, i requires 0 <= i < |s| => if s[i] == Space then Newline else s[i])
  }

  lemma SpacesToNewlinesLeavesNoSpace(s: string)
    ensures Space !in SpacesToNewlines(s)
  {
    var r := SpacesToNewlines(s);
    forall i | 0 <= i < |r| ensures r[i] != Space { }
  }

  lemma SpacesToNewlinesIdempotent(s: string)
    ensures SpacesToNewlines(SpacesToNewlines(s)) == SpacesToNewlines(s)
  {
  }

  predicate IsAsciiUpper(c: char) { 'A' <= c <= 'Z' }
  predicate IsAsciiLower(c: char) { 'a' <= c <= 'z' }

  function ToUpper(c: char): char {
    if IsAsciiLower(c) then (c as int - 32) as char else c
  }

  function ToLower(c: char): char {
    if IsAsciiUpper(c) then (c as int + 32) as char else c
  }

  /** `s.lower()`. */
  function Lower(s: string): (r: string)
    ensures |r| == |s| && forall i :: 0 <= i < |s| ==> r[i] == ToLower(s[i])
  {
    seq(|s|, i requires 0 <= i < |s| => ToLower(s[i]))
  }

  /** A one-letter axis name matches case-insensitively and nothing else does. */
  lemma LowerIsLetter(s: string, c: char)
    requires IsAsciiLower(c)
    ensures Lower(s) == [c] <==> s == [c] || s == [ToUpper(c)]
  {
    if Lower(s) == [c] {
      assert |s| == 1 && ToLower(s[0]) == c;
    }
  }

  /** `s.capitalize()`: first character upper case, the rest lower case. */
  function Capitalize(s: string): (r: string)
    ensures |r| == |s|
    ensures |s| > 0 ==> r[0] == ToUpper(s[0])
    ensures forall i :: 1 <= i < |s| ==> r[i] == ToLower(s[i])
  {
    if s == [] then []
    else [ToUpper(s[0])] + seq(|s| - 1, i requires 0 <= i < |s| - 1 => ToLower(s[i + 1]))
  }

  /** `s.rjust(width, ' ')`. */
  function RJust(s: string, width: nat): (r: string)
    ensures |s| >= width ==> r == s
    ensures |s| < width ==> |r| == width && r[width - |s|..] == s
    ensures |s| < width ==> forall i :: 0 <= i < width - |s| ==> r[i] == Space
  {
    if |s| >= width then s else Repeat(Space, width - |s|) + s
  }

  /** The left margin CPython's `str.center` uses: half the padding, rounded
      up only when both the padding and the width are odd. */
  function CenterLeft(len: nat, width: nat): nat
    requires len < width
  {
    var marg := width - len;
    marg / 2 + (if marg % 2 == 1 && width % 2 == 1 then 1 else 0)
  }

  /** `s.center(width, ' ')`. */
  function Center(s: string, width: nat): (r: string)
    ensures |s| >= width ==> r == s
    ensures |s| < width ==> |r| == width
    ensures |s| < width ==> r[CenterLeft(|s|, width)..CenterLeft(|s|, width) + |s|] == s
    ensures |s| < width ==> forall i :: 0 <= i < width && !(CenterLeft(|s|, width) <= i < CenterLeft(|s|, width) + |s|) ==> r[i] == Space
  {
    if |s| >= width then s
    else
      var left := CenterLeft(|s|, width);
      Repeat(Space, left) + s + Repeat(Space, width - |s| - left)
  }

  function Digit(d: nat): char
    requires d < 10
  {
    "0123456789"[d]
  }

  /** The value of one decimal digit character; other characters count 0. */
  function DigitValue(c: char): nat {
    if '0' <= c <= '9' then c as int - '0' as int else 0
  }

  /** The number a string of decimal digits denotes, read from the left. */
  function DigitsValue(s: string): nat {
    if s == [] then 0 else DigitsValue(s[..|s| - 1]) * 10 + DigitValue(s[|s| - 1])
  }

  /** `str(n)` for a non-negative integer. */
  function Decimal(n: nat): (r: string)
    ensures |r| >= 1
    ensures forall i :: 0 <= i < |r| ==> '0' <= r[i] <= '9'
    decreases n
  {
    if n < 10 then [Digit(n)] else Decimal(n / 10) + [Digit(n % 10)]
  }

  /** `str(n)` denotes n, and starts with a zero only for 0. */
  lemma {:induction false} DecimalValue(n: nat)
    ensures DigitsValue(Decimal(n)) == n
    ensures Decimal(n)[0] == '0' <==> n == 0
    decreases n
  {
    if n < 10 {
      DigitRoundTrip(n);
    } else {
      var q, d := n / 10, n % 10;
      DecimalValue(q);
      DigitRoundTrip(d);
      var r := Decimal(n);
      assert r == Decimal(q) + [Digit(d)];
      assert r[..|r| - 1] == Decimal(q);
      assert DigitsValue(r) == q * 10 + d;
    }
  }

  lemma DropLast(s: string)
    requires |s| >= 1
    ensures s[..|s| - 1] + [s[|s| - 1]] == s
  {
  }

  /** Appending a digit to a positive number appends its character. */
  lemma DecimalSnoc(n: nat, v: nat, d: nat)
    requires v >= 1 && d < 10 && n == v * 10 + d
    ensures Decimal(n) == Decimal(v) + [Digit(d)]
  {
    assert n / 10 == v && n % 10 == d;
  }

  /** The last digit of a digit string comes last in `str` of its value. */
  lemma DecimalOfDigitsLast(s: string)
    requires |s| >= 2 && '0' <= s[|s| - 1] <= '9' && DigitsValue(s[..|s| - 1]) >= 1
    ensures Decimal(DigitsValue(s)) == Decimal(DigitsValue(s[..|s| - 1])) + [s[|s| - 1]]
  {
    var c := s[|s| - 1];
    CharRoundTrip(c);
    DecimalSnoc(DigitsValue(s), DigitsValue(s[..|s| - 1]), DigitValue(c));
  }

  /** A digit character is written back from the digit it reads as. */
  lemma CharRoundTrip(c: char)
    requires '0' <= c <= '9'
    ensures DigitValue(c) < 10 && Digit(DigitValue(c)) == c
  {
    if c == '0' {} else if c == '1' {} else if c == '2' {} else if c == '3' {} else if c == '4' {}
    else if c == '5' {} else if c == '6' {} else if c == '7' {} else if c == '8' {} else {}
  }

  /** A digit character reads back as the digit it was written for. */
  lemma DigitRoundTrip(d: nat)
    requires d < 10
    ensures DigitValue(Digit(d)) == d
    ensures Digit(d) == '0' <==> d == 0
  {
  }

  /** A digit string that does not start with a zero denotes a positive number. */
  lemma {:induction false} DigitsValuePositive(s: string)
    requires |s| >= 1 && s[0] != '0'
    requires forall i :: 0 <= i < |s| ==> '0' <= s[i] <= '9'
    ensures DigitsValue(s) >= 1
    decreases |s|
  {
    if |s| > 1 {
      DigitsValuePositive(s[..|s| - 1]);
    }
  }

  /** `Decimal` is the inverse of `DigitsValue` on digit strings without a
      leading zero: every such string is `str` of the number it denotes. */
  lemma {:induction false} DecimalOfDigits(s: string)
    requires |s| >= 1 && (s[0] != '0' || |s| == 1)
    requires forall i :: 0 <= i < |s| ==> '0' <= s[i] <= '9'
    ensures Decimal(DigitsValue(s)) == s
    decreases |s|
  {
    var c := s[|s| - 1];
    if |s| > 1 {
      var p := s[..|s| - 1];
      assert p[0] == s[0];
      assert forall i :: 0 <= i < |p| ==> '0' <= p[i] <= '9' by {
        forall i | 0 <= i < |p| ensures '0' <= p[i] <= '9' {
          assert p[i] == s[i];
        }
      }
      DecimalOfDigits(p);
      DigitsValuePositive(p);
      DecimalOfDigitsLast(s);
      DropLast(s);
    } else {
      CharRoundTrip(c);
      assert s == [c];
    }
  }

  function Pow10(k: nat): (r: nat)
    ensures r >= 1
  {
    if k == 0 then 1 else 10 * Pow10(k - 1)
  }

  /** The decimal form of n fits in k digits exactly when n < 10^k. */
  lemma {:induction false} DecimalLength(n: nat, k: nat)
    requires k >= 1
    ensures |Decimal(n)| <= k <==> n < Pow10(k)
    decreases n
  {
    if n < 10 {
      assert |Decimal(n)| == 1;
      Pow10AtLeastTen(k);
    } else {
      if k == 1 {
        assert |Decimal(n)| >= 2 by { assert |Decimal(n)| == |Decimal(n / 10)| + 1; }
      } else {
        DecimalLength(n / 10, k - 1);
      }
    }
  }

  lemma {:induction false} Pow10AtLeastTen(k: nat)
    requires k >= 1
    ensures Pow10(k) >= 10
  {
    if k > 1 { Pow10AtLeastTen(k - 1); }
  }

  /** `str(10**k)` has k + 1 digits. */
  lemma {:induction false} DecimalOfPow10(k: nat)
    ensures |Decimal(Pow10(k))| == k + 1
  {
    if k > 0 {
      DecimalOfPow10(k - 1);
      assert Pow10(k) / 10 == Pow10(k - 1);
    }
  }

  /** `s.zfill(width)` for a string without a sign. */
  function ZFill(s: string, width: nat): (r: string)
    ensures |s| >= width ==> r == s
    ensures |s| < width ==> |r| == width && r[width - |s|..] == s
    ensures |s| < width ==> forall i :: 0 <= i < width - |s| ==> r[i] == '0'
  {
    if |s| >= width then s else Repeat('0', width - |s|) + s
  }

  /** `sep.join(parts)`. */
  function Join(sep: string, parts: seq<string>): string
  {
    if parts == [] then ""
    else if |parts| == 1 then parts[0]
    else parts[0] + sep + Join(sep, parts[1..])
  }

  /** Joining one more part puts the separator before it, unless it is the
      only part. */
  lemma {:induction false} JoinSnoc(sep: string, parts: seq<string>, p: string)
    ensures Join(sep, parts + [p]) == if parts == [] then p else Join(sep, parts) + sep + p
    decreases |parts|
  {
    if parts == [] {
      assert parts + [p] == [p];
    } else if |parts| == 1 {
      assert (parts + [p])[1..] == [p];
    } else {
      assert (parts + [p])[1..] == parts[1..] + [p];
      JoinSnoc(sep, parts[1..], p);
    }
  }

  /** Python's `int(x)` on a real: truncation toward zero. */
  function Trunc(x: real): (r: int)
    ensures x >= 0.0 ==> r as real <= x < r as real + 1.0
    ensures x < 0.0 ==> r as real - 1.0 < x <= r as real
  {
    if x >= 0.0 then x.Floor else -((-x).Floor)
  }

  /** `str(i)` for any integer. */
  function IntToString(i: int): string
  {
    if i < 0 then "-" + Decimal(-i) else Decimal(i)
  }
}
