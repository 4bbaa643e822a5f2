/** Digits in a radix, and the decimal rendering of integers (JavaScript's
    `String(n)` / `JSON.stringify(n)` for integral numbers). */
module Chars {

  /** The value of an ASCII digit or letter as a digit (0-9, a-z/A-Z = 10-35);
      36 for every other character. */
  function DigitOf(c: char): (d: nat)
    ensures d <= 36
  {
    if '0' <= c <= '9' then c as int - '0' as int
    else if 'a' <= c <= 'z' then c as int - 'a' as int + 10
    else if 'A' <= c <= 'Z' then c as int - 'A' as int + 10
    else 36
  }

  predicate InRadix(c: char, radix: nat)
  {
    DigitOf(c) < radix
  }

  predicate IsDigit(c: char)
  {
    InRadix(c, 10)
  }

  predicate AllInRadix(ds: string, radix: nat)
  {
    forall i :: 0 <= i < |ds| ==> InRadix(ds[i], radix)
  }

  /** Length of the longest prefix of `s` made of digits of `radix`. */
  function RadixRun(s: string, radix: nat): (k: nat)
    ensures k <= |s|
    ensures AllInRadix(s[..k], radix)
    ensures k < |s| ==> !InRadix(s[k], radix)
  {
    if s == [] || !InRadix(s[0], radix) then 0
    else
      var k := 1 + RadixRun(s[1..], radix);
      assert s[..k] == [s[0]] + s[1..][..k - 1];
      k
  }

  /** The number a digit string denotes in `radix`, most significant digit first. */
  function RadixValue(ds: string, radix: nat): nat
    requires AllInRadix(ds, radix)
  {
    if ds == [] then 0
    else RadixValue(ds[..|ds| - 1], radix) * radix + DigitOf(ds[|ds| - 1])
  }

  /** The lower-case digit character for `d` (as JSON.stringify writes hex digits). */
  function Digit(d: nat): (c: char)
    requires d < 16
    ensures DigitOf(c) == d
  {
    if d < 10 then ('0' as int + d) as char else ('a' as int + d - 10) as char
  }

  /** Decimal rendering of a natural number, without leading zeros. */
  function NatToString(n: nat): (s: string)
    ensures |s| > 0 && AllInRadix(s, 10)
  {
    if n < 10 then [Digit(n)] else NatToString(n / 10) + [Digit(n % 10)]
  }

  /** Decimal rendering of an integer: a '-' before the digits of a negative one. */
  function IntToString(n: int): string
  {
    if n < 0 then "-" + NatToString(-n) else NatToString(n)
  }

  lemma {:induction false} NatToStringValue(n: nat)
    ensures RadixValue(NatToString(n), 10) == n
  {
    var s := NatToString(n);
    if n >= 10 {
      NatToStringValue(n / 10);
      assert s[..|s| - 1] == NatToString(n / 10);
    }
  }

  /** Only zero is rendered with a leading '0'. */
  lemma {:induction false} NatToStringHead(n: nat)
    ensures (NatToString(n)[0] == '0') == (n == 0)
  {
    if n >= 10 {
      NatToStringHead(n / 10);
      assert NatToString(n)[0] == NatToString(n / 10)[0];
    }
  }

  lemma {:induction false} RadixRunAppend(ds: string, rest: string, radix: nat)
    requires AllInRadix(ds, radix)
    ensures RadixRun(ds + rest, radix) == |ds| + RadixRun(rest, radix)
  {
    if ds != [] {
      assert (ds + rest)[1..] == ds[1..] + rest;
      RadixRunAppend(ds[1..], rest, radix);
    } else {
      assert ds + rest == rest;
    }
  }
}
