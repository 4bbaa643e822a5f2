/** JavaScript's reading of a string as a number, as the purchase validator
    uses it (Components/ProductList.jsx:112-116): `isNaN(s)`, which converts
    `s` with `Number(s)`, and `parseInt(s)` without a radix. NaN is None. */
module JsNumber {
  import opened Wrappers
  import opened Chars

  /** ECMAScript's StrWhiteSpaceChar: the WhiteSpace and LineTerminator code points. */
  predicate IsStrWhiteSpace(c: char)
  {
    var n := c as int;
    n == 0x09 || n == 0x0A || n == 0x0B || n == 0x0C || n == 0x0D || n == 0x20 ||
    n == 0xA0 || n == 0x1680 || (0x2000 <= n <= 0x200A) || n == 0x2028 || n == 0x2029 ||
    n == 0x202F || n == 0x205F || n == 0x3000 || n == 0xFEFF
  }

  function TrimStart(s: string): (r: string)
    ensures |r| <= |s| && r == s[|s| - |r|..]
    ensures r == [] || !IsStrWhiteSpace(r[0])
  {
    if s != [] && IsStrWhiteSpace(s[0]) then TrimStart(s[1..]) else s
  }

  function TrimEnd(s: string): (r: string)
    ensures |r| <= |s| && r == s[..|r|]
    ensures r == [] || !IsStrWhiteSpace(r[|r| - 1])
  {
    if s != [] && IsStrWhiteSpace(s[|s| - 1]) then TrimEnd(s[..|s| - 1]) else s
  }

  function Trim(s: string): string
  {
    TrimEnd(TrimStart(s))
  }

  // ---------------------------------------------------------------------------
  // Number(s) and isNaN(s)

  /** `Number(s)` is a number (not NaN) exactly when the text between the
      surrounding white space is empty or a StringNumericLiteral. */
  predicate IsNumericString(s: string)
    ensures IsNumericString(s) && Trim(s) != [] ==>
      InRadix(Trim(s)[0], 10) || Trim(s)[0] in "+-.I"
  {
    var t := Trim(s);
    t == [] || IsNonDecimalIntegerLiteral(t) || IsStrDecimalLiteral(t)
  }

  /** `isNaN(s)` for a string `s`. */
  predicate IsNaN(s: string)
    ensures IsNaN(s) ==> Trim(s) != []
  {
    !IsNumericString(s)
  }

  /** `0x1F`, `0o17`, `0b101` (either case of the letter, no sign). */
  predicate IsNonDecimalIntegerLiteral(t: string)
  {
    |t| > 2 && t[0] == '0' &&
    (((t[1] == 'x' || t[1] == 'X') && AllInRadix(t[2..], 16)) ||
     ((t[1] == 'o' || t[1] == 'O') && AllInRadix(t[2..], 8)) ||
     ((t[1] == 'b' || t[1] == 'B') && AllInRadix(t[2..], 2)))
  }

  /** An optional sign, then `Infinity` or an unsigned decimal literal. */
  predicate IsStrDecimalLiteral(t: string)
  {
    var u := if t != [] && (t[0] == '+' || t[0] == '-') then t[1..] else t;
    u == "Infinity" || IsUnsignedDecimalLiteral(u)
  }

  /** `12`, `12.`, `12.5`, `.5`, each with an optional exponent. */
  predicate IsUnsignedDecimalLiteral(u: string)
  {
    var a := RadixRun(u, 10);
    var r1 := u[a..];
    if r1 != [] && r1[0] == '.' then
      var b := RadixRun(r1[1..], 10);
      (a > 0 || b > 0) && IsOptionalExponent(r1[1 + b..])
    else a > 0 && IsOptionalExponent(r1)
  }

  predicate IsOptionalExponent(e: string)
  {
    e == [] ||
    (|e| >= 2 && (e[0] == 'e' || e[0] == 'E') &&
     var d := if e[1] == '+' || e[1] == '-' then e[2..] else e[1..];
     d != [] && AllInRadix(d, 10))
  }

  // ---------------------------------------------------------------------------
  // parseInt(s)

  /** `parseInt(s)` with no radix: leading white space and one sign are
      skipped, a `0x`/`0X` prefix selects hexadecimal, and the longest run of
      digits that follows is read. No digits: NaN. */
  function ParseInt(s: string): (r: Option<int>)
    ensures r.Some? ==> TrimStart(s) != []
  {
    ParseSigned(TrimStart(s))
  }

  function ParseSigned(t: string): Option<int>
  {
    if t != [] && t[0] == '-' then
      match ParseUnsigned(t[1..])
      case Some(m) => Some(-(m as int))
      case None => None
    else if t != [] && t[0] == '+' then
      match ParseUnsigned(t[1..])
      case Some(m) => Some(m as int)
      case None => None
    else
      match ParseUnsigned(t)
      case Some(m) => Some(m as int)
      case None => None
  }

  function ParseUnsigned(u: string): Option<nat>
  {
    if |u| >= 2 && u[0] == '0' && (u[1] == 'x' || u[1] == 'X') then ReadDigits(u[2..], 16)
    else ReadDigits(u, 10)
  }

  /** The longest prefix of digits of `radix`, read as a number; None when there is none. */
  function ReadDigits(d: string, radix: nat): (r: Option<nat>)
    ensures r.Some? <==> d != [] && InRadix(d[0], radix)
  {
    var k := RadixRun(d, radix);
    if k == 0 then None else Some(RadixValue(d[..k], radix))
  }

  // ---------------------------------------------------------------------------
  // Properties

  /** A negative number comes only from a minus sign after the leading white space. */
  lemma ParseIntSign(s: string)
    requires ParseInt(s).Some? && ParseInt(s).value < 0
    ensures TrimStart(s) != [] && TrimStart(s)[0] == '-'
  {
  }

  /** No printable ASCII character other than space is white space. */
  lemma VisibleNotWhite(c: char)
    requires 0x21 <= c as int <= 0x7E
    ensures !IsStrWhiteSpace(c)
  {
  }

  lemma DigitVisible(c: char)
    requires InRadix(c, 10)
    ensures 0x30 <= c as int <= 0x39
  {
  }

  /** Text that starts and ends with a visible character is its own trim. */
  lemma TrimVisible(s: string)
    requires s != [] && 0x21 <= s[0] as int <= 0x7E && 0x21 <= s[|s| - 1] as int <= 0x7E
    ensures TrimStart(s) == s && Trim(s) == s
  {
    VisibleNotWhite(s[0]);
    VisibleNotWhite(s[|s| - 1]);
  }

  /** Digits followed by text that does not continue them: ReadDigits reads exactly the digits. */
  lemma ReadDigitsPrefix(ds: string, rest: string, radix: nat)
    requires ds != [] && AllInRadix(ds, radix)
    requires rest == [] || !InRadix(rest[0], radix)
    ensures ReadDigits(ds + rest, radix) == Some(RadixValue(ds, radix))
  {
    RadixRunAppend(ds, rest, radix);
    assert (ds + rest)[..|ds|] == ds;
    assert (ds + rest)[0] == ds[0];
  }

  /** A run of decimal digits is read whole by parseInt's unsigned part. */
  lemma ParseUnsignedDecimal(d: string)
    requires d != [] && AllInRadix(d, 10)
    ensures ParseUnsigned(d) == Some(RadixValue(d, 10))
  {
    ReadDigitsPrefix(d, "", 10);
    assert d + "" == d;
    if |d| >= 2 {
      assert InRadix(d[1], 10);
      DigitVisible(d[1]);
    }
  }

  lemma TrimStartVisible(s: string)
    requires s != [] && 0x21 <= s[0] as int <= 0x7E
    ensures TrimStart(s) == s
  {
    VisibleNotWhite(s[0]);
  }

  /** parseInt reads a run of decimal digits. */
  lemma ParseIntDigits(d: string)
    requires d != [] && AllInRadix(d, 10)
    ensures ParseInt(d) == Some(RadixValue(d, 10) as int)
  {
    ParseUnsignedDecimal(d);
    assert InRadix(d[0], 10);
    DigitVisible(d[0]);
    TrimStartVisible(d);
  }

  /** A minus sign before text that parseInt's unsigned part reads: the negated number. */
  lemma NegativeParseInt(d: string, m: nat)
    requires ParseUnsigned(d) == Some(m)
    ensures ParseInt("-" + d) == Some(-(m as int))
  {
    var s := "-" + d;
    assert s[0] == '-' && s[1..] == d;
    NegativeSigned(s, m);
    TrimStartVisible(s);
    SignedIsParseInt(s);
  }

  lemma SignedIsParseInt(s: string)
    requires TrimStart(s) == s
    ensures ParseInt(s) == ParseSigned(s)
  {
  }

  lemma NegativeSigned(s: string, m: nat)
    requires s != [] && s[0] == '-' && ParseUnsigned(s[1..]) == Some(m)
    ensures ParseSigned(s) == Some(-(m as int))
  {
  }

  /** parseInt reads back the decimal rendering of every integer. */
  lemma ParseIntOfDecimal(n: int)
    ensures ParseInt(IntToString(n)) == Some(n)
  {
    var m: nat := if n < 0 then -n else n;
    NatToStringValue(m);
    if n < 0 {
      ParseUnsignedDecimal(NatToString(m));
      NegativeParseInt(NatToString(m), m);
    } else {
      ParseIntDigits(NatToString(m));
    }
  }

  /** The decimal rendering of an integer is a number to `Number()`. */
  lemma DecimalIsNumeric(n: int)
    ensures !IsNaN(IntToString(n))
  {
    var m: nat := if n < 0 then -n else n;
    var d := NatToString(m);
    var s := IntToString(n);
    assert InRadix(d[0], 10) && InRadix(d[|d| - 1], 10);
    DigitVisible(d[0]);
    DigitVisible(d[|d| - 1]);
    assert s[|s| - 1] == d[|d| - 1];
    TrimVisible(s);
    RadixRunAppend(d, "", 10);
    assert d + "" == d && d[|d|..] == [];
    assert IsUnsignedDecimalLiteral(d);
    if n < 0 {
      assert s[1..] == d;
    } else {
      DigitVisible(s[0]);
    }
    assert IsStrDecimalLiteral(s);
  }

  lemma {:induction false} TrimStartSkipsWhiteSpace(w: string, s: string)
    requires forall i :: 0 <= i < |w| ==> IsStrWhiteSpace(w[i])
    ensures TrimStart(w + s) == TrimStart(s)
  {
    if w != [] {
      assert (w + s)[1..] == w[1..] + s;
      assert (w + s)[0] == w[0];
      TrimStartSkipsWhiteSpace(w[1..], s);
    } else {
      assert w + s == s;
    }
  }

  /** Leading white space does not change what parseInt reads. */
  lemma ParseIntSkipsWhiteSpace(w: string, s: string)
    requires forall i :: 0 <= i < |w| ==> IsStrWhiteSpace(w[i])
    ensures ParseInt(w + s) == ParseInt(s)
  {
    TrimStartSkipsWhiteSpace(w, s);
  }

  /** parseInt reads the integer prefix and ignores the rest of the text:
      `parseInt("12abc")` is 12. */
  lemma ParseIntPrefix(ds: string, rest: string)
    requires ds != [] && AllInRadix(ds, 10)
    requires rest == [] || (!InRadix(rest[0], 10) && rest[0] != 'x' && rest[0] != 'X')
    ensures ParseInt(ds + rest) == Some(RadixValue(ds, 10))
  {
    var m := RadixValue(ds, 10);
    assert InRadix(ds[0], 10);
    DigitVisible(ds[0]);
    UnsignedPrefix(ds, rest);
    PositiveParseInt(ds + rest, m);
  }

  lemma UnsignedPrefix(ds: string, rest: string)
    requires ds != [] && AllInRadix(ds, 10)
    requires rest == [] || (!InRadix(rest[0], 10) && rest[0] != 'x' && rest[0] != 'X')
    ensures ParseUnsigned(ds + rest) == Some(RadixValue(ds, 10))
  {
    var s := ds + rest;
    ReadDigitsPrefix(ds, rest, 10);
    if |s| >= 2 {
      if |ds| >= 2 {
        assert s[1] == ds[1];
        assert InRadix(ds[1], 10);
      } else {
        assert s[1] == rest[0];
      }
    }
  }

  /** Unsigned text starting with a visible character is read by parseInt unchanged. */
  lemma PositiveParseInt(s: string, m: nat)
    requires s != [] && 0x21 <= s[0] as int <= 0x7E && s[0] != '-' && s[0] != '+'
    requires ParseUnsigned(s) == Some(m)
    ensures ParseInt(s) == Some(m as int)
  {
    TrimStartVisible(s);
  }

  /** Every answer made of white space only, the empty one included, is a
      number to `Number()` (zero), but parseInt finds no digits in it. */
  lemma WhiteSpaceIsNumeric(w: string)
    requires forall i :: 0 <= i < |w| ==> IsStrWhiteSpace(w[i])
    ensures !IsNaN(w) && ParseInt(w) == None
  {
    BlankTrimsAway(w);
    EmptyTrimmed(w);
    assert ParseInt(w) == ParseSigned([]);
  }

  lemma BlankTrimsAway(w: string)
    requires forall i :: 0 <= i < |w| ==> IsStrWhiteSpace(w[i])
    ensures TrimStart(w) == []
  {
    TrimStartSkipsWhiteSpace(w, "");
    assert w + "" == w;
  }

  lemma EmptyTrimmed(s: string)
    requires TrimStart(s) == []
    ensures IsNumericString(s)
  {
    assert Trim(s) == TrimEnd([]) == [];
  }

  /** Every answer that is a point followed by decimal digits (".5", ".25")
      is a number to `Number()`, but parseInt finds no digits before the point. */
  lemma PointFractionIsNumeric(ds: string)
    requires ds != [] && AllInRadix(ds, 10)
    ensures !IsNaN("." + ds) && ParseInt("." + ds) == None
  {
    var s := "." + ds;
    assert s[|s| - 1] == ds[|ds| - 1] && InRadix(ds[|ds| - 1], 10);
    DigitVisible(ds[|ds| - 1]);
    TrimVisible(s);
    PointFractionLiteral(s, ds);
    assert !InRadix(s[0], 10);
    assert ParseUnsigned(s) == None;
  }

  lemma PointFractionLiteral(s: string, ds: string)
    requires ds != [] && AllInRadix(ds, 10) && s == "." + ds
    ensures IsStrDecimalLiteral(s)
  {
    assert !InRadix(s[0], 10);
    assert RadixRun(s, 10) == 0;
    assert s[0..] == s && s[1..] == ds;
    RadixRunAppend(ds, "", 10);
    assert ds + "" == ds;
    assert s[1 + |ds|..] == [];
    assert IsUnsignedDecimalLiteral(s);
  }

  /** The empty answer: a number to `Number()`, NaN to parseInt. */
  lemma EmptyIsNumeric()
    ensures !IsNaN("") && ParseInt("") == None
  {
    WhiteSpaceIsNumeric("");
  }

  /** ".5": a number to `Number()`, NaN to parseInt. */
  lemma FractionIsNumeric()
    ensures !IsNaN(".5") && ParseInt(".5") == None
  {
    PointFractionIsNumeric("5");
    assert "." + "5" == ".5";
  }

  lemma InfinityIsNumeric()
    ensures !IsNaN("Infinity") && ParseInt("Infinity") == None
  {
    TrimVisible("Infinity");
  }

  /** `1e3` is the number 1000, but parseInt stops at the `e`. */
  lemma ExponentExample()
    ensures !IsNaN("1e3") && ParseInt("1e3") == Some(1)
  {
    TrimVisible("1e3");
    assert "1e3" == "1" + "e3";
    ReadDigitsPrefix("1", "e3", 10);
    RadixRunAppend("1", "e3", 10);
    assert "1e3"[1..] == "e3" && "e3"[1..] == "3";
    assert AllInRadix("3", 10);
    assert IsUnsignedDecimalLiteral("1e3");
    assert ParseUnsigned("1e3") == Some(1);
  }

  /** `12abc` is NaN to `Number()`, but parseInt reads 12. */
  lemma TrailingTextExample()
    ensures IsNaN("12abc") && ParseInt("12abc") == Some(12)
  {
    TrimVisible("12abc");
    assert "12abc" == "12" + "abc";
    ReadDigitsPrefix("12", "abc", 10);
    RadixRunAppend("12", "abc", 10);
    assert "12abc"[2..] == "abc";
    assert !IsUnsignedDecimalLiteral("12abc");
    assert "12"[..1] == "1" && "1"[..0] == [];
    assert ParseUnsigned("12abc") == Some(12);
  }

  /** `0x10` is 16 to both. */
  lemma HexExample()
    ensures !IsNaN("0x10") && ParseInt("0x10") == Some(16)
  {
    TrimVisible("0x10");
    assert "0x10"[2..] == "10";
    ReadDigitsPrefix("10", "", 16);
    assert "10" + "" == "10";
    assert "10"[..1] == "1" && "1"[..0] == [];
    assert AllInRadix("0x10"[2..], 16);
  }
}
