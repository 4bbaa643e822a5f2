/** JSON values with `JSON.stringify` and `JSON.parse` as the session store uses
    them to keep the user profile in a cookie (src/AuthContext.jsx:33,43).
    An object is its members in property order. */
module Json {
  import opened Wrappers
  import opened Chars

  datatype Json =
    | JNull
    | JBool(b: bool)
    | JNumber(n: int)
    | JString(s: string)
    | JArray(items: seq<Json>)
    | JObject(members: seq<Member>)

  datatype Member = Member(key: string, value: Json)

  // ---------------------------------------------------------------------------
  // Property access and truthiness, as JavaScript evaluates `v.key` and `if (v)`.

  /** `obj.key`: None stands for `undefined`. A repeated key is resolved the
      way JSON.parse resolves it: the last member wins. Only objects have the
      properties this client reads. */
  function Get(v: Json, key: string): (r: Option<Json>)
    ensures r.Some? <==> v.JObject? && exists i :: 0 <= i < |v.members| && v.members[i].key == key
    ensures r.Some? ==> Member(key, r.value) in v.members
    ensures r.Some? ==>
      v.JObject? &&
      exists i :: 0 <= i < |v.members| && v.members[i] == Member(key, r.value) &&
                  forall j :: i < j < |v.members| ==> v.members[j].key != key
  {
    match v
    case JObject(ms) => Lookup(ms, key)
    case _ => None
  }

  function Lookup(ms: seq<Member>, key: string): (r: Option<Json>)
    ensures r.Some? <==> exists i :: 0 <= i < |ms| && ms[i].key == key
    ensures r.Some? ==> Member(key, r.value) in ms
    ensures r.Some? ==>
      exists i :: 0 <= i < |ms| && ms[i] == Member(key, r.value) &&
                  forall j :: i < j < |ms| ==> ms[j].key != key
  {
    if ms == [] then None
    else if ms[|ms| - 1].key == key then Some(ms[|ms| - 1].value)
    else
      var r := Lookup(ms[..|ms| - 1], key);
      assert forall i :: 0 <= i < |ms| - 1 ==> ms[..|ms| - 1][i] == ms[i];
      r
  }

  /** JavaScript truthiness of a JSON value. */
  predicate Truthy(v: Json)
  {
    match v
    case JNull => false
    case JBool(b) => b
    case JNumber(n) => n != 0
    case JString(s) => s != ""
    case _ => true
  }

  /** Truthiness of a property read, where `undefined` is falsy. */
  predicate Present(o: Option<Json>)
  {
    o.Some? && Truthy(o.value)
  }

  // ---------------------------------------------------------------------------
  // JSON.stringify

  /** `JSON.stringify`: strings, arrays and objects come out between their delimiters. */
  function Stringify(v: Json): (s: string)
    ensures v.JString? ==> |s| >= 2 && s[0] == '"' && s[|s| - 1] == '"'
    ensures v.JArray? ==> |s| >= 2 && s[0] == '[' && s[|s| - 1] == ']'
    ensures v.JObject? ==> |s| >= 2 && s[0] == '{' && s[|s| - 1] == '}'
  {
    match v
    case JNull => "null"
    case JBool(b) => if b then "true" else "false"
    case JNumber(n) => IntToString(n)
    case JString(s) => Quote(s)
    case JArray(items) => "[" + JoinItems(items) + "]"
    case JObject(ms) => "{" + JoinMembers(ms) + "}"
  }

  function JoinItems(items: seq<Json>): string
  {
    if items == [] then ""
    else if |items| == 1 then Stringify(items[0])
    else Stringify(items[0]) + "," + JoinItems(items[1..])
  }

  function JoinMembers(ms: seq<Member>): string
  {
    if ms == [] then ""
    else if |ms| == 1 then StringifyMember(ms[0])
    else StringifyMember(ms[0]) + "," + JoinMembers(ms[1..])
  }

  function StringifyMember(m: Member): string
  {
    Quote(m.key) + ":" + Stringify(m.value)
  }

  function Quote(s: string): string
  {
    "\"" + Escape(s) + "\""
  }

  function Escape(s: string): string
  {
    if s == [] then "" else EscapeChar(s[0]) + Escape(s[1..])
  }

  /** How JSON.stringify writes one character of a string: the two-character
      escapes, `\u00xx` with lower-case hex for the other control characters,
      and every other character as itself. */
  function EscapeChar(c: char): string
  {
    if c == '"' then "\\\""
    else if c == '\\' then "\\\\"
    else if c as int == 0x08 then "\\b"
    else if c == '\t' then "\\t"
    else if c == '\n' then "\\n"
    else if c as int == 0x0C then "\\f"
    else if c == '\r' then "\\r"
    else if (c as int) < 0x20 then "\\u00" + [Digit((c as int) / 16), Digit((c as int) % 16)]
    else [c]
  }

  // ---------------------------------------------------------------------------
  // JSON.parse

  predicate IsWhitespace(c: char)
  {
    c == ' ' || c == '\t' || c == '\n' || c == '\r'
  }

  function SkipWhitespace(s: string): (r: string)
    ensures |r| <= |s|
    ensures s != [] && !IsWhitespace(s[0]) ==> r == s
  {
    if s != [] && IsWhitespace(s[0]) then SkipWhitespace(s[1..]) else s
  }

  /** The skip leaves exactly what follows the leading JSON white space:
      a suffix of the text that does not start with white space, with only
      white space dropped before it. */
  lemma {:induction false} SkipWhitespaceSuffix(s: string)
    ensures SkipWhitespace(s) == s[|s| - |SkipWhitespace(s)|..]
    ensures SkipWhitespace(s) == [] || !IsWhitespace(SkipWhitespace(s)[0])
    ensures forall i :: 0 <= i < |s| - |SkipWhitespace(s)| ==> IsWhitespace(s[i])
  {
    if s != [] && IsWhitespace(s[0]) {
      SkipWhitespaceSuffix(s[1..]);
      assert forall i :: 1 <= i < |s| - |SkipWhitespace(s)| ==> s[i] == s[1..][i - 1];
    }
  }

  /** The whole text must be one value, surrounded by whitespace at most.
      Text with nothing but white space in it is refused. */
  function Parse(s: string): (r: Option<Json>)
    ensures SkipWhitespace(s) == [] ==> r.None?
  {
    match ParseValue(s)
    case None => None
    case Some((v, rest)) => if SkipWhitespace(rest) == [] then Some(v) else None
  }

  function ParseValue(s: string): (r: Option<(Json, string)>)
    ensures r.Some? ==> |r.value.1| < |s|
    decreases |s|, 1
  {
    var t := SkipWhitespace(s);
    if t == [] then None
    else if t[0] == 'n' then Literal(t, "null", JNull)
    else if t[0] == 't' then Literal(t, "true", JBool(true))
    else if t[0] == 'f' then Literal(t, "false", JBool(false))
    else if t[0] == '"' then
      match ParseStringBody(t[1..])
      case None => None
      case Some((str, rest)) => Some((JString(str), rest))
    else if t[0] == '[' then
      match ParseArray(t[1..])
      case None => None
      case Some((items, rest)) => Some((JArray(items), rest))
    else if t[0] == '{' then
      match ParseObject(t[1..])
      case None => None
      case Some((ms, rest)) => Some((JObject(ms), rest))
    else
      match ParseNumber(t)
      case None => None
      case Some((n, rest)) => Some((JNumber(n), rest))
  }

  function Literal(t: string, word: string, v: Json): (r: Option<(Json, string)>)
    requires |word| > 0
    ensures r.Some? ==> |r.value.1| < |t|
  {
    if |word| <= |t| && t[..|word|] == word then Some((v, t[|word|..])) else None
  }

  /** The elements after `[`. */
  function ParseArray(s: string): (r: Option<(seq<Json>, string)>)
    ensures r.Some? ==> |r.value.1| < |s|
    decreases |s|, 3
  {
    var t := SkipWhitespace(s);
    if t != [] && t[0] == ']' then Some(([], t[1..])) else ParseElements(t)
  }

  /** One or more comma-separated values and the closing `]`. */
  function ParseElements(s: string): (r: Option<(seq<Json>, string)>)
    ensures r.Some? ==> |r.value.1| < |s|
    decreases |s|, 2
  {
    match ParseValue(s)
    case None => None
    case Some((v, rest)) =>
      var u := SkipWhitespace(rest);
      if u == [] then None
      else if u[0] == ']' then Some(([v], u[1..]))
      else if u[0] == ',' then
        match ParseElements(u[1..])
        case None => None
        case Some((more, rest')) => Some(([v] + more, rest'))
      else None
  }

  /** The members after `{`. */
  function ParseObject(s: string): (r: Option<(seq<Member>, string)>)
    ensures r.Some? ==> |r.value.1| < |s|
    decreases |s|, 3
  {
    var t := SkipWhitespace(s);
    if t != [] && t[0] == '}' then Some(([], t[1..])) else ParseMembers(t)
  }

  /** One or more comma-separated `"key":value` members and the closing `}`. */
  function ParseMembers(s: string): (r: Option<(seq<Member>, string)>)
    ensures r.Some? ==> |r.value.1| < |s|
    decreases |s|, 2
  {
    var t := SkipWhitespace(s);
    if t == [] || t[0] != '"' then None
    else
      match ParseStringBody(t[1..])
      case None => None
      case Some((key, r1)) =>
        var u := SkipWhitespace(r1);
        if u == [] || u[0] != ':' then None
        else
          match ParseValue(u[1..])
          case None => None
          case Some((v, r2)) =>
            var w := SkipWhitespace(r2);
            if w == [] then None
            else if w[0] == '}' then Some(([Member(key, v)], w[1..]))
            else if w[0] == ',' then
              match ParseMembers(w[1..])
              case None => None
              case Some((more, rest)) => Some(([Member(key, v)] + more, rest))
            else None
  }

  /** The characters of a string literal after its opening quote, up to and
      including the closing quote. Raw control characters are rejected. */
  function ParseStringBody(s: string): (r: Option<(string, string)>)
    ensures r.Some? ==> |r.value.1| < |s|
  {
    if s == [] then None
    else if s[0] == '"' then Some(("", s[1..]))
    else if s[0] == '\\' then
      match Unescape(s[1..])
      case None => None
      case Some((c, k)) =>
        match ParseStringBody(s[1 + k..])
        case None => None
        case Some((str, rest)) => Some(([c] + str, rest))
    else if (s[0] as int) < 0x20 then None
    else
      match ParseStringBody(s[1..])
      case None => None
      case Some((str, rest)) => Some(([s[0]] + str, rest))
  }

  /** The character an escape after a backslash stands for, and how many
      characters the escape takes. A `\u` escape naming a UTF-16 surrogate
      has no character of its own and is rejected. */
  function Unescape(e: string): (r: Option<(char, nat)>)
    ensures r.Some? ==> 1 <= r.value.1 <= |e|
  {
    if e == [] then None
    else if e[0] == '"' then Some(('"', 1))
    else if e[0] == '\\' then Some(('\\', 1))
    else if e[0] == '/' then Some(('/', 1))
    else if e[0] == 'b' then Some((0x08 as char, 1))
    else if e[0] == 'f' then Some((0x0C as char, 1))
    else if e[0] == 'n' then Some(('\n', 1))
    else if e[0] == 'r' then Some(('\r', 1))
    else if e[0] == 't' then Some(('\t', 1))
    else if e[0] == 'u' && |e| >= 5 && AllInRadix(e[1..5], 16) then
      var code := RadixValue(e[1..5], 16);
      HexBound(e[1..5]);
      if 0xD800 <= code <= 0xDFFF then None else Some((code as char, 5))
    else None
  }

  lemma HexBound(h: string)
    requires |h| == 4 && AllInRadix(h, 16)
    ensures RadixValue(h, 16) < 0x10000
  {
    Hex4Value(h);
  }

  /** The value of four hex digits, written out. */
  lemma Hex4Value(h: string)
    requires |h| == 4 && AllInRadix(h, 16)
    ensures RadixValue(h, 16) == DigitOf(h[0]) * 4096 + DigitOf(h[1]) * 256 + DigitOf(h[2]) * 16 + DigitOf(h[3])
  {
    var h1, h2, h3 := h[..1], h[..2], h[..3];
    assert h1[..0] == [] && h2[..1] == h1 && h3[..2] == h2 && h[..3] == h3;
    assert RadixValue(h1, 16) == DigitOf(h[0]);
    assert RadixValue(h2, 16) == DigitOf(h[0]) * 16 + DigitOf(h[1]);
    assert RadixValue(h3, 16) == (DigitOf(h[0]) * 16 + DigitOf(h[1])) * 16 + DigitOf(h[2]);
  }

  /** An integer: optional '-', no leading zeros. A fraction or exponent is
      not part of this model's numbers and is rejected. */
  function ParseNumber(s: string): (r: Option<(int, string)>)
    ensures r.Some? ==> |r.value.1| < |s|
  {
    if s != [] && s[0] == '-' then
      match ParseDigits(s[1..])
      case None => None
      case Some((m, rest)) => Some((-(m as int), rest))
    else
      match ParseDigits(s)
      case None => None
      case Some((m, rest)) => Some((m, rest))
  }

  /** The digits of a number after its sign: a lone '0' or a run starting
      with a non-zero digit, not followed by a fraction or an exponent. */
  function ParseDigits(t: string): (r: Option<(nat, string)>)
    ensures r.Some? ==> |r.value.1| < |t|
  {
    if t == [] || !IsDigit(t[0]) then None
    else
      var k := if t[0] == '0' then 1 else RadixRun(t, 10);
      var rest := t[k..];
      if rest != [] && (rest[0] == '.' || rest[0] == 'e' || rest[0] == 'E') then None
      else Some((RadixValue(t[..k], 10), rest))
  }

  // ---------------------------------------------------------------------------
  // JSON.parse inverts JSON.stringify.

  /** What may follow a value inside stringified text: nothing, or a delimiter. */
  predicate Delimited(rest: string)
  {
    rest == [] || rest[0] == ',' || rest[0] == ']' || rest[0] == '}'
  }

  lemma {:induction false} ParseStringify(v: Json)
    ensures Parse(Stringify(v)) == Some(v)
  {
    ParseValueStringify(v, "");
    assert Stringify(v) + "" == Stringify(v);
  }

  /** Stringified text is never empty, so a cookie holding it is truthy. */
  lemma StringifyNonEmpty(v: Json)
    ensures Stringify(v) != ""
  {
    StringifyStart(v);
  }

  lemma StringifyStart(v: Json)
    ensures |Stringify(v)| > 0 && !IsWhitespace(Stringify(v)[0]) && Stringify(v)[0] != ']'
  {
    match v
    case JNumber(n) =>
      var d := NatToString(if n < 0 then -n else n);
      assert InRadix(d[0], 10);
    case _ =>
  }

  lemma {:induction false} ParseValueStringify(v: Json, rest: string)
    requires Delimited(rest)
    ensures ParseValue(Stringify(v) + rest) == Some((v, rest))
    decreases v, 2
  {
    match v
    case JNull => LiteralRoundTrip(v, rest);
    case JBool(_) => LiteralRoundTrip(v, rest);
    case JNumber(n) => NumberValueRoundTrip(n, rest);
    case JString(s) => StringValueRoundTrip(s, rest);
    case JArray(items) => ArrayRoundTrip(items, rest);
    case JObject(ms) => ObjectRoundTrip(ms, rest);
  }

  lemma LiteralRoundTrip(v: Json, rest: string)
    requires v.JNull? || v.JBool?
    ensures ParseValue(Stringify(v) + rest) == Some((v, rest))
  {
    var word := Stringify(v);
    var text := word + rest;
    assert text[..|word|] == word;
    assert text[|word|..] == rest;
    assert SkipWhitespace(text) == text;
  }

  lemma NumberValueRoundTrip(n: int, rest: string)
    requires Delimited(rest)
    ensures ParseValue(IntToString(n) + rest) == Some((JNumber(n), rest))
  {
    NumberRoundTrip(n, rest);
    IntToStringHead(n);
    NumberDispatch(IntToString(n) + rest, n, rest);
  }

  /** A number's text starts with '-' or a digit, so ParseValue reads it as a number. */
  lemma NumberDispatch(text: string, n: int, rest: string)
    requires text != [] && (text[0] == '-' || '0' <= text[0] <= '9')
    requires ParseNumber(text) == Some((n, rest))
    ensures ParseValue(text) == Some((JNumber(n), rest))
  {
    assert SkipWhitespace(text) == text;
    assert text[0] != 'n' && text[0] != 't' && text[0] != 'f';
    assert text[0] != '"' && text[0] != '[' && text[0] != '{';
  }

  lemma IntToStringHead(n: int)
    ensures |IntToString(n)| > 0
    ensures IntToString(n)[0] == '-' || '0' <= IntToString(n)[0] <= '9' 
  {
    var d := NatToString(if n < 0 then -n else n);
    assert InRadix(d[0], 10);
  }

  lemma StringValueRoundTrip(s: string, rest: string)
    ensures ParseValue(Quote(s) + rest) == Some((JString(s), rest))
  {
    var text := Quote(s) + rest;
    assert text == "\"" + (Escape(s) + "\"" + rest);
    assert text[1..] == Escape(s) + "\"" + rest;
    assert SkipWhitespace(text) == text;
    ParseEscaped(s, rest);
  }

  lemma {:induction false} ArrayRoundTrip(items: seq<Json>, rest: string)
    requires Delimited(rest)
    ensures ParseValue("[" + JoinItems(items) + "]" + rest) == Some((JArray(items), rest))
    decreases items, 2
  {
    var inner := JoinItems(items) + "]" + rest;
    assert "[" + JoinItems(items) + "]" + rest == "[" + inner;
    if items == [] {
      assert inner == "]" + rest;
      assert ParseArray(inner) == Some(([], rest));
    } else {
      JoinItemsHead(items);
      ParseElementsJoin(items, rest);
      ElementsFirst(inner);
    }
    ArrayDispatch(inner, items, rest);
  }

  lemma ArrayDispatch(inner: string, items: seq<Json>, rest: string)
    requires ParseArray(inner) == Some((items, rest))
    ensures ParseValue("[" + inner) == Some((JArray(items), rest))
  {
    var text := "[" + inner;
    assert text[0] == '[' && text[1..] == inner;
    assert SkipWhitespace(text) == text;
  }

  /** Text that starts with a value, not with `]`, is read as elements. */
  lemma ElementsFirst(inner: string)
    requires inner != [] && !IsWhitespace(inner[0]) && inner[0] != ']'
    ensures ParseArray(inner) == ParseElements(inner)
  {
    assert SkipWhitespace(inner) == inner;
  }

  lemma JoinItemsHead(items: seq<Json>)
    requires items != []
    ensures JoinItems(items) != [] && !IsWhitespace(JoinItems(items)[0]) && JoinItems(items)[0] != ']'
  {
    var first := Stringify(items[0]);
    StringifyStart(items[0]);
    if |items| > 1 {
      assert JoinItems(items) == first + ("," + JoinItems(items[1..]));
    } else {
      assert JoinItems(items) == first;
    }
    assert JoinItems(items)[0] == first[0];
  }

  lemma {:induction false} ObjectRoundTrip(ms: seq<Member>, rest: string)
    requires Delimited(rest)
    ensures ParseValue("{" + JoinMembers(ms) + "}" + rest) == Some((JObject(ms), rest))
    decreases ms, 2
  {
    var inner := JoinMembers(ms) + "}" + rest;
    assert "{" + JoinMembers(ms) + "}" + rest == "{" + inner;
    if ms == [] {
      assert inner == "}" + rest;
      assert ParseObject(inner) == Some(([], rest));
    } else {
      JoinMembersHead(ms);
      ParseMembersJoin(ms, rest);
      MembersFirst(inner);
    }
    ObjectDispatch(inner, ms, rest);
  }

  /** Text that starts with a key is read as members. */
  lemma MembersFirst(inner: string)
    requires inner != [] && inner[0] == '"'
    ensures ParseObject(inner) == ParseMembers(inner)
  {
    assert SkipWhitespace(inner) == inner;
  }

  lemma ObjectDispatch(inner: string, ms: seq<Member>, rest: string)
    requires ParseObject(inner) == Some((ms, rest))
    ensures ParseValue("{" + inner) == Some((JObject(ms), rest))
  {
    var text := "{" + inner;
    assert text[0] == '{' && text[1..] == inner;
    assert SkipWhitespace(text) == text;
  }

  lemma JoinMembersHead(ms: seq<Member>)
    requires ms != []
    ensures JoinMembers(ms) != [] && JoinMembers(ms)[0] == '"'
  {
    var first := StringifyMember(ms[0]);
    MemberHead(ms[0]);
    if |ms| > 1 {
      assert JoinMembers(ms) == first + ("," + JoinMembers(ms[1..]));
    } else {
      assert JoinMembers(ms) == first;
    }
  }

  lemma MemberHead(m: Member)
    ensures StringifyMember(m) != [] && StringifyMember(m)[0] == '"'
  {
    var q := Quote(m.key);
    assert q[0] == '"';
    assert StringifyMember(m) == q + (":" + Stringify(m.value));
  }

  lemma {:induction false} ParseElementsJoin(items: seq<Json>, rest: string)
    requires items != []
    ensures ParseElements(JoinItems(items) + "]" + rest) == Some((items, rest))
    decreases items, 1
  {
    var text := JoinItems(items) + "]" + rest;
    if |items| == 1 {
      assert text == Stringify(items[0]) + "]" + rest;
      LastElement(text, items[0], rest);
      assert [items[0]] == items;
    } else {
      var more := JoinItems(items[1..]) + "]" + rest;
      assert text == Stringify(items[0]) + "," + more;
      ParseElementsJoin(items[1..], rest);
      NextElement(text, items[0], more, items[1..], rest);
      assert [items[0]] + items[1..] == items;
    }
  }

  /** The last element, then the closing bracket. */
  lemma {:induction false} LastElement(text: string, v: Json, rest: string)
    requires text == Stringify(v) + "]" + rest
    ensures ParseElements(text) == Some(([v], rest))
    decreases v, 3
  {
    var tail := "]" + rest;
    assert text == Stringify(v) + tail;
    ParseValueStringify(v, tail);
    ElementStep(text, v, tail);
    assert tail[1..] == rest;
  }

  /** An element, a comma, and the elements after it. */
  lemma {:induction false} NextElement(text: string, v: Json, more: string, items: seq<Json>, rest: string)
    requires text == Stringify(v) + "," + more
    requires ParseElements(more) == Some((items, rest))
    ensures ParseElements(text) == Some(([v] + items, rest))
    decreases v, 3
  {
    var tail := "," + more;
    assert text == Stringify(v) + tail;
    ParseValueStringify(v, tail);
    ElementStep(text, v, tail);
    assert tail[1..] == more;
  }

  /** After one element, a ']' ends the array and a ',' asks for more. */
  lemma ElementStep(text: string, v: Json, tail: string)
    requires ParseValue(text) == Some((v, tail))
    requires tail != [] && (tail[0] == ',' || tail[0] == ']')
    ensures ParseElements(text) ==
      if tail[0] == ']' then Some(([v], tail[1..]))
      else match ParseElements(tail[1..])
        case None => None
        case Some((more, rest)) => Some(([v] + more, rest))
  {
    assert SkipWhitespace(tail) == tail;
  }

  lemma {:induction false} ParseMembersJoin(ms: seq<Member>, rest: string)
    requires ms != []
    ensures ParseMembers(JoinMembers(ms) + "}" + rest) == Some((ms, rest))
    decreases ms, 1
  {
    var text := JoinMembers(ms) + "}" + rest;
    if |ms| == 1 {
      assert text == StringifyMember(ms[0]) + "}" + rest;
      LastMember(text, ms[0], rest);
      assert [ms[0]] == ms;
    } else {
      var more := JoinMembers(ms[1..]) + "}" + rest;
      assert text == StringifyMember(ms[0]) + "," + more;
      ParseMembersJoin(ms[1..], rest);
      NextMember(text, ms[0], more, ms[1..], rest);
      assert [ms[0]] + ms[1..] == ms;
    }
  }

  /** The last member, then the closing brace. */
  lemma {:induction false} LastMember(text: string, m: Member, rest: string)
    requires text == StringifyMember(m) + "}" + rest
    ensures ParseMembers(text) == Some(([m], rest))
    decreases m, 1
  {
    var tail := "}" + rest;
    assert text == StringifyMember(m) + tail;
    MemberRoundTrip(m, tail);
    assert tail[1..] == rest;
  }

  /** A member, a comma, and the members after it. */
  lemma {:induction false} NextMember(text: string, m: Member, more: string, ms: seq<Member>, rest: string)
    requires text == StringifyMember(m) + "," + more
    requires ParseMembers(more) == Some((ms, rest))
    ensures ParseMembers(text) == Some(([m] + ms, rest))
    decreases m, 1
  {
    var tail := "," + more;
    assert text == StringifyMember(m) + tail;
    MemberRoundTrip(m, tail);
    assert tail[1..] == more;
  }

  /** One member followed by the delimiter after it. */
  lemma {:induction false} MemberRoundTrip(m: Member, tail: string)
    requires tail != [] && (tail[0] == ',' || tail[0] == '}')
    ensures ParseMembers(StringifyMember(m) + tail) ==
      if tail[0] == '}' then Some(([m], tail[1..]))
      else match ParseMembers(tail[1..])
        case None => None
        case Some((more, rest)) => Some(([m] + more, rest))
    decreases m, 0
  {
    var text := StringifyMember(m) + tail;
    var afterKey := ":" + (Stringify(m.value) + tail);
    assert text == "\"" + (Escape(m.key) + "\"" + afterKey);
    assert text[1..] == Escape(m.key) + "\"" + afterKey;
    ParseEscaped(m.key, afterKey);
    assert afterKey[1..] == Stringify(m.value) + tail;
    ParseValueStringify(m.value, tail);
    MemberStep(text, m.key, afterKey, m.value, tail);
  }

  /** A member read from text that holds no white space between its parts. */
  lemma MemberStep(text: string, key: string, afterKey: string, v: Json, tail: string)
    requires text != [] && text[0] == '"' && ParseStringBody(text[1..]) == Some((key, afterKey))
    requires afterKey != [] && afterKey[0] == ':' && ParseValue(afterKey[1..]) == Some((v, tail))
    requires tail != [] && (tail[0] == ',' || tail[0] == '}')
    ensures ParseMembers(text) ==
      if tail[0] == '}' then Some(([Member(key, v)], tail[1..]))
      else match ParseMembers(tail[1..])
        case None => None
        case Some((more, rest)) => Some(([Member(key, v)] + more, rest))
  {
    assert SkipWhitespace(text) == text;
    assert SkipWhitespace(afterKey) == afterKey;
    assert SkipWhitespace(tail) == tail;
  }

  lemma {:induction false} ParseEscaped(s: string, rest: string)
    ensures ParseStringBody(Escape(s) + "\"" + rest) == Some((s, rest))
  {
    if s == [] {
      assert Escape(s) + "\"" + rest == "\"" + rest;
    } else {
      var tail := Escape(s[1..]) + "\"" + rest;
      assert Escape(s) + "\"" + rest == EscapeChar(s[0]) + tail;
      ParseEscaped(s[1..], rest);
      EscapeCharStep(s[0], tail);
      assert [s[0]] + s[1..] == s;
    }
  }

  /** Reading back one escaped character consumes exactly its escape. */
  lemma EscapeCharStep(c: char, tail: string)
    ensures ParseStringBody(EscapeChar(c) + tail) == Prepend(c, ParseStringBody(tail))
  {
    if c == '"' || c == '\\' || c as int == 0x08 || c == '\t' || c == '\n' || c as int == 0x0C || c == '\r' {
      ShortEscapeStep(c, tail);
    } else if (c as int) < 0x20 {
      ControlEscapeStep(c, tail);
    } else {
      var text := EscapeChar(c) + tail;
      assert text[0] == c && text[1..] == tail;
    }
  }

  function Prepend(c: char, r: Option<(string, string)>): Option<(string, string)>
  {
    match r
    case None => None
    case Some((str, rest)) => Some(([c] + str, rest))
  }

  lemma ShortEscapeStep(c: char, tail: string)
    requires c == '"' || c == '\\' || c as int == 0x08 || c == '\t' || c == '\n' || c as int == 0x0C || c == '\r'
    ensures ParseStringBody(EscapeChar(c) + tail) == Prepend(c, ParseStringBody(tail))
  {
    var text := EscapeChar(c) + tail;
    var e := EscapeChar(c);
    assert |e| == 2 && e[0] == '\\';
    assert text[0] == '\\';
    assert text[1..] == [e[1]] + tail;
    assert Unescape(text[1..]) == Some((c, 1));
    assert text[2..] == tail;
  }

  lemma ControlEscapeStep(c: char, tail: string)
    requires (c as int) < 0x20
    requires !(c as int == 0x08 || c == '\t' || c == '\n' || c as int == 0x0C || c == '\r')
    ensures ParseStringBody(EscapeChar(c) + tail) == Prepend(c, ParseStringBody(tail))
  {
    var hi, lo := Digit((c as int) / 16), Digit((c as int) % 16);
    var h := ['0', '0', hi, lo];
    var e := ['u', '0', '0', hi, lo] + tail;
    var text := EscapeChar(c) + tail;
    assert text == "\\" + e;
    assert text[1..] == e;
    assert e[1..5] == h;
    Hex4Value(h);
    assert RadixValue(h, 16) == c as int;
    assert Unescape(e) == Some((c, 5));
    assert text[6..] == tail;
  }

  lemma NumberRoundTrip(n: int, rest: string)
    requires Delimited(rest)
    ensures ParseNumber(IntToString(n) + rest) == Some((n, rest))
  {
    var m: nat := if n < 0 then -n else n;
    var d := NatToString(m);
    DigitsRoundTrip(m, rest);
    assert InRadix(d[0], 10);
    if n < 0 {
      assert IntToString(n) + rest == "-" + (d + rest);
      NegativeStep(d + rest, m, rest);
    } else {
      PositiveStep(d + rest, m, rest);
    }
  }

  lemma NegativeStep(t: string, m: nat, rest: string)
    requires ParseDigits(t) == Some((m, rest))
    ensures ParseNumber("-" + t) == Some((-(m as int), rest))
  {
    assert ("-" + t)[1..] == t;
  }

  lemma PositiveStep(t: string, m: nat, rest: string)
    requires t != [] && IsDigit(t[0])
    requires ParseDigits(t) == Some((m, rest))
    ensures ParseNumber(t) == Some((m, rest))
  {
  }

  lemma DigitsRoundTrip(m: nat, rest: string)
    requires Delimited(rest)
    ensures ParseDigits(NatToString(m) + rest) == Some((m, rest))
  {
    var d := NatToString(m);
    NatToStringHead(m);
    NatToStringValue(m);
    if m == 0 {
      assert d == "0";
      ZeroStep(d + rest, rest);
    } else {
      RadixRunAppend(d, rest, 10);
      RunStep(d, rest, m);
    }
  }

  /** A lone zero and what follows it. */
  lemma ZeroStep(t: string, rest: string)
    requires t == "0" + rest && Delimited(rest)
    ensures ParseDigits(t) == Some((0, rest))
  {
    assert t[0] == '0' && IsDigit(t[0]);
    assert t[..1] == "0";
    assert RadixValue("0", 10) == 0 by {
      assert "0"[..0] == "";
    }
    assert t[1..] == rest;
  }

  /** A run of digits starting with a non-zero one and what follows it. */
  lemma RunStep(d: string, rest: string, m: nat)
    requires d != [] && d[0] != '0' && AllInRadix(d, 10) && RadixValue(d, 10) == m
    requires RadixRun(d + rest, 10) == |d| + RadixRun(rest, 10)
    requires Delimited(rest)
    ensures ParseDigits(d + rest) == Some((m, rest))
  {
    var t := d + rest;
    assert IsDigit(t[0]);
    assert rest != [] ==> !InRadix(rest[0], 10);
    assert RadixRun(rest, 10) == 0;
    assert t[..|d|] == d;
    assert t[|d|..] == rest;
  }
}
