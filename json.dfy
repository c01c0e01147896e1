/**
 * JSON values as JavaScript's JSON.stringify writes them without indentation
 * (RFC 8259: section 4 for objects, section 7 for strings), and a parser for
 * that compact text, so that serialising and parsing can be shown to be inverse.
 */
module Json {
  import opened Wrappers

  /** A JSON value. Object members keep the order in which JavaScript enumerates them. */
  datatype Json =
    | Null
    | Bool(b: bool)
    | Num(n: int)
    | Str(s: string)
    | Arr(items: seq<Json>)
    | Obj(members: seq<Member>)

  datatype Member = Member(key: string, value: Json)

  /** No character below U+0020 anywhere in `s`. U+007F and U+0080 to U+009F may occur. */
  predicate Printable(s: string) {
    forall i :: 0 <= i < |s| ==> ' ' <= s[i]
  }

  lemma PrintableConcat(a: string, b: string)
    requires Printable(a) && Printable(b)
    ensures Printable(a + b)
  {
    forall i | 0 <= i < |a + b| ensures ' ' <= (a + b)[i] {
      if i >= |a| {
        assert (a + b)[i] == b[i - |a|];
      }
    }
  }

  predicate IsDigit(c: char) {
    '0' <= c <= '9'
  }

  /** Text that cannot continue a number, so a number before it ends where it should. */
  predicate Delimited(rest: string) {
    rest == [] || !IsDigit(rest[0])
  }

  /** The characters that can open a serialised value. */
  predicate OpensValue(c: char) {
    c == 'n' || c == 't' || c == 'f' || c == '"' || c == '-' || IsDigit(c) || c == '[' || c == '{'
  }

  // ---------------------------------------------------------------------------
  // Numbers (integers only), written in full in decimal. This is Number.prototype.toString's
  // form for magnitudes up to 2^53; larger JavaScript numbers are doubles and are written differently

  function DigitChar(d: int): (c: char)
    requires 0 <= d < 10
    ensures IsDigit(c) && c as int - '0' as int == d
  {
    ('0' as int + d) as char
  }

  /** Decimal digits of `n`, most significant first, no leading zero. */
  function NatText(n: nat): (r: string)
    decreases n
    ensures |r| >= 1
    ensures forall i :: 0 <= i < |r| ==> IsDigit(r[i])
    ensures (r[0] == '0') == (n == 0)
  {
    if n < 10 then [DigitChar(n)] else NatText(n / 10) + [DigitChar(n % 10)]
  }

  function IntText(n: int): (r: string)
    ensures |r| >= 1 && (r[0] == '-' || IsDigit(r[0]))
  {
    if n < 0 then "-" + NatText(-n) else NatText(n)
  }

  /** Length of the run of digits that starts `s`. */
  function DigitRun(s: string): (k: nat)
    ensures k <= |s|
    ensures forall i :: 0 <= i < k ==> IsDigit(s[i])
    ensures k < |s| ==> !IsDigit(s[k])
  {
    if s != [] && IsDigit(s[0]) then 1 + DigitRun(s[1..]) else 0
  }

  function DigitValue(c: char): (d: nat)
    requires IsDigit(c)
  {
    c as int - '0' as int
  }

  /** The number a string of decimal digits denotes. */
  function DigitsValue(ds: string): (r: nat)
    requires forall i :: 0 <= i < |ds| ==> IsDigit(ds[i])
  {
    if ds == [] then 0
    else DigitsValue(ds[..|ds| - 1]) * 10 + DigitValue(ds[|ds| - 1])
  }

  /** An unsigned integer: `0`, or a non-zero digit followed by digits. */
  function ParseNat(s: string): (r: Option<(nat, string)>)
    ensures r.Some? ==> |r.value.1| < |s|
  {
    if s == [] || !IsDigit(s[0]) then None
    else if s[0] == '0' then Some((0, s[1..]))
    else
      var k := DigitRun(s);
      Some((DigitsValue(s[..k]), s[k..]))
  }

  function ParseNumber(s: string): (r: Option<(int, string)>)
    ensures r.Some? ==> |r.value.1| < |s|
  {
    if s != [] && s[0] == '-' then
      match ParseNat(s[1..])
      case None => None
      case Some((v, rest)) => Some((-(v as int), rest))
    else
      match ParseNat(s)
      case None => None
      case Some((v, rest)) => Some((v, rest))
  }

  lemma {:induction false} DigitsValueOfNatText(n: nat)
    ensures DigitsValue(NatText(n)) == n
    decreases n
  {
    if n >= 10 {
      var t := NatText(n);
      assert t == NatText(n / 10) + [DigitChar(n % 10)];
      assert t[..|t| - 1] == NatText(n / 10);
      DigitsValueOfNatText(n / 10);
    }
  }

  lemma {:induction false} DigitRunOfDigits(ds: string, rest: string)
    requires forall i :: 0 <= i < |ds| ==> IsDigit(ds[i])
    requires Delimited(rest)
    ensures DigitRun(ds + rest) == |ds|
    decreases |ds|
  {
    if ds != [] {
      assert (ds + rest)[1..] == ds[1..] + rest;
      DigitRunOfDigits(ds[1..], rest);
    }
  }

  lemma ParseNatText(n: nat, rest: string)
    requires Delimited(rest)
    ensures ParseNat(NatText(n) + rest) == Some((n, rest))
  {
    var t := NatText(n);
    var s := t + rest;
    if n == 0 {
      assert s[1..] == rest;
    } else {
      DigitRunOfDigits(t, rest);
      assert s[..|t|] == t && s[|t|..] == rest;
      DigitsValueOfNatText(n);
    }
  }

  lemma DropHead(a: string, b: string)
    requires |a| == 1
    ensures (a + b)[0] == a[0] && (a + b)[1..] == b
  {
  }

  lemma ParseMinus(s: string)
    requires s != [] && s[0] == '-' && ParseNat(s[1..]).Some?
    ensures ParseNumber(s) == Some((-(ParseNat(s[1..]).value.0 as int), ParseNat(s[1..]).value.1))
  {
  }

  lemma ParseNegativeText(n: int, rest: string)
    requires n < 0 && Delimited(rest)
    ensures ParseNumber(IntText(n) + rest) == Some((n, rest))
  {
    var t := NatText(-n);
    var s := IntText(n) + rest;
    Regroup3("-", t, rest);
    DropHead("-", t + rest);
    ParseNatText(-n, rest);
    ParseMinus(s);
  }

  lemma ParseNonNegativeText(n: int, rest: string)
    requires n >= 0 && Delimited(rest)
    ensures ParseNumber(IntText(n) + rest) == Some((n, rest))
  {
    ParseNatText(n, rest);
  }

  lemma ParseIntText(n: int, rest: string)
    requires Delimited(rest)
    ensures ParseNumber(IntText(n) + rest) == Some((n, rest))
  {
    if n < 0 {
      ParseNegativeText(n, rest);
    } else {
      ParseNonNegativeText(n, rest);
    }
  }

  // ---------------------------------------------------------------------------
  // Strings

  function HexDigit(d: int): (c: char)
    requires 0 <= d < 16
  {
    "0123456789abcdef"[d]
  }

  function HexValue(c: char): (r: Option<int>)
    ensures r.Some? ==> 0 <= r.value < 16
  {
    if '0' <= c <= '9' then Some(c as int - '0' as int)
    else if 'a' <= c <= 'f' then Some(c as int - 'a' as int + 10)
    else if 'A' <= c <= 'F' then Some(c as int - 'A' as int + 10)
    else None
  }

  /** The code unit written by four hexadecimal digits. */
  function Hex4(h: string): (r: Option<int>)
    requires |h| == 4
    ensures r.Some? ==> 0 <= r.value < 0x1_0000
  {
    match (HexValue(h[0]), HexValue(h[1]), HexValue(h[2]), HexValue(h[3]))
    case (Some(a), Some(b), Some(c), Some(d)) => Some(((a * 16 + b) * 16 + c) * 16 + d)
    case _ => None
  }

  lemma HexValueOfHexDigit(d: int)
    requires 0 <= d < 16
    ensures HexValue(HexDigit(d)) == Some(d)
  {
    var digits := "0123456789abcdef";
    if d < 10 {
      assert digits[d] as int == '0' as int + d;
    } else {
      assert digits[d] as int == 'a' as int + d - 10;
    }
  }

  /**
   * How JSON.stringify writes one character inside a string: the two-character
   * escapes for quote, backslash, backspace, tab, line feed, form feed and
   * carriage return, `\u00xx` (lower-case hex) for the other characters below U+0020,
   * and every other character (U+007F and U+0080 to U+009F included) as itself.
   */
  function EscapeChar(c: char): (r: string)
  {
    if c == '"' then ['\\', '"']
    else if c == '\\' then ['\\', '\\']
    else if c as int == 8 then ['\\', 'b']
    else if c == '\t' then ['\\', 't']
    else if c == '\n' then ['\\', 'n']
    else if c as int == 12 then ['\\', 'f']
    else if c == '\r' then ['\\', 'r']
    else if c < ' ' then ['\\', 'u', '0', '0', HexDigit(c as int / 16), HexDigit(c as int % 16)]
    else [c]
  }

  function EscapeChars(s: string): (r: string)
  {
    if s == [] then [] else EscapeChar(s[0]) + EscapeChars(s[1..])
  }

  function Quote(s: string): (r: string)
  {
    "\"" + EscapeChars(s) + "\""
  }

  /** One escape sequence, `s` being the text after its backslash. */
  function ParseEscape(s: string): (r: Option<(char, string)>)
    ensures r.Some? ==> |r.value.1| < |s|
  {
    if s == [] then None
    else if s[0] == '"' || s[0] == '\\' || s[0] == '/' then Some((s[0], s[1..]))
    else if s[0] == 'b' then Some((8 as char, s[1..]))
    else if s[0] == 't' then Some(('\t', s[1..]))
    else if s[0] == 'n' then Some(('\n', s[1..]))
    else if s[0] == 'f' then Some((12 as char, s[1..]))
    else if s[0] == 'r' then Some(('\r', s[1..]))
    else if s[0] == 'u' && |s| >= 5 then
      match Hex4(s[1..5])
      case None => None
      case Some(v) =>
        // a lone surrogate is not a character of its own
        if 0xD800 <= v < 0xE000 then None else Some((v as char, s[5..]))
    else None
  }

  /** The contents of a string literal, `s` being the text after its opening quote. */
  function ParseStringBody(s: string): (r: Option<(string, string)>)
    decreases |s|
    ensures r.Some? ==> |r.value.1| < |s|
  {
    if s == [] then None
    else if s[0] == '"' then Some(([], s[1..]))
    else if s[0] == '\\' then
      match ParseEscape(s[1..])
      case None => None
      case Some((c, rest)) =>
        match ParseStringBody(rest)
        case None => None
        case Some((t, rest')) => Some(([c] + t, rest'))
    else if s[0] < ' ' then None
    else
      match ParseStringBody(s[1..])
      case None => None
      case Some((t, rest')) => Some(([s[0]] + t, rest'))
  }

  /** A character below U+0020 written as `\u00xx` reads back as itself. */
  lemma ParseUnicodeEscape(c: char, t: string)
    requires c < ' '
    ensures ParseEscape(['u', '0', '0', HexDigit(c as int / 16), HexDigit(c as int % 16)] + t) == Some((c, t))
  {
    var hi, lo := c as int / 16, c as int % 16;
    var s := ['u', '0', '0', HexDigit(hi), HexDigit(lo)] + t;
    HexValueOfHexDigit(0);
    HexValueOfHexDigit(hi);
    HexValueOfHexDigit(lo);
    assert s[1..5] == ['0', '0', HexDigit(hi), HexDigit(lo)];
    assert Hex4(s[1..5]) == Some(c as int);
    assert s[5..] == t;
  }

  /** An escape sequence that reads back as `c` is followed by the rest of the string. */
  lemma ReadEscaped(s: string, c: char, t: string)
    requires |s| >= 2 && s[0] == '\\' && ParseEscape(s[1..]) == Some((c, t))
    ensures ParseStringBody(s) ==
      match ParseStringBody(t)
      case None => None
      case Some((u, rest)) => Some(([c] + u, rest))
  {
  }

  /** A two-character escape reads back as `c`. */
  lemma ReadShortEscape(e: string, c: char, t: string)
    requires |e| == 2 && ParseEscape([e[1]] + t) == Some((c, t))
    ensures ParseEscape(e[1..] + t) == Some((c, t))
  {
    assert e[1..] == [e[1]];
  }

  /** Reading one escaped character back gives that character and leaves what follows. */
  lemma ParseEscapeChar(c: char, t: string)
    ensures ParseStringBody(EscapeChar(c) + t) ==
      match ParseStringBody(t)
      case None => None
      case Some((u, rest)) => Some(([c] + u, rest))
  {
    var e := EscapeChar(c);
    if |e| == 1 {
      assert (e + t)[0] == c && (e + t)[1..] == t;
    } else if |e| == 2 {
      assert ([e[1]] + t)[0] == e[1] && ([e[1]] + t)[1..] == t;
      ReadShortEscape(e, c, t);
      assert (e + t)[0] == '\\' && (e + t)[1..] == e[1..] + t;
      ReadEscaped(e + t, c, t);
    } else {
      ParseUnicodeEscape(c, t);
      assert e[1..] == ['u', '0', '0', HexDigit(c as int / 16), HexDigit(c as int % 16)];
      assert (e + t)[0] == '\\' && (e + t)[1..] == e[1..] + t;
      ReadEscaped(e + t, c, t);
    }
  }

  lemma {:induction false} ParseEscapedChars(s: string, rest: string)
    ensures ParseStringBody(EscapeChars(s) + "\"" + rest) == Some((s, rest))
    decreases |s|
  {
    if s == [] {
      assert EscapeChars(s) + "\"" + rest == "\"" + rest;
    } else {
      var tail := EscapeChars(s[1..]) + "\"" + rest;
      assert EscapeChars(s) + "\"" + rest == EscapeChar(s[0]) + tail;
      ParseEscapedChars(s[1..], rest);
      ParseEscapeChar(s[0], tail);
      assert [s[0]] + s[1..] == s;
    }
  }

  /** A character JSON.stringify writes as itself inside a string. */
  predicate PlainChar(c: char) {
    ' ' <= c && c != '"' && c != '\\'
  }

  lemma {:induction false} EscapePlainChars(s: string)
    requires forall i :: 0 <= i < |s| ==> PlainChar(s[i])
    ensures EscapeChars(s) == s
    decreases |s|
  {
    if s != [] {
      EscapePlainChars(s[1..]);
      assert [s[0]] + s[1..] == s;
    }
  }

  // ---------------------------------------------------------------------------
  // Values

  /** The text JSON.stringify(j) returns: no whitespace, members in order. */
  function Stringify(j: Json): (r: string)
    decreases j, 1
    ensures |r| >= 1 && OpensValue(r[0])
  {
    match j
    case Null => "null"
    case Bool(b) => if b then "true" else "false"
    case Num(n) => IntText(n)
    case Str(s) => Quote(s)
    case Arr(items) => "[" + StringifyElements(items) + "]"
    case Obj(ms) => "{" + StringifyMembers(ms) + "}"
  }

  /** The elements of an array, separated by commas. */
  function StringifyElements(items: seq<Json>): (r: string)
    decreases items, 0
    ensures items != [] ==> |r| >= 1 && OpensValue(r[0])
  {
    if items == [] then ""
    else if |items| == 1 then Stringify(items[0])
    else Stringify(items[0]) + "," + StringifyElements(items[1..])
  }

  /** One member as `"key":value`. */
  function MemberText(m: Member): (r: string)
    decreases m, 1
    ensures |r| >= 1 && r[0] == '"'
  {
    Quote(m.key) + ":" + Stringify(m.value)
  }

  /** The members of an object, separated by commas. */
  function StringifyMembers(ms: seq<Member>): (r: string)
    decreases ms, 0
    ensures ms != [] ==> |r| >= 1 && r[0] == '"'
  {
    if ms == [] then ""
    else if |ms| == 1 then MemberText(ms[0])
    else MemberText(ms[0]) + "," + StringifyMembers(ms[1..])
  }

  /** One value at the start of `s`, and the text after it. */
  function ParseValue(s: string): (r: Option<(Json, string)>)
    decreases |s|, 0
    ensures r.Some? ==> |r.value.1| < |s|
  {
    if s == [] then None
    else if s[0] == 'n' then
      if |s| >= 4 && s[1] == 'u' && s[2] == 'l' && s[3] == 'l' then Some((Null, s[4..])) else None
    else if s[0] == 't' then
      if |s| >= 4 && s[1] == 'r' && s[2] == 'u' && s[3] == 'e' then Some((Bool(true), s[4..])) else None
    else if s[0] == 'f' then
      if |s| >= 5 && s[1] == 'a' && s[2] == 'l' && s[3] == 's' && s[4] == 'e' then Some((Bool(false), s[5..])) else None
    else if s[0] == '"' then
      match ParseStringBody(s[1..])
      case None => None
      case Some((t, rest)) => Some((Str(t), rest))
    else if s[0] == '-' || IsDigit(s[0]) then
      match ParseNumber(s)
      case None => None
      case Some((n, rest)) => Some((Num(n), rest))
    else if s[0] == '[' then
      if |s| >= 2 && s[1] == ']' then Some((Arr([]), s[2..]))
      else
        match ParseElements(s[1..])
        case None => None
        case Some((items, rest)) => Some((Arr(items), rest))
    else if s[0] == '{' then
      if |s| >= 2 && s[1] == '}' then Some((Obj([]), s[2..]))
      else
        match ParseMembers(s[1..])
        case None => None
        case Some((ms, rest)) => Some((Obj(ms), rest))
    else None
  }

  /** Comma-separated values up to and including the closing `]`. */
  function ParseElements(s: string): (r: Option<(seq<Json>, string)>)
    decreases |s|, 1
    ensures r.Some? ==> |r.value.1| < |s|
  {
    match ParseValue(s)
    case None => None
    case Some((v, rest)) =>
      if rest != [] && rest[0] == ',' then
        match ParseElements(rest[1..])
        case None => None
        case Some((vs, rest')) => Some(([v] + vs, rest'))
      else if rest != [] && rest[0] == ']' then Some(([v], rest[1..]))
      else None
  }

  /** Comma-separated `"key":value` members up to and including the closing `}`. */
  function ParseMembers(s: string): (r: Option<(seq<Member>, string)>)
    decreases |s|, 1
    ensures r.Some? ==> |r.value.1| < |s|
  {
    if s == [] || s[0] != '"' then None
    else
      match ParseStringBody(s[1..])
      case None => None
      case Some((key, rest)) =>
        if rest == [] || rest[0] != ':' then None
        else
          match ParseValue(rest[1..])
          case None => None
          case Some((v, rest')) =>
            if rest' != [] && rest'[0] == ',' then
              match ParseMembers(rest'[1..])
              case None => None
              case Some((ms, rest'')) => Some(([Member(key, v)] + ms, rest''))
            else if rest' != [] && rest'[0] == '}' then Some(([Member(key, v)], rest'[1..]))
            else None
  }

  /** JSON text holding exactly one value. */
  function Parse(s: string): (r: Option<Json>) {
    match ParseValue(s)
    case Some((v, rest)) => if rest == [] then Some(v) else None
    case None => None
  }

  // ---------------------------------------------------------------------------
  // Round trip

  lemma ParseStringifiedString(t: string, rest: string)
    ensures ParseValue(Quote(t) + rest) == Some((Str(t), rest))
  {
    var s := Quote(t) + rest;
    assert s[0] == '"';
    assert s[1..] == EscapeChars(t) + "\"" + rest;
    ParseEscapedChars(t, rest);
  }

  lemma ParseStringifiedNumber(n: int, rest: string)
    requires Delimited(rest)
    ensures ParseValue(IntText(n) + rest) == Some((Num(n), rest))
  {
    var s := IntText(n) + rest;
    assert s[0] == IntText(n)[0];
    ParseIntText(n, rest);
  }

  lemma ParseStringifiedLiteral(j: Json, rest: string)
    requires j.Null? || j.Bool?
    ensures ParseValue(Stringify(j) + rest) == Some((j, rest))
  {
    var s := Stringify(j) + rest;
    match j
    case Null =>
      assert s[..4] == "null" && s[4..] == rest;
      assert s[1] == 'u' && s[2] == 'l' && s[3] == 'l';
    case Bool(b) =>
      if b {
        assert s[..4] == "true" && s[4..] == rest;
        assert s[1] == 'r' && s[2] == 'u' && s[3] == 'e';
      } else {
        assert s[..5] == "false" && s[5..] == rest;
        assert s[1] == 'a' && s[2] == 'l' && s[3] == 's' && s[4] == 'e';
      }
  }

  lemma {:induction false} ParseStringified(j: Json, rest: string)
    requires Delimited(rest)
    ensures ParseValue(Stringify(j) + rest) == Some((j, rest))
    decreases j, 2
  {
    match j
    case Null => ParseStringifiedLiteral(j, rest);
    case Bool(_) => ParseStringifiedLiteral(j, rest);
    case Num(n) => ParseStringifiedNumber(n, rest);
    case Str(t) => ParseStringifiedString(t, rest);
    case Arr(items) => ParseStringifiedArray(items, rest);
    case Obj(ms) => ParseStringifiedObject(ms, rest);
  }

  lemma {:induction false} ParseStringifiedArray(items: seq<Json>, rest: string)
    ensures ParseValue(Stringify(Arr(items)) + rest) == Some((Arr(items), rest))
    decreases items, 1
  {
    var s := Stringify(Arr(items)) + rest;
    assert s == "[" + (StringifyElements(items) + "]" + rest);
    if items == [] {
      assert s[2..] == rest;
    } else {
      assert s[1] == StringifyElements(items)[0];
      assert s[1..] == StringifyElements(items) + "]" + rest;
      ParseStringifiedElements(items, rest);
    }
  }

  lemma {:induction false} ParseStringifiedObject(ms: seq<Member>, rest: string)
    ensures ParseValue(Stringify(Obj(ms)) + rest) == Some((Obj(ms), rest))
    decreases ms, 2
  {
    var s := Stringify(Obj(ms)) + rest;
    assert s == "{" + (StringifyMembers(ms) + "}" + rest);
    if ms == [] {
      assert s[2..] == rest;
    } else {
      assert s[1] == StringifyMembers(ms)[0];
      assert s[1..] == StringifyMembers(ms) + "}" + rest;
      ParseStringifiedMembers(ms, rest);
    }
  }

  /** A list of two or more elements: the first value, a comma, then the others. */
  lemma ElementsText(items: seq<Json>, rest: string)
    requires |items| > 1
    ensures StringifyElements(items) + "]" + rest ==
      Stringify(items[0]) + ("," + (StringifyElements(items[1..]) + "]" + rest))
  {
    Regroup5(Stringify(items[0]), ",", StringifyElements(items[1..]), "]", rest);
  }

  /** Concatenation regrouped over plain variables, so that the parts it
      names stay folded where it is used. */
  lemma Regroup5(a: string, b: string, c: string, d: string, e: string)
    ensures a + b + c + d + e == a + (b + (c + d + e))
  {
  }

  lemma Regroup3(a: string, b: string, c: string)
    ensures a + b + c == a + (b + c)
  {
  }

  /** A value, a comma and further elements read as one more element. */
  lemma ElementsCons(x: string, t: string, v: Json, vs: seq<Json>, rest: string)
    requires ParseValue(x + ("," + t)) == Some((v, "," + t))
    requires ParseElements(t) == Some((vs, rest))
    ensures ParseElements(x + ("," + t)) == Some(([v] + vs, rest))
  {
    assert ("," + t)[1..] == t;
  }

  /** A value and the closing bracket read as the last element. */
  lemma ElementsLast(x: string, v: Json, rest: string)
    requires ParseValue(x + ("]" + rest)) == Some((v, "]" + rest))
    ensures ParseElements(x + ("]" + rest)) == Some(([v], rest))
  {
    assert ("]" + rest)[1..] == rest;
  }

  lemma {:induction false} ParseStringifiedElements(items: seq<Json>, rest: string)
    requires items != []
    ensures ParseElements(StringifyElements(items) + "]" + rest) == Some((items, rest))
    decreases items, 0
  {
    if |items| == 1 {
      ParseStringified(items[0], "]" + rest);
      ElementsLast(Stringify(items[0]), items[0], rest);
      var x := Stringify(items[0]);
      assert x + "]" + rest == x + ("]" + rest);
      assert [items[0]] == items;
    } else {
      ParseStringified(items[0], "," + (StringifyElements(items[1..]) + "]" + rest));
      ParseStringifiedElements(items[1..], rest);
      ElementConsFromParts(items, rest);
    }
  }

  /** Two or more elements read back once the first value and the other elements do. */
  lemma ElementConsFromParts(items: seq<Json>, rest: string)
    requires |items| > 1
    requires ParseValue(Stringify(items[0]) + ("," + (StringifyElements(items[1..]) + "]" + rest))) ==
      Some((items[0], "," + (StringifyElements(items[1..]) + "]" + rest)))
    requires ParseElements(StringifyElements(items[1..]) + "]" + rest) == Some((items[1..], rest))
    ensures ParseElements(StringifyElements(items) + "]" + rest) == Some((items, rest))
  {
    ElementsCons(Stringify(items[0]), StringifyElements(items[1..]) + "]" + rest, items[0], items[1..], rest);
    ElementsText(items, rest);
    assert [items[0]] + items[1..] == items;
  }

  /** A key in quotes, then a colon: the key comes back and the text after the colon is left. */
  lemma ParseKey(key: string, tail: string)
    ensures ParseStringBody((Quote(key) + ":" + tail)[1..]) == Some((key, ":" + tail))
  {
    assert (Quote(key) + ":" + tail)[1..] == EscapeChars(key) + "\"" + (":" + tail);
    ParseEscapedChars(key, ":" + tail);
  }

  /** What ParseMembers gives after a member `m` and the text `after` it. */
  function MembersTail(m: Member, after: string): (r: Option<(seq<Member>, string)>)
    requires after != []
  {
    if after[0] == ',' then
      match ParseMembers(after[1..])
      case None => None
      case Some((ms, rest)) => Some(([m] + ms, rest))
    else if after[0] == '}' then Some(([m], after[1..]))
    else None
  }

  /** What ParseMembers does once a key, its colon and its value have been read. */
  lemma ParseMembersStep(s: string, key: string, colon: string, v: Json, after: string)
    requires s != [] && s[0] == '"' && ParseStringBody(s[1..]) == Some((key, colon))
    requires colon != [] && colon[0] == ':' && ParseValue(colon[1..]) == Some((v, after))
    requires after != []
    ensures ParseMembers(s) == MembersTail(Member(key, v), after)
  {
  }

  /** A quoted key `q`, a colon and a value text `x` read as one member. */
  lemma KeyedMember(q: string, key: string, x: string, v: Json, after: string)
    requires q != [] && q[0] == '"'
    requires ParseStringBody((q + ":" + (x + after))[1..]) == Some((key, ":" + (x + after)))
    requires ParseValue(x + after) == Some((v, after)) && after != []
    ensures ParseMembers(q + ":" + (x + after)) == MembersTail(Member(key, v), after)
  {
    var s := q + ":" + (x + after);
    assert s[0] == '"';
    assert (":" + (x + after))[1..] == x + after;
    ParseMembersStep(s, key, ":" + (x + after), v, after);
  }

  lemma MemberTextThen(m: Member, after: string)
    ensures MemberText(m) + after == Quote(m.key) + ":" + (Stringify(m.value) + after)
  {
  }

  /** One `"key":value` member, once its value is known to read back. */
  lemma ParseMemberHead(m: Member, after: string)
    requires after != []
    requires ParseValue(Stringify(m.value) + after) == Some((m.value, after))
    ensures ParseMembers(MemberText(m) + after) == MembersTail(m, after)
  {
    MemberTextThen(m, after);
    ParseKey(m.key, Stringify(m.value) + after);
    KeyedMember(Quote(m.key), m.key, Stringify(m.value), m.value, after);
  }

  /** A list of two or more members: the first member, a comma, then the others. */
  lemma MembersText(ms: seq<Member>, rest: string)
    requires |ms| > 1
    ensures StringifyMembers(ms) + "}" + rest == MemberText(ms[0]) + ("," + (StringifyMembers(ms[1..]) + "}" + rest))
  {
    Regroup5(MemberText(ms[0]), ",", StringifyMembers(ms[1..]), "}", rest);
  }

  lemma MembersCons(m: Member, t: string, ms: seq<Member>, rest: string)
    requires ParseMembers(t) == Some((ms, rest))
    ensures MembersTail(m, "," + t) == Some(([m] + ms, rest))
  {
    assert ("," + t)[1..] == t;
  }

  lemma MembersLast(m: Member, rest: string)
    ensures MembersTail(m, "}" + rest) == Some(([m], rest))
  {
    assert ("}" + rest)[1..] == rest;
  }

  lemma {:induction false} ParseStringifiedMembers(ms: seq<Member>, rest: string)
    requires ms != []
    ensures ParseMembers(StringifyMembers(ms) + "}" + rest) == Some((ms, rest))
    decreases ms, 1
  {
    if |ms| == 1 {
      ParseStringifiedLastMember(ms, rest);
    } else {
      ParseStringifiedMemberCons(ms, rest);
    }
  }

  lemma {:induction false} ParseStringifiedLastMember(ms: seq<Member>, rest: string)
    requires |ms| == 1
    ensures ParseMembers(StringifyMembers(ms) + "}" + rest) == Some((ms, rest))
    decreases ms, 0
  {
    ParseStringified(ms[0].value, "}" + rest);
    ParseMemberHead(ms[0], "}" + rest);
    MembersLast(ms[0], rest);
    var x := MemberText(ms[0]);
    assert x + "}" + rest == x + ("}" + rest);
    assert [ms[0]] == ms;
  }

  lemma {:induction false} ParseStringifiedMemberCons(ms: seq<Member>, rest: string)
    requires |ms| > 1
    ensures ParseMembers(StringifyMembers(ms) + "}" + rest) == Some((ms, rest))
    decreases ms, 0
  {
    ParseStringified(ms[0].value, "," + (StringifyMembers(ms[1..]) + "}" + rest));
    ParseStringifiedMembers(ms[1..], rest);
    MemberConsFromParts(ms, rest);
  }

  /** Two or more members read back once the first value and the other members do. */
  lemma MemberConsFromParts(ms: seq<Member>, rest: string)
    requires |ms| > 1
    requires ParseValue(Stringify(ms[0].value) + ("," + (StringifyMembers(ms[1..]) + "}" + rest))) ==
      Some((ms[0].value, "," + (StringifyMembers(ms[1..]) + "}" + rest)))
    requires ParseMembers(StringifyMembers(ms[1..]) + "}" + rest) == Some((ms[1..], rest))
    ensures ParseMembers(StringifyMembers(ms) + "}" + rest) == Some((ms, rest))
  {
    var t := StringifyMembers(ms[1..]) + "}" + rest;
    ParseMemberHead(ms[0], "," + t);
    MembersCons(ms[0], t, ms[1..], rest);
    MembersText(ms, rest);
    assert [ms[0]] + ms[1..] == ms;
  }

  /** Parsing what JSON.stringify writes gives back the value. */
  lemma RoundTrip(j: Json)
    ensures Parse(Stringify(j)) == Some(j)
  {
    ParseStringified(j, "");
    assert Stringify(j) + "" == Stringify(j);
  }


  // ---------------------------------------------------------------------------
  // Nothing below U+0020: every such character is escaped and no whitespace is added

  lemma EscapeCharPrintable(c: char)
    ensures Printable(EscapeChar(c))
  {
  }

  lemma {:induction false} EscapeCharsPrintable(s: string)
    ensures Printable(EscapeChars(s))
    decreases |s|
  {
    if s != [] {
      EscapeCharPrintable(s[0]);
      EscapeCharsPrintable(s[1..]);
      PrintableConcat(EscapeChar(s[0]), EscapeChars(s[1..]));
    }
  }

  lemma QuotePrintable(s: string)
    ensures Printable(Quote(s))
  {
    EscapeCharsPrintable(s);
    PrintableConcat("\"", EscapeChars(s));
    PrintableConcat("\"" + EscapeChars(s), "\"");
  }

  lemma IntTextPrintable(n: int)
    ensures Printable(IntText(n))
  {
  }

  lemma {:induction false} StringifyPrintable(j: Json)
    ensures Printable(Stringify(j))
    decreases j, 1
  {
    match j
    case Null =>
    case Bool(_) =>
    case Num(n) => IntTextPrintable(n);
    case Str(s) => QuotePrintable(s);
    case Arr(items) =>
      StringifyElementsPrintable(items);
      PrintableConcat("[", StringifyElements(items));
      PrintableConcat("[" + StringifyElements(items), "]");
    case Obj(ms) =>
      StringifyMembersPrintable(ms);
      PrintableConcat("{", StringifyMembers(ms));
      PrintableConcat("{" + StringifyMembers(ms), "}");
  }

  lemma {:induction false} StringifyElementsPrintable(items: seq<Json>)
    ensures Printable(StringifyElements(items))
    decreases items, 0
  {
    if |items| == 1 {
      StringifyPrintable(items[0]);
    } else if |items| > 1 {
      StringifyPrintable(items[0]);
      StringifyElementsPrintable(items[1..]);
      PrintableConcat(Stringify(items[0]), ",");
      PrintableConcat(Stringify(items[0]) + ",", StringifyElements(items[1..]));
    }
  }

  lemma {:induction false} MemberTextPrintable(m: Member)
    ensures Printable(MemberText(m))
    decreases m, 1
  {
    QuotePrintable(m.key);
    StringifyPrintable(m.value);
    PrintableConcat(Quote(m.key), ":");
    PrintableConcat(Quote(m.key) + ":", Stringify(m.value));
  }

  lemma {:induction false} StringifyMembersPrintable(ms: seq<Member>)
    ensures Printable(StringifyMembers(ms))
    decreases ms, 0
  {
    if |ms| == 1 {
      MemberTextPrintable(ms[0]);
    } else if |ms| > 1 {
      MemberTextPrintable(ms[0]);
      StringifyMembersPrintable(ms[1..]);
      PrintableConcat(MemberText(ms[0]), ",");
      PrintableConcat(MemberText(ms[0]) + ",", StringifyMembers(ms[1..]));
    }
  }

}
