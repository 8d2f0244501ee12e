/**
 The text that the event digest is taken over: a compact JSON array with every
 non-ASCII character escaped, as `json.dumps(..., ensure_ascii=True,
 separators=(",", ":"))` writes it, and a decoder for it.
 A Python string is a sequence of code points, lone surrogates included.
 */
module CanonicalJson {
  import opened Wrappers

  type CodePoint = c: int | 0 <= c <= 0x10FFFF
  type CodeUnit = u: int | 0 <= u <= 0xFFFF
  type Text = seq<CodePoint>

  datatype Scalar = Null | Number(n: int) | Str(text: Text)

  // ---------------------------------------------------------------- strings

  predicate IsHigh(u: int) { 0xD800 <= u <= 0xDBFF }

  predicate IsLow(u: int) { 0xDC00 <= u <= 0xDFFF }

  /** No surrogate code point occurs in `t`. SQLite stores no other text. */
  predicate IsScalarText(t: Text) {
    forall i | 0 <= i < |t| :: !IsHigh(t[i]) && !IsLow(t[i])
  }

  function HexDigit(d: int): char
    requires 0 <= d < 16
  {
    if d < 10 then ('0' as int + d) as char else ('a' as int + d - 10) as char
  }

  function HexValue(c: char): Option<int> {
    if '0' <= c <= '9' then Some(c as int - '0' as int)
    else if 'a' <= c <= 'f' then Some(c as int - 'a' as int + 10)
    else None
  }

  /** The two-character escape of a code unit, if it has one. */
  function ShortEscape(u: CodeUnit): Option<char> {
    if u == 34 then Some('"')
    else if u == 92 then Some('\\')
    else if u == 8 then Some('b')
    else if u == 12 then Some('f')
    else if u == 10 then Some('n')
    else if u == 13 then Some('r')
    else if u == 9 then Some('t')
    else None
  }

  function ShortValue(c: char): Option<CodeUnit> {
    if c == '"' then Some(34)
    else if c == '\\' then Some(92)
    else if c == 'b' then Some(8)
    else if c == 'f' then Some(12)
    else if c == 'n' then Some(10)
    else if c == 'r' then Some(13)
    else if c == 't' then Some(9)
    else None
  }

  function EscapeUnit(u: CodeUnit): (s: string) {
    if ShortEscape(u).Some? then ['\\', ShortEscape(u).value]
    else if 32 <= u <= 126 then [u as char]
    else ['\\', 'u', HexDigit(u / 4096), HexDigit(u / 256 % 16), HexDigit(u / 16 % 16), HexDigit(u % 16)]
  }

  function HighOf(c: CodePoint): CodeUnit
    requires c > 0xFFFF
  {
    0xD800 + (c - 0x10000) / 0x400
  }

  function LowOf(c: CodePoint): CodeUnit
    requires c > 0xFFFF
  {
    0xDC00 + (c - 0x10000) % 0x400
  }

  /** One character of the one-pass escape: a code point above U+FFFF becomes two escapes. */
  function EscapeChar(c: CodePoint): string {
    if c <= 0xFFFF then EscapeUnit(c) else EscapeUnit(HighOf(c)) + EscapeUnit(LowOf(c))
  }

  function EscapeText(t: Text): string {
    if t == [] then "" else EscapeChar(t[0]) + EscapeText(t[1..])
  }

  function EscapeUnits(us: seq<CodeUnit>): string {
    if us == [] then "" else EscapeUnit(us[0]) + EscapeUnits(us[1..])
  }

  function UnitsOf(c: CodePoint): seq<CodeUnit> {
    if c <= 0xFFFF then [c] else [HighOf(c), LowOf(c)]
  }

  /** The UTF-16 form of a text. */
  function Utf16(t: Text): seq<CodeUnit> {
    if t == [] then [] else UnitsOf(t[0]) + Utf16(t[1..])
  }

  function Pair(h: CodeUnit, l: CodeUnit): CodePoint
    requires IsHigh(h) && IsLow(l)
  {
    0x10000 + (h - 0xD800) * 0x400 + (l - 0xDC00)
  }

  /** Reads UTF-16 back, joining every high surrogate with a low one that follows it. */
  function FromUtf16(us: seq<CodeUnit>): Text {
    if us == [] then []
    else if |us| >= 2 && IsHigh(us[0]) && IsLow(us[1]) then [Pair(us[0], us[1])] + FromUtf16(us[2..])
    else [us[0]] + FromUtf16(us[1..])
  }

  /** Reads one escaped code unit: the unit and the characters it took. */
  function DecodeUnit(s: string): Option<(CodeUnit, nat)> {
    if s == "" || s[0] == '"' then None
    else if s[0] != '\\' then
      if ' ' <= s[0] <= '~' then Some((s[0] as int, 1)) else None
    else if |s| < 2 then None
    else if s[1] != 'u' then
      if ShortValue(s[1]).Some? then Some((ShortValue(s[1]).value, 2)) else None
    else if |s| < 6 then None
    else
      var a, b, c, d := HexValue(s[2]), HexValue(s[3]), HexValue(s[4]), HexValue(s[5]);
      if a.Some? && b.Some? && c.Some? && d.Some?
      then Some((a.value * 4096 + b.value * 256 + c.value * 16 + d.value, 6))
      else None
  }

  /** Reads escaped units up to the closing quote; also returns what follows it. */
  function DecodeUnits(s: string): Option<(seq<CodeUnit>, string)>
    decreases |s|
  {
    if s == "" then None
    else if s[0] == '"' then Some(([], s[1..]))
    else
      match DecodeUnit(s)
      case None => None
      case Some((u, n)) =>
        if n == 0 || n > |s| then None
        else
          match DecodeUnits(s[n..])
          case None => None
          case Some((us, rest)) => Some(([u] + us, rest))
  }

  lemma HexRoundTrip(d: int)
    requires 0 <= d < 16
    ensures HexValue(HexDigit(d)) == Some(d)
  {
  }

  lemma HexDigitsOf(u: CodeUnit)
    ensures u == u / 4096 * 4096 + u / 256 % 16 * 256 + u / 16 % 16 * 16 + u % 16
  {
    assert u / 256 == u / 4096 * 16 + u / 256 % 16;
    assert u / 16 == u / 256 * 16 + u / 16 % 16;
  }

  lemma DecodeHexEscape(a: int, b: int, c: int, d: int, rest: string)
    requires 0 <= a < 16 && 0 <= b < 16 && 0 <= c < 16 && 0 <= d < 16
    ensures
      var s := ['\\', 'u', HexDigit(a), HexDigit(b), HexDigit(c), HexDigit(d)] + rest;
      s[0] == '\\' && DecodeUnit(s) == Some((a * 4096 + b * 256 + c * 16 + d, 6))
  {
    var s := ['\\', 'u', HexDigit(a), HexDigit(b), HexDigit(c), HexDigit(d)] + rest;
    HexRoundTrip(a);
    HexRoundTrip(b);
    HexRoundTrip(c);
    HexRoundTrip(d);
    assert s[0] == '\\' && s[1] == 'u' && |s| >= 6;
    assert s[2] == HexDigit(a) && s[3] == HexDigit(b) && s[4] == HexDigit(c) && s[5] == HexDigit(d);
  }

  lemma DecodeShortEscape(u: CodeUnit, rest: string)
    requires ShortEscape(u).Some?
    ensures
      var s := ['\\', ShortEscape(u).value] + rest;
      s[0] == '\\' && DecodeUnit(s) == Some((u, 2))
  {
    var s := ['\\', ShortEscape(u).value] + rest;
    assert s[0] == '\\' && s[1] == ShortEscape(u).value && s[1] != 'u';
  }

  lemma DecodeEscapeUnit(u: CodeUnit, rest: string)
    ensures DecodeUnit(EscapeUnit(u) + rest) == Some((u, |EscapeUnit(u)|))
    ensures (EscapeUnit(u) + rest)[0] != '"'
  {
    if ShortEscape(u).Some? {
      DecodeShortEscape(u, rest);
    } else if 32 <= u <= 126 {
      assert (EscapeUnit(u) + rest)[0] == u as char;
    } else {
      HexDigitsOf(u);
      DecodeHexEscape(u / 4096, u / 256 % 16, u / 16 % 16, u % 16, rest);
    }
  }

  lemma {:induction false} DecodeEscapeUnits(us: seq<CodeUnit>, rest: string)
    ensures DecodeUnits(EscapeUnits(us) + "\"" + rest) == Some((us, rest))
  {
    var s := EscapeUnits(us) + "\"" + rest;
    if us == [] {
      assert s == "\"" + rest;
      assert s[1..] == rest;
    } else {
      var tail := EscapeUnits(us[1..]) + "\"" + rest;
      assert s == EscapeUnit(us[0]) + tail;
      DecodeEscapeUnit(us[0], tail);
      assert s[|EscapeUnit(us[0])|..] == tail;
      DecodeEscapeUnits(us[1..], rest);
      assert us == [us[0]] + us[1..];
    }
  }

  lemma {:induction false} EscapeUnitsConcat(a: seq<CodeUnit>, b: seq<CodeUnit>)
    ensures EscapeUnits(a + b) == EscapeUnits(a) + EscapeUnits(b)
  {
    if a == [] {
      assert a + b == b;
    } else {
      assert (a + b)[1..] == a[1..] + b;
      EscapeUnitsConcat(a[1..], b);
    }
  }

  /** The one-pass escape is the unit-by-unit escape of the UTF-16 form. */
  lemma {:induction false} EscapeIsEscapedUtf16(t: Text)
    ensures EscapeText(t) == EscapeUnits(Utf16(t))
  {
    if t != [] {
      EscapeIsEscapedUtf16(t[1..]);
      EscapeUnitsConcat(UnitsOf(t[0]), Utf16(t[1..]));
      if t[0] > 0xFFFF {
        var us := UnitsOf(t[0]);
        assert us[1..] == [LowOf(t[0])];
        assert us[1..][1..] == [];
        assert EscapeUnits(us[1..]) == EscapeUnit(LowOf(t[0])) + "";
      } else {
        assert UnitsOf(t[0])[1..] == [];
      }
    }
  }

  lemma {:induction false} Utf16RoundTrip(t: Text)
    requires IsScalarText(t)
    ensures FromUtf16(Utf16(t)) == t
    ensures Utf16(t) != [] ==> !IsLow(Utf16(t)[0])
  {
    if t != [] {
      var tail := Utf16(t[1..]);
      Utf16RoundTrip(t[1..]);
      if t[0] > 0xFFFF {
        assert Utf16(t)[2..] == tail;
      } else {
        assert Utf16(t)[1..] == tail;
      }
    }
  }

  /**
   The escape loses exactly what UTF-16 loses: two Python strings are written
   alike if and only if their UTF-16 forms are equal.
   */
  lemma EscapeEqualIffUtf16Equal(a: Text, b: Text)
    ensures EscapeText(a) == EscapeText(b) <==> Utf16(a) == Utf16(b)
  {
    EscapeIsEscapedUtf16(a);
    EscapeIsEscapedUtf16(b);
    DecodeEscapeUnits(Utf16(a), "");
    DecodeEscapeUnits(Utf16(b), "");
  }

  /** A text of printable ASCII without quotes and backslashes. */
  predicate IsPlain(t: Text) {
    forall i | 0 <= i < |t| :: 32 <= t[i] <= 126 && t[i] != 34 && t[i] != 92
  }

  /** Plain text is written as it is. */
  lemma {:induction false} PlainTextUnescaped(t: Text)
    requires IsPlain(t)
    ensures |EscapeText(t)| == |t| && forall i | 0 <= i < |t| :: EscapeText(t)[i] == t[i] as char
  {
    if t != [] {
      PlainTextUnescaped(t[1..]);
    }
  }

  /** What the JSON encoder writes for the characters that are not written as they are. */
  lemma EscapesSpelledOut()
    ensures EscapeUnit(34) == "\\\"" && EscapeUnit(92) == "\\\\"
    ensures EscapeUnit(8) == "\\b" && EscapeUnit(9) == "\\t" && EscapeUnit(10) == "\\n"
    ensures EscapeUnit(12) == "\\f" && EscapeUnit(13) == "\\r"
    ensures EscapeUnit(32) == " " && EscapeUnit(126) == "~"
  {
  }

  lemma HexEscapesSpelledOut()
    ensures EscapeUnit(0) == "\\u0000" && EscapeUnit(31) == "\\u001f" && EscapeUnit(127) == "\\u007f"
    ensures EscapeUnit(0xE9) == "\\u00e9" && EscapeUnit(0xABCD) == "\\uabcd"
  {
  }

  /** A character beyond 16 bits is written as its two surrogates. */
  lemma PairSpelledOut()
    ensures EscapeChar(0x1F600) == "\\ud83d" + "\\ude00"
  {
    assert HighOf(0x1F600) == 0xD83D && LowOf(0x1F600) == 0xDE00;
  }

  /** A lone-surrogate pair and the character it spells collide, so scalar text is needed. */
  lemma LoneSurrogatesCollide()
    ensures [0xD83D, 0xDE00] != [0x1F600]
    ensures EscapeText([0xD83D, 0xDE00]) == EscapeText([0x1F600])
  {
    var a: Text, b: Text := [0xD83D, 0xDE00], [0x1F600];
    assert a[1..] == [0xDE00] && a[1..][1..] == [] && b[1..] == [];
    assert Utf16(a[1..]) == [0xDE00];
    assert Utf16(a) == [0xD83D, 0xDE00];
    assert Utf16(b) == [0xD83D, 0xDE00];
    EscapeEqualIffUtf16Equal(a, b);
  }

  // ---------------------------------------------------------------- numbers

  predicate IsDigit(c: char) { '0' <= c <= '9' }

  /** The decimal digits of `n`, no leading zero. */
  function Digits(n: nat): (s: string)
    ensures s != "" && forall i | 0 <= i < |s| :: IsDigit(s[i])
  {
    if n < 10 then [('0' as int + n) as char]
    else Digits(n / 10) + [('0' as int + n % 10) as char]
  }

  function Decimal(n: int): string {
    if n < 0 then "-" + Digits(-n) else Digits(n)
  }

  lemma DecimalsSpelledOut()
    ensures Decimal(0) == "0" && Decimal(7) == "7" && Decimal(120) == "120" && Decimal(-45) == "-45"
  {
    assert Digits(12) == "12";
  }

  function DigitsValue(s: string): nat
    requires forall i | 0 <= i < |s| :: IsDigit(s[i])
  {
    if s == "" then 0
    else
      assert IsDigit(s[|s| - 1]);
      DigitsValue(s[..|s| - 1]) * 10 + (s[|s| - 1] as int - '0' as int)
  }

  lemma {:induction false} DigitsRoundTrip(n: nat)
    ensures DigitsValue(Digits(n)) == n
  {
    var s := Digits(n);
    if n >= 10 {
      DigitsRoundTrip(n / 10);
      assert s[..|s| - 1] == Digits(n / 10);
    } else {
      assert s[..|s| - 1] == "";
    }
  }

  lemma DecimalInjective(a: int, b: int)
    requires Decimal(a) == Decimal(b)
    ensures a == b
  {
    DigitsRoundTrip(if a < 0 then -a else a);
    DigitsRoundTrip(if b < 0 then -b else b);
    assert a < 0 <==> Decimal(a)[0] == '-';
    assert b < 0 <==> Decimal(b)[0] == '-';
    if a < 0 {
      assert Decimal(a)[1..] == Digits(-a) && Decimal(b)[1..] == Digits(-b);
    }
  }

  /** How many digits `s` starts with. */
  function DigitRun(s: string): (n: nat)
    ensures n <= |s| && forall i | 0 <= i < n :: IsDigit(s[i])
  {
    if s == "" || !IsDigit(s[0]) then 0 else 1 + DigitRun(s[1..])
  }

  lemma {:induction false} DigitRunOf(d: string, rest: string)
    requires forall i | 0 <= i < |d| :: IsDigit(d[i])
    requires rest == "" || !IsDigit(rest[0])
    ensures DigitRun(d + rest) == |d|
  {
    if d == "" {
      assert d + rest == rest;
    } else {
      assert (d + rest)[1..] == d[1..] + rest;
      DigitRunOf(d[1..], rest);
    }
  }

  function DecodeNumber(s: string): Option<(int, string)> {
    if s != "" && s[0] == '-' then
      var n := DigitRun(s[1..]);
      if n == 0 then None else Some((0 - DigitsValue(s[1..][..n]), s[1..][n..]))
    else
      var n := DigitRun(s);
      if n == 0 then None else Some((DigitsValue(s[..n]), s[n..]))
  }

  lemma DecodeDigits(n: nat, rest: string)
    requires rest == "" || !IsDigit(rest[0])
    ensures
      var s := Digits(n) + rest;
      && IsDigit(s[0]) && DigitRun(s) == |Digits(n)|
      && s[..DigitRun(s)] == Digits(n) && s[DigitRun(s)..] == rest && DigitsValue(Digits(n)) == n
  {
    DigitRunOf(Digits(n), rest);
    DigitsRoundTrip(n);
    assert IsDigit(Digits(n)[0]);
  }

  lemma DecodeSigned(s: string, d: string, n: nat, rest: string)
    requires s != "" && s[0] == '-' && s[1..] == d + rest && d == Digits(n) && (rest == "" || !IsDigit(rest[0]))
    ensures DecodeNumber(s) == Some((0 - n, rest))
  {
    DecodeDigits(n, rest);
  }

  lemma DecodeUnsigned(s: string, d: string, n: nat, rest: string)
    requires s == d + rest && d == Digits(n) && (rest == "" || !IsDigit(rest[0]))
    ensures DecodeNumber(s) == Some((n, rest)) && IsDigit(s[0])
  {
    DecodeDigits(n, rest);
  }

  lemma DecodeDecimal(n: int, rest: string)
    requires rest == "" || !IsDigit(rest[0])
    ensures DecodeNumber(Decimal(n) + rest) == Some((n, rest))
    ensures (Decimal(n) + rest)[0] != 'n' && (Decimal(n) + rest)[0] != '"' && (Decimal(n) + rest)[0] != ']'
  {
    var s := Decimal(n) + rest;
    if n < 0 {
      var d := Digits(-n);
      assert s[0] == '-' && s[1..] == d + rest;
      DecodeSigned(s, d, -n, rest);
    } else {
      DecodeUnsigned(s, Digits(n), n, rest);
    }
  }

  // ---------------------------------------------------------------- values and arrays

  function EncodeScalar(v: Scalar): string {
    match v
    case Null => "null"
    case Number(n) => Decimal(n)
    case Str(t) => "\"" + EscapeText(t) + "\""
  }

  /** The values after the opening bracket, each but the first after a comma, and the closing bracket. */
  function EncodeItems(vs: seq<Scalar>): string {
    if vs == [] then "]"
    else if |vs| == 1 then EncodeScalar(vs[0]) + "]"
    else EncodeScalar(vs[0]) + ("," + EncodeItems(vs[1..]))
  }

  function EncodeArray(vs: seq<Scalar>): string {
    "[" + EncodeItems(vs)
  }

  function DecodeScalar(s: string): Option<(Scalar, string)> {
    if s == "" then None
    else if s[0] == 'n' then
      if |s| >= 4 && s[..4] == "null" then Some((Null, s[4..])) else None
    else if s[0] == '"' then
      match DecodeUnits(s[1..])
      case None => None
      case Some((us, rest)) => Some((Str(FromUtf16(us)), rest))
    else
      match DecodeNumber(s)
      case None => None
      case Some((n, rest)) => Some((Number(n), rest))
  }

  function DecodeItems(s: string): Option<seq<Scalar>>
    decreases |s|
  {
    if s == "]" then Some([])
    else
      match DecodeScalar(s)
      case None => None
      case Some((v, rest)) =>
        if rest == "]" then Some([v])
        else if rest == "" || rest[0] != ',' || |rest| > |s| then None
        else
          match DecodeItems(rest[1..])
          case None => None
          case Some(vs) => Some([v] + vs)
  }

  function DecodeArray(s: string): Option<seq<Scalar>> {
    if s == "" || s[0] != '[' then None else DecodeItems(s[1..])
  }

  predicate IsScalarValue(v: Scalar) {
    v.Str? ==> IsScalarText(v.text)
  }

  lemma DecodeEncodeText(t: Text, rest: string)
    requires IsScalarText(t)
    ensures
      var s := EncodeScalar(Str(t)) + rest;
      s[0] == '"' && DecodeScalar(s) == Some((Str(t), rest))
  {
    var s := EncodeScalar(Str(t)) + rest;
    EscapeIsEscapedUtf16(t);
    assert s[1..] == EscapeUnits(Utf16(t)) + "\"" + rest;
    DecodeEscapeUnits(Utf16(t), rest);
    Utf16RoundTrip(t);
  }

  lemma DecodeEncodeNull(rest: string)
    ensures
      var s := EncodeScalar(Null) + rest;
      s[0] == 'n' && DecodeScalar(s) == Some((Null, rest))
  {
    var s := EncodeScalar(Null) + rest;
    assert s[..4] == "null" && s[4..] == rest;
  }

  lemma DecodeEncodeScalar(v: Scalar, rest: string)
    requires IsScalarValue(v)
    requires rest != "" && !IsDigit(rest[0])
    ensures DecodeScalar(EncodeScalar(v) + rest) == Some((v, rest))
    ensures EncodeScalar(v) + rest != "]"
  {
    match v {
      case Null => DecodeEncodeNull(rest);
      case Number(n) => DecodeDecimal(n, rest);
      case Str(t) => DecodeEncodeText(t, rest);
    }
  }

  lemma DecodeLastItem(s: string, v: Scalar)
    requires s != "]" && DecodeScalar(s) == Some((v, "]"))
    ensures DecodeItems(s) == Some([v])
  {
  }

  lemma DecodeFirstItem(s: string, v: Scalar, rest: string, vs: seq<Scalar>)
    requires s != "]" && DecodeScalar(s) == Some((v, "," + rest)) && |rest| < |s|
    requires DecodeItems(rest) == Some(vs)
    ensures DecodeItems(s) == Some([v] + vs)
  {
    assert ("," + rest)[0] == ',' && ("," + rest)[1..] == rest;
  }

  lemma DecodeEncodeLast(v: Scalar)
    requires IsScalarValue(v)
    ensures DecodeItems(EncodeItems([v])) == Some([v])
  {
    var end := "]";
    DecodeEncodeScalar(v, end);
    DecodeLastItem(EncodeScalar(v) + end, v);
  }

  lemma EncodeNext(v: Scalar, vs: seq<Scalar>)
    requires vs != []
    ensures EncodeItems([v] + vs) == EncodeScalar(v) + ("," + EncodeItems(vs))
  {
    assert ([v] + vs)[1..] == vs;
  }

  lemma DecodeEncodeNext(v: Scalar, vs: seq<Scalar>)
    requires IsScalarValue(v) && vs != [] && DecodeItems(EncodeItems(vs)) == Some(vs)
    ensures DecodeItems(EncodeItems([v] + vs)) == Some([v] + vs)
  {
    var tail := EncodeItems(vs);
    EncodeNext(v, vs);
    DecodeEncodeScalar(v, "," + tail);
    DecodeFirstItem(EncodeScalar(v) + ("," + tail), v, tail, vs);
  }

  lemma {:induction false} DecodeEncodeItems(vs: seq<Scalar>)
    requires forall i | 0 <= i < |vs| :: IsScalarValue(vs[i])
    ensures DecodeItems(EncodeItems(vs)) == Some(vs)
  {
    if |vs| == 1 {
      DecodeEncodeLast(vs[0]);
      assert vs == [vs[0]];
    } else if |vs| > 1 {
      DecodeEncodeItems(vs[1..]);
      DecodeEncodeNext(vs[0], vs[1..]);
      assert vs == [vs[0]] + vs[1..];
    }
  }

  /** Decoding undoes encoding, for every array of nulls, integers and scalar texts. */
  lemma DecodeEncodeArray(vs: seq<Scalar>)
    requires forall i | 0 <= i < |vs| :: IsScalarValue(vs[i])
    ensures DecodeArray(EncodeArray(vs)) == Some(vs)
  {
    assert EncodeArray(vs)[1..] == EncodeItems(vs);
    DecodeEncodeItems(vs);
  }
}
