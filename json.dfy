/** An abstract view of JSON as the library sees it through `encoding/json`:
    wire values as a datatype, the rules by which one value is stored into a
    Go `int`, `string`, `float64` or struct field, and the way `json.Marshal`
    quotes a Go string, with a reference decoder for that quoting. The byte-level
    JSON grammar is not modelled. */
module Json {
  import opened Wrappers
  import opened Text

  datatype JValue =
    | JNull
    | JBool(b: bool)
    /** A number literal with neither fraction nor exponent. */
    | JInt(n: int)
    /** Any other number literal, kept as its text. */
    | JFrac(literal: string)
    | JStr(s: string)
    | JArr(items: seq<JValue>)
    | JObj(members: seq<(string, JValue)>)

  /** The word encoding/json uses for a value's kind in an UnmarshalTypeError. */
  function KindName(j: JValue): string {
    match j
    case JNull => "null"
    case JBool(_) => "bool"
    case JInt(_) => "number"
    case JFrac(_) => "number"
    case JStr(_) => "string"
    case JArr(_) => "array"
    case JObj(_) => "object"
  }

  /** The value of the last member named `key`. When a member repeats with a
      string, number, boolean or array value, the later one is what a struct
      field ends up holding. */
  function Lookup(members: seq<(string, JValue)>, key: string): (r: Option<JValue>)
    ensures r.None? <==> forall i :: 0 <= i < |members| ==> members[i].0 != key
    ensures r.Some? ==>
      exists i :: (0 <= i < |members| && members[i] == (key, r.value)
        && forall j :: i < j < |members| ==> members[j].0 != key)
    decreases |members|
  {
    if members == [] then None
    else if members[|members| - 1].0 == key then Some(members[|members| - 1].1)
    else Lookup(members[..|members| - 1], key)
  }

  /** Storing `j` into a Go integer of type `goType` (`int` or `int64`, both
      64 bits wide) currently holding `prev`: null leaves it unchanged, an
      integer literal must fit in 64 bits. */
  function DecodeInt(j: JValue, prev: Int64, goType: string, field: string): (r: Result<Int64, Error>)
    ensures r.Success? <==> j.JNull? || (j.JInt? && InInt64(j.n))
    ensures r.Success? && j.JInt? ==> r.value == j.n
    ensures j.JNull? ==> r == Success(prev)
    ensures r.Failure? ==> r.error.UnmarshalTypeError? && r.error.goType == goType && r.error.field == field
  {
    match j
    case JNull => Success(prev)
    case JInt(n) =>
      if InInt64(n) then Success(n)
      else Failure(UnmarshalTypeError("number " + Itoa(n), goType, field))
    case JFrac(lit) => Failure(UnmarshalTypeError("number " + lit, goType, field))
    case _ => Failure(UnmarshalTypeError(KindName(j), goType, field))
  }

  /** Storing `j` into a Go `string` currently holding `prev`. */
  function DecodeString(j: JValue, prev: string, field: string): (r: Result<string, Error>)
    ensures r.Success? <==> j.JNull? || j.JStr?
    ensures j.JStr? ==> r == Success(j.s)
    ensures j.JNull? ==> r == Success(prev)
    ensures r.Failure? ==> r.error == UnmarshalTypeError(KindName(j), "string", field)
  {
    match j
    case JNull => Success(prev)
    case JStr(s) => Success(s)
    case _ => Failure(UnmarshalTypeError(KindName(j), "string", field))
  }

  /** A Go `float64`, kept as the text of the number it was decoded from; its
      value is not interpreted. */
  datatype Float64 = Float64(literal: string)

  const FloatZero := Float64("0")

  /** Storing `j` into a Go `float64` currently holding `prev`. */
  function DecodeFloat(j: JValue, prev: Float64, field: string): (r: Result<Float64, Error>)
    ensures r.Success? <==> j.JNull? || j.JInt? || j.JFrac?
    ensures j.JNull? ==> r == Success(prev)
    ensures j.JFrac? ==> r == Success(Float64(j.literal))
  {
    match j
    case JNull => Success(prev)
    case JInt(n) => Success(Float64(Itoa(n)))
    case JFrac(lit) => Success(Float64(lit))
    case _ => Failure(UnmarshalTypeError(KindName(j), "float64", field))
  }

  /** Storing `j` into a Go struct: the members it offers, none for null. */
  function DecodeStruct(j: JValue, goType: string, field: string): (r: Result<seq<(string, JValue)>, Error>)
    ensures r.Success? <==> j.JNull? || j.JObj?
    ensures j.JObj? ==> r == Success(j.members)
    ensures j.JNull? ==> r == Success([])
  {
    match j
    case JNull => Success([])
    case JObj(ms) => Success(ms)
    case _ => Failure(UnmarshalTypeError(KindName(j), goType, field))
  }

  /** A struct field: absent behaves as null, so the field keeps its zero value. */
  function Member(members: seq<(string, JValue)>, key: string): (r: JValue)
    ensures (forall i :: 0 <= i < |members| ==> members[i].0 != key) ==> r == JNull
  {
    match Lookup(members, key)
    case None => JNull
    case Some(v) => v
  }

  /** Members after the last one named `key` do not change what `key` reads. */
  lemma {:induction false} MemberBefore(ms: seq<(string, JValue)>, later: seq<(string, JValue)>, key: string)
    requires forall i :: 0 <= i < |later| ==> later[i].0 != key
    ensures Member(ms + later, key) == Member(ms, key)
    decreases |later|
  {
    if later != [] {
      var all := ms + later;
      assert all[..|all| - 1] == ms + later[..|later| - 1];
      assert all[|all| - 1] == later[|later| - 1];
      assert Lookup(all, key) == Lookup(ms + later[..|later| - 1], key);
      MemberBefore(ms, later[..|later| - 1], key);
    } else {
      assert ms + later == ms;
    }
  }

  /** Two, three or four members with distinct names, appended to any list,
      each read back as written. */
  lemma Members2(ms: seq<(string, JValue)>, k1: string, v1: JValue, k2: string, v2: JValue)
    requires k1 != k2
    ensures Member(ms + [(k1, v1), (k2, v2)], k1) == v1
    ensures Member(ms + [(k1, v1), (k2, v2)], k2) == v2
  {
    assert ms + [(k1, v1), (k2, v2)] == (ms + [(k1, v1)]) + [(k2, v2)];
    MemberBefore(ms + [(k1, v1)], [(k2, v2)], k1);
  }

  lemma Members3(ms: seq<(string, JValue)>, k1: string, v1: JValue, k2: string, v2: JValue, k3: string, v3: JValue)
    requires k1 != k2 && k1 != k3 && k2 != k3
    ensures Member(ms + [(k1, v1), (k2, v2), (k3, v3)], k1) == v1
    ensures Member(ms + [(k1, v1), (k2, v2), (k3, v3)], k2) == v2
    ensures Member(ms + [(k1, v1), (k2, v2), (k3, v3)], k3) == v3
  {
    assert ms + [(k1, v1), (k2, v2), (k3, v3)] == (ms + [(k1, v1)]) + [(k2, v2), (k3, v3)];
    MemberBefore(ms + [(k1, v1)], [(k2, v2), (k3, v3)], k1);
    Members2(ms + [(k1, v1)], k2, v2, k3, v3);
  }

  lemma Members4(ms: seq<(string, JValue)>, k1: string, v1: JValue, k2: string, v2: JValue, k3: string, v3: JValue, k4: string, v4: JValue)
    requires k1 != k2 && k1 != k3 && k1 != k4 && k2 != k3 && k2 != k4 && k3 != k4
    ensures Member(ms + [(k1, v1), (k2, v2), (k3, v3), (k4, v4)], k1) == v1
    ensures Member(ms + [(k1, v1), (k2, v2), (k3, v3), (k4, v4)], k2) == v2
    ensures Member(ms + [(k1, v1), (k2, v2), (k3, v3), (k4, v4)], k3) == v3
    ensures Member(ms + [(k1, v1), (k2, v2), (k3, v3), (k4, v4)], k4) == v4
  {
    assert ms + [(k1, v1), (k2, v2), (k3, v3), (k4, v4)] == (ms + [(k1, v1)]) + [(k2, v2), (k3, v3), (k4, v4)];
    MemberBefore(ms + [(k1, v1)], [(k2, v2), (k3, v3), (k4, v4)], k1);
    Members3(ms + [(k1, v1)], k2, v2, k3, v3, k4, v4);
  }

  // ---------------------------------------------------------------------------
  // How json.Marshal writes a Go string, and a decoder for it.

  const HexDigits: string := "0123456789abcdef"

  function HexDigit(d: nat): (c: char)
    requires d < 16
  {
    HexDigits[d]
  }

  function HexValue(c: char): Option<nat> {
    if '0' <= c <= '9' then Some(c as int - '0' as int)
    else if 'a' <= c <= 'f' then Some(c as int - 'a' as int + 10)
    else if 'A' <= c <= 'F' then Some(c as int - 'A' as int + 10)
    else None
  }

  function Pow16(k: nat): (p: nat)
    ensures p > 0
  {
    if k == 0 then 1 else 16 * Pow16(k - 1)
  }

  /** `n` in `width` lower-case hexadecimal digits, most significant first;
      four of them in a `\u` escape. */
  function HexFixed(n: nat, width: nat): (s: string)
    ensures |s| == width
  {
    if width == 0 then [] else HexFixed(n / 16, width - 1) + [HexDigit(n % 16)]
  }

  /** The value of a run of hexadecimal digits of either case. */
  function HexNumber(s: string): Option<nat>
    decreases |s|
  {
    if s == [] then Some(0)
    else match (HexNumber(s[..|s| - 1]), HexValue(s[|s| - 1]))
      case (Some(high), Some(low)) => Some(high * 16 + low)
      case _ => None
  }

  lemma HexDigitValue(d: nat)
    requires d < 16
    ensures HexValue(HexDigit(d)) == Some(d)
  {
  }

  /** Reading back fixed-width hexadecimal gives the number written. */
  lemma {:induction false} HexRoundTrip(n: nat, width: nat)
    requires n < Pow16(width)
    ensures HexNumber(HexFixed(n, width)) == Some(n)
  {
    if width > 0 {
      var s := HexFixed(n, width);
      assert n / 16 < Pow16(width - 1);
      HexRoundTrip(n / 16, width - 1);
      assert s[..|s| - 1] == HexFixed(n / 16, width - 1);
      HexDigitValue(n % 16);
    }
  }

  /** The characters json.Marshal writes as a `\u` escape: control characters
      without a short form, the HTML-sensitive `<`, `>`, `&`, and the line and
      paragraph separators U+2028 and U+2029. */
  predicate IsUnicodeEscaped(c: char) {
    (c < ' ' && c != '\n' && c != '\r' && c != '\t')
    || c == '<' || c == '>' || c == '&'
    || c as int == 0x2028 || c as int == 0x2029
  }

  function EscapeChar(c: char): (r: string)
    ensures |r| > 0
  {
    if c == '"' then "\\\""
    else if c == '\\' then "\\\\"
    else if c == '\n' then "\\n"
    else if c == '\r' then "\\r"
    else if c == '\t' then "\\t"
    else if IsUnicodeEscaped(c) then "\\u" + HexFixed(c as int, 4)
    else [c]
  }

  /** The text between the quotes that json.Marshal writes for `s`. */
  function Escape(s: string): (r: string)
    decreases |s|
  {
    if s == [] then [] else EscapeChar(s[0]) + Escape(s[1..])
  }

  /** A character json.Marshal writes as itself. */
  predicate IsPlain(c: char) {
    c != '"' && c != '\\' && c != '\n' && c != '\r' && c != '\t' && !IsUnicodeEscaped(c)
  }

  /** Text without quotes, backslashes, control or HTML-sensitive characters is
      written unchanged. */
  lemma {:induction false} EscapePlain(s: string)
    requires forall i :: 0 <= i < |s| ==> IsPlain(s[i])
    ensures Escape(s) == s
    decreases |s|
  {
    if s != [] {
      EscapePlain(s[1..]);
      assert [s[0]] + s[1..] == s;
    }
  }

  /** json.Marshal of a Go string. */
  function Quote(s: string): string {
    "\"" + Escape(s) + "\""
  }

  /** The character a short escape `\x` stands for. */
  function ShortEscape(c: char): Option<char> {
    if c == '"' then Some('"')
    else if c == '\\' then Some('\\')
    else if c == '/' then Some('/')
    else if c == 'n' then Some('\n')
    else if c == 'r' then Some('\r')
    else if c == 't' then Some('\t')
    else if c == 'b' then Some(8 as char)
    else if c == 'f' then Some(12 as char)
    else None
  }

  predicate IsScalarValue(n: nat) {
    n < 0xD800 || (0xE000 <= n < 0x110000)
  }

  /** Reads one character of a JSON string body that does not start with the
      closing quote: a plain character, a short escape or a `\u` escape.
      Gives the character and how many characters it took. */
  function ReadChar(s: string): (r: Option<(char, nat)>)
    ensures r.Some? ==> 0 < r.value.1 <= |s|
  {
    if s == [] then None
    else if s[0] != '\\' then Some((s[0], 1))
    else if |s| >= 2 && ShortEscape(s[1]).Some? then Some((ShortEscape(s[1]).value, 2))
    else if |s| >= 6 && s[1] == 'u' && HexNumber(s[2..6]).Some? && IsScalarValue(HexNumber(s[2..6]).value) then
      Some((HexNumber(s[2..6]).value as char, 6))
    else None
  }

  /** Reference decoder for a JSON string body: reads from just after the
      opening quote up to the closing quote and gives the decoded text and the
      number of characters read, the closing quote included. */
  function ReadString(s: string): (r: Option<(string, nat)>)
    ensures r.Some? ==> 0 < r.value.1 <= |s|
    decreases |s|
  {
    if s == [] then None
    else if s[0] == '"' then Some(([], 1))
    else match ReadChar(s)
      case None => None
      case Some(cw) =>
        match ReadString(s[cw.1..])
        case None => None
        case Some(p) => Some(([cw.0] + p.0, p.1 + cw.1))
  }

  lemma ReadShortEscape(c: char, t: string)
    requires c == '"' || c == '\\' || c == '\n' || c == '\r' || c == '\t'
    ensures ReadChar(EscapeChar(c) + t) == Some((c, 2))
  {
    var s := EscapeChar(c) + t;
    assert s[0] == '\\' && ShortEscape(s[1]) == Some(c);
  }

  /** A `\u` escape whose four hex digits name a scalar value reads as that
      character. */
  lemma ReadHexEscape(h: string, t: string, v: nat)
    requires |h| == 4 && HexNumber(h) == Some(v) && IsScalarValue(v)
    ensures ReadChar("\\u" + h + t) == Some((v as char, 6))
  {
    var s := "\\u" + h + t;
    assert s[0] == '\\' && s[1] == 'u';
    assert s[2..6] == h;
  }

  lemma ReadUnicodeEscape(c: char, t: string)
    requires IsUnicodeEscaped(c)
    ensures ReadChar(EscapeChar(c) + t) == Some((c, 6))
  {
    var v := c as int;
    assert v < 0x10000;
    assert Pow16(4) == 0x10000;
    HexRoundTrip(v, 4);
    ReadHexEscape(HexFixed(v, 4), t, v);
  }

  /** Reading one escaped character consumes exactly its escape, which never
      starts with a quote. */
  lemma ReadEscapedChar(c: char, t: string)
    ensures ReadChar(EscapeChar(c) + t) == Some((c, |EscapeChar(c)|))
    ensures EscapeChar(c)[0] != '"'
  {
    if c == '"' || c == '\\' || c == '\n' || c == '\r' || c == '\t' {
      ReadShortEscape(c, t);
    } else if IsUnicodeEscaped(c) {
      ReadUnicodeEscape(c, t);
    }
  }

  lemma ReadStep(c: char, t: string, tail: string, n: nat)
    requires ReadString(t) == Some((tail, n))
    ensures ReadString(EscapeChar(c) + t) == Some(([c] + tail, n + |EscapeChar(c)|))
  {
    var s := EscapeChar(c) + t;
    ReadEscapedChar(c, t);
    assert s[0] != '"';
    assert s[|EscapeChar(c)|..] == t;
  }

  /** Reading escaped text and then anything readable reads the text back. */
  lemma {:induction false} ReadEscaped(x: string, t: string, tail: string, n: nat)
    requires ReadString(t) == Some((tail, n))
    ensures ReadString(Escape(x) + t) == Some((x + tail, |Escape(x)| + n))
    decreases |x|
  {
    if x == [] {
      assert Escape(x) + t == t;
      assert x + tail == tail;
    } else {
      ReadEscaped(x[1..], t, tail, n);
      ReadEscapedFirst(x, t, tail, n);
    }
  }

  lemma ConcatAssoc<T>(a: seq<T>, b: seq<T>, c: seq<T>)
    ensures a + b + c == a + (b + c)
  {
  }

  /** If the rest of the text reads back after escaping, so does the whole. */
  lemma ReadEscapedFirst(x: string, t: string, tail: string, n: nat)
    requires x != []
    requires ReadString(Escape(x[1..]) + t) == Some((x[1..] + tail, |Escape(x[1..])| + n))
    ensures ReadString(Escape(x) + t) == Some((x + tail, |Escape(x)| + n))
  {
    var e0, e1 := EscapeChar(x[0]), Escape(x[1..]);
    assert Escape(x) == e0 + e1;
    ConcatAssoc(e0, e1, t);
    assert x == [x[0]] + x[1..];
    ConcatAssoc([x[0]], x[1..], tail);
    ReadStep(x[0], e1 + t, x[1..] + tail, |e1| + n);
  }

  /** The decoder recovers every string json.Marshal quotes, and stops at the
      closing quote. */
  lemma ReadStringOfEscape(x: string, rest: string)
    ensures ReadString(Escape(x) + "\"" + rest) == Some((x, |Escape(x)| + 1))
  {
    var t := "\"" + rest;
    assert ReadString(t) == Some(([], 1));
    ReadEscaped(x, t, [], 1);
    assert x + [] == x;
    assert Escape(x) + "\"" + rest == Escape(x) + t;
  }

  /** Reads a quoted JSON string at the start of `s`; gives its text and what
      follows the closing quote. */
  function ReadQuoted(s: string): Option<(string, string)> {
    if |s| > 0 && s[0] == '"' then
      match ReadString(s[1..])
      case None => None
      case Some(p) => Some((p.0, s[1 + p.1..]))
    else None
  }

  lemma ReadQuotedOfQuote(x: string, rest: string)
    ensures ReadQuoted(Quote(x) + rest) == Some((x, rest))
  {
    var s := Quote(x) + rest;
    assert s[1..] == Escape(x) + "\"" + rest;
    ReadStringOfEscape(x, rest);
    assert s[1 + |Escape(x)| + 1..] == rest;
  }

  /** Reads a JSON integer that runs up to the first `stop`; gives its value
      and the text from `stop` on. */
  function ReadIntUntil(s: string, stop: char): (r: Option<(int, string)>)
    ensures r.Some? ==> 0 < |r.value.1| <= |s| && r.value.1[0] == stop && stop !in s[..|s| - |r.value.1|]
    ensures r.Some? ==> ParseInt(s[..|s| - |r.value.1|]) == Some(r.value.0)
  {
    match IndexOf(s, stop)
    case None => None
    case Some(i) =>
      match ParseInt(s[..i])
      case None => None
      case Some(n) => Some((n, s[i..]))
  }

  lemma ReadIntUntilOf(n: int, stop: char, rest: string)
    requires !IsNumeralChar(stop)
    ensures ReadIntUntil(Itoa(n) + [stop] + rest, stop) == Some((n, [stop] + rest))
  {
    var d := Itoa(n);
    var s := d + [stop] + rest;
    NoSeparatorInItoa(n, stop);
    assert s[|d|] == stop;
    assert s[..|d|] == d;
    var i := IndexOf(s, stop).value;
    assert i == |d|;
    assert s[i..] == [stop] + rest;
  }
}
