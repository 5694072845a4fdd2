/** Text helpers the library takes from Go's standard library: decimal rendering
    (`strconv.Itoa`, `%d`), `strings.Split` on one character, ASCII case mapping
    and the byte length `len` of a Go string. Each rendering comes with the
    reference decoder it is proved against. */
module Text {
  import opened Wrappers

  /** Go's `int` and `int64` on a 64-bit platform. */
  type Int64 = x: int | -0x8000_0000_0000_0000 <= x <= 0x7fff_ffff_ffff_ffff

  predicate InInt64(x: int) {
    -0x8000_0000_0000_0000 <= x <= 0x7fff_ffff_ffff_ffff
  }

  predicate IsDigit(c: char) {
    '0' <= c <= '9'
  }

  predicate AllDigits(s: string) {
    forall i :: 0 <= i < |s| ==> IsDigit(s[i])
  }

  /** Characters that can appear in a rendered integer. */
  predicate IsNumeralChar(c: char) {
    IsDigit(c) || c == '-'
  }

  function DigitChar(d: nat): (c: char)
    requires d < 10
    ensures IsDigit(c) && c as int - '0' as int == d
  {
    ('0' as int + d) as char
  }

  /** The decimal digits of `n`, most significant first. */
  function NatDigits(n: nat): (s: string)
    ensures |s| > 0 && AllDigits(s)
    ensures s[0] == '0' <==> n == 0
    ensures n == 0 ==> s == "0"
    decreases n
  {
    if n < 10 then [DigitChar(n)] else NatDigits(n / 10) + [DigitChar(n % 10)]
  }

  /** The value of a string of decimal digits; leading zeros are allowed. */
  function DigitsValue(s: string): nat
    requires AllDigits(s)
    decreases |s|
  {
    if s == [] then 0 else 10 * DigitsValue(s[..|s| - 1]) + (s[|s| - 1] as int - '0' as int)
  }

  /** Reference decoder for rendered integers: an optional minus sign followed
      by one or more decimal digits. */
  function ParseInt(s: string): Option<int> {
    if |s| > 1 && s[0] == '-' && AllDigits(s[1..]) then Some(0 - DigitsValue(s[1..]))
    else if |s| > 0 && AllDigits(s) then Some(DigitsValue(s))
    else None
  }

  lemma {:induction false} DigitsValueOfNatDigits(n: nat)
    ensures DigitsValue(NatDigits(n)) == n
    decreases n
  {
    var s := NatDigits(n);
    if n < 10 {
      assert s[..|s| - 1] == [];
    } else {
      DigitsValueOfNatDigits(n / 10);
      assert s[..|s| - 1] == NatDigits(n / 10);
    }
  }

  /** `strconv.Itoa` and the `%d` verb: base 10, a leading minus sign for
      negative values, no leading zeros. */
  function Itoa(n: int): (s: string)
    ensures ParseInt(s) == Some(n)
    ensures |s| > 0 && (s[0] == '-' <==> n < 0)
    ensures forall c :: c in s ==> IsNumeralChar(c)
    ensures n >= 0 ==> AllDigits(s) && (s[0] == '0' ==> s == "0")
    ensures n < 0 ==> |s| >= 2 && AllDigits(s[1..]) && s[1] != '0'
  {
    if n < 0 then
      var d := NatDigits(-n);
      DigitsValueOfNatDigits(-n);
      assert ("-" + d)[1..] == d;
      "-" + d
    else
      DigitsValueOfNatDigits(n);
      NatDigits(n)
  }

  /** Two integers render to the same text only if they are equal. */
  lemma ItoaInjective(a: int, b: int)
    requires Itoa(a) == Itoa(b)
    ensures a == b
  {
    assert Some(a) == ParseInt(Itoa(a)) == ParseInt(Itoa(b)) == Some(b);
  }

  /** The position of the first `c` in `s`, if any. */
  function IndexOf(s: string, c: char): (r: Option<nat>)
    ensures r.None? <==> c !in s
    ensures r.Some? ==> r.value < |s| && s[r.value] == c && c !in s[..r.value]
    decreases |s|
  {
    if s == [] then None
    else if s[0] == c then Some(0)
    else match IndexOf(s[1..], c)
      case None => None
      case Some(i) =>
        assert s[1..][..i] == s[1..i + 1];
        assert s[..i + 1] == [s[0]] + s[1..][..i];
        Some(i + 1)
  }

  /** `strings.Split(s, string(sep))`. */
  function Split(s: string, sep: char): (r: seq<string>)
    ensures |r| > 0
    decreases |s|
  {
    match IndexOf(s, sep)
    case None => [s]
    case Some(i) => [s[..i]] + Split(s[i + 1..], sep)
  }

  lemma SplitWithoutSeparator(a: string, sep: char)
    requires sep !in a
    ensures Split(a, sep) == [a]
  {
  }

  /** Splitting a field, the separator and the rest yields the field first. */
  lemma SplitCons(a: string, sep: char, rest: string)
    requires sep !in a
    ensures Split(a + [sep] + rest, sep) == [a] + Split(rest, sep)
  {
    var s := a + [sep] + rest;
    assert s[|a|] == sep;
    var i := IndexOf(s, sep).value;
    assert s[..i] == a;
    assert s[i + 1..] == rest;
  }

  /** The first `c` in a text is also the first in any extension of it. */
  lemma IndexOfPrefix(x: string, y: string, c: char)
    requires c in x
    ensures IndexOf(x + y, c) == IndexOf(x, c)
  {
    var i := IndexOf(x, c).value;
    assert (x + y)[i] == c;
    assert (x + y)[..i] == x[..i];
  }

  /** Splitting two texts joined by the separator splits each of them. */
  lemma {:induction false} SplitConcat(a: string, sep: char, b: string)
    ensures Split(a + [sep] + b, sep) == Split(a, sep) + Split(b, sep)
    decreases |a|
  {
    var s := a + [sep] + b;
    match IndexOf(a, sep)
    case None =>
      SplitCons(a, sep, b);
      assert Split(a, sep) == [a];
    case Some(i) =>
      var head, tail := a[..i], a[i + 1..];
      assert s == a + ([sep] + b);
      IndexOfPrefix(a, [sep] + b, sep);
      assert s[..i] == head;
      assert s[i + 1..] == tail + [sep] + b;
      calc {
        Split(s, sep);
        [head] + Split(tail + [sep] + b, sep);
      == { SplitConcat(tail, sep, b); }
        [head] + (Split(tail, sep) + Split(b, sep));
        ([head] + Split(tail, sep)) + Split(b, sep);
        Split(a, sep) + Split(b, sep);
      }
  }

  /** `strings.TrimPrefix` when the prefix is required: the rest of `s` after
      `prefix`, or nothing when `s` does not start with it. */
  function StripPrefix(s: string, prefix: string): (r: Option<string>)
    ensures r.Some? <==> prefix <= s
    ensures r.Some? ==> s == prefix + r.value
  {
    if prefix <= s then Some(s[|prefix|..]) else None
  }

  lemma StripPrefixOf(prefix: string, rest: string)
    ensures StripPrefix(prefix + rest, prefix) == Some(rest)
  {
    assert (prefix + rest)[|prefix|..] == rest;
  }

  /** Rendered integers never contain `sep` when `sep` is not a numeral character. */
  lemma NoSeparatorInItoa(n: int, sep: char)
    requires !IsNumeralChar(sep)
    ensures sep !in Itoa(n)
  {
  }

  predicate IsUpperAscii(c: char) {
    'A' <= c <= 'Z'
  }

  predicate IsLowerAscii(c: char) {
    'a' <= c <= 'z'
  }

  /** `strings.ToLower` restricted to ASCII letters. */
  function ToLowerAscii(s: string): (r: string)
    ensures |r| == |s|
    ensures forall i :: 0 <= i < |r| ==> !IsUpperAscii(r[i])
    ensures forall i :: 0 <= i < |s| && !IsUpperAscii(s[i]) ==> r[i] == s[i]
    ensures forall i :: 0 <= i < |s| && IsUpperAscii(s[i]) ==> r[i] as int == s[i] as int + 32
  {
    seq(|s|, i requires 0 <= i < |s| =>
      if IsUpperAscii(s[i]) then (s[i] as int + 32) as char else s[i])
  }

  /** `strings.ToUpper` restricted to ASCII letters. */
  function ToUpperAscii(s: string): (r: string)
    ensures |r| == |s|
    ensures forall i :: 0 <= i < |r| ==> !IsLowerAscii(r[i])
    ensures forall i :: 0 <= i < |s| && !IsLowerAscii(s[i]) ==> r[i] == s[i]
    ensures forall i :: 0 <= i < |s| && IsLowerAscii(s[i]) ==> r[i] as int == s[i] as int - 32
  {
    seq(|s|, i requires 0 <= i < |s| =>
      if IsLowerAscii(s[i]) then (s[i] as int - 32) as char else s[i])
  }

  /** Number of bytes of the UTF-8 encoding of one code point. */
  function Utf8Width(c: char): (w: nat)
    ensures 1 <= w <= 4
    ensures w == 1 <==> c as int < 0x80
  {
    if c as int < 0x80 then 1
    else if c as int < 0x800 then 2
    else if c as int < 0x10000 then 3
    else 4
  }

  /** `len(s)` of a Go string: its length in UTF-8 bytes, not in characters. */
  function Utf8Length(s: string): (n: nat)
    ensures |s| <= n <= 4 * |s|
    ensures n == |s| <==> forall i :: 0 <= i < |s| ==> s[i] as int < 0x80
    decreases |s|
  {
    if s == [] then 0 else Utf8Width(s[0]) + Utf8Length(s[1..])
  }
}
