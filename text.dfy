/** Character-level facts of the .NET runtime that the SDK relies on:
    `char.IsWhiteSpace`, decimal digits (for `yyyyMMdd` and `int.Parse`) and
    `Encoding.UTF8.GetBytes`. */
module Text {
  import opened Common

  /** `char.IsWhiteSpace`: the Unicode White_Space characters. */
  predicate IsWhiteSpace(c: char) {
    var n := c as int;
    (0x09 <= n <= 0x0D) || n == 0x20 || n == 0x85 || n == 0xA0 || n == 0x1680
    || (0x2000 <= n <= 0x200A) || n == 0x2028 || n == 0x2029 || n == 0x202F
    || n == 0x205F || n == 0x3000
  }

  /** `string.IsNullOrWhiteSpace`. */
  predicate IsNullOrWhiteSpace(s: Option<string>) {
    s.None? || forall i :: 0 <= i < |s.value| ==> IsWhiteSpace(s.value[i])
  }

  predicate IsDigit(c: char) {
    '0' <= c <= '9'
  }

  predicate AllDigits(s: string) {
    forall i :: 0 <= i < |s| ==> IsDigit(s[i])
  }

  function DigitValue(c: char): nat
    requires IsDigit(c)
  {
    c as int - '0' as int
  }

  function DigitChar(d: nat): (c: char)
    requires d < 10
    ensures IsDigit(c) && DigitValue(c) == d
  {
    (d + '0' as int) as char
  }

  /** The number a string of decimal digits denotes, most significant first. */
  function DigitsValue(s: string): nat
    requires AllDigits(s)
    decreases |s|
  {
    if |s| == 0 then 0 else 10 * DigitsValue(s[..|s| - 1]) + DigitValue(s[|s| - 1])
  }

  function Pow10(n: nat): (p: nat)
    ensures p >= 1
  {
    if n == 0 then 1 else 10 * Pow10(n - 1)
  }

  /** `n` written in exactly `width` decimal digits, zero-padded on the left
      (the `yyyy`, `MM` and `dd` custom format specifiers). */
  function PadDigits(n: nat, width: nat): (s: string)
    ensures |s| == width && AllDigits(s)
  {
    if width == 0 then "" else PadDigits(n / 10, width - 1) + [DigitChar(n % 10)]
  }

  /** Reading back a padded number gives the number, when it fits the width. */
  lemma {:induction false} PadDigitsValue(n: nat, width: nat)
    requires n < Pow10(width)
    ensures DigitsValue(PadDigits(n, width)) == n
  {
    if width > 0 {
      var s := PadDigits(n, width);
      assert s == PadDigits(n / 10, width - 1) + [DigitChar(n % 10)];
      assert s[..|s| - 1] == PadDigits(n / 10, width - 1);
      assert DigitValue(s[|s| - 1]) == n % 10;
      assert n / 10 < Pow10(width - 1) by {
        assert Pow10(width) == 10 * Pow10(width - 1);
      }
      PadDigitsValue(n / 10, width - 1);
      assert DigitsValue(s) == 10 * (n / 10) + n % 10;
    }
  }

  /** The number of digits of the shortest decimal rendering of `n`. */
  function DigitCount(n: nat): (k: nat)
    ensures k >= 1 && n < Pow10(k)
  {
    if n < 10 then 1 else 1 + DigitCount(n / 10)
  }

  /** `n.ToString()` for a non-negative number. */
  function Decimal(n: nat): (s: string)
    ensures |s| >= 1 && AllDigits(s)
  {
    PadDigits(n, DigitCount(n))
  }

  /** The UTF-8 bytes of one Unicode scalar value. */
  function Utf8Char(c: char): (r: seq<byte>)
    ensures 1 <= |r| <= 4
  {
    var n := c as int;
    if n < 0x80 then [n as byte]
    else if n < 0x800 then [(0xC0 + n / 0x40) as byte, (0x80 + n % 0x40) as byte]
    else if n < 0x10000 then
      [(0xE0 + n / 0x1000) as byte, (0x80 + n / 0x40 % 0x40) as byte, (0x80 + n % 0x40) as byte]
    else
      [(0xF0 + n / 0x40000) as byte, (0x80 + n / 0x1000 % 0x40) as byte,
       (0x80 + n / 0x40 % 0x40) as byte, (0x80 + n % 0x40) as byte]
  }

  /** `Encoding.UTF8.GetBytes(s)`. */
  function Utf8(s: string): (r: seq<byte>)
    ensures |s| <= |r| <= 4 * |s|
    ensures |r| == 0 <==> |s| == 0
  {
    if |s| == 0 then [] else Utf8Char(s[0]) + Utf8(s[1..])
  }

  /** The length of the UTF-8 sequence a lead byte starts. */
  function Utf8Width(lead: byte): (w: nat)
    ensures 1 <= w <= 4
  {
    if lead < 0x80 then 1 else if lead < 0xE0 then 2 else if lead < 0xF0 then 3 else 4
  }

  /** The scalar value of the UTF-8 sequence at the start of `bs`. */
  function DecodeOne(bs: seq<byte>): int
    requires |bs| > 0 && Utf8Width(bs[0]) <= |bs|
  {
    var w := Utf8Width(bs[0]);
    if w == 1 then bs[0] as int
    else if w == 2 then (bs[0] as int - 0xC0) * 0x40 + (bs[1] as int - 0x80)
    else if w == 3 then
      (bs[0] as int - 0xE0) * 0x1000 + (bs[1] as int - 0x80) * 0x40 + (bs[2] as int - 0x80)
    else
      (bs[0] as int - 0xF0) * 0x40000 + (bs[1] as int - 0x80) * 0x1000
        + (bs[2] as int - 0x80) * 0x40 + (bs[3] as int - 0x80)
  }

  /** A UTF-8 decoder: the scalar values of `bs`, up to a truncated sequence. */
  function Utf8Decode(bs: seq<byte>): seq<int>
    decreases |bs|
  {
    if |bs| == 0 || |bs| < Utf8Width(bs[0]) then []
    else [DecodeOne(bs)] + Utf8Decode(bs[Utf8Width(bs[0])..])
  }

  /** The scalar values of a string. */
  function CodePoints(s: string): seq<int> {
    seq(|s|, i requires 0 <= i < |s| => s[i] as int)
  }

  /** A two-byte sequence starts with a lead byte in 0xC2..0xDF and reads back as its value. */
  lemma Utf8Decode2(n: int)
    requires 0x80 <= n < 0x800
    ensures var bs := [(0xC0 + n / 0x40) as byte, (0x80 + n % 0x40) as byte];
      Utf8Width(bs[0]) == 2 && DecodeOne(bs) == n
  {
    assert n == n / 0x40 * 0x40 + n % 0x40;
  }

  /** A three-byte sequence starts with a lead byte in 0xE0..0xEF and reads back as its value. */
  lemma Utf8Decode3(n: int)
    requires 0x800 <= n < 0x10000
    ensures var bs := [(0xE0 + n / 0x1000) as byte, (0x80 + n / 0x40 % 0x40) as byte, (0x80 + n % 0x40) as byte];
      Utf8Width(bs[0]) == 3 && DecodeOne(bs) == n
  {
    var m := n / 0x40;
    assert n == m * 0x40 + n % 0x40;
    assert m == m / 0x40 * 0x40 + m % 0x40;
    assert m / 0x40 == n / 0x1000;
  }

  /** A four-byte sequence starts with a lead byte in 0xF0..0xF4 and reads back as its value. */
  lemma Utf8Decode4(n: int)
    requires 0x10000 <= n < 0x110000
    ensures var bs := [(0xF0 + n / 0x40000) as byte, (0x80 + n / 0x1000 % 0x40) as byte,
                       (0x80 + n / 0x40 % 0x40) as byte, (0x80 + n % 0x40) as byte];
      Utf8Width(bs[0]) == 4 && DecodeOne(bs) == n
  {
    var m := n / 0x40;
    var k := n / 0x1000;
    assert n == m * 0x40 + n % 0x40;
    assert m == m / 0x40 * 0x40 + m % 0x40;
    assert m / 0x40 == k;
    assert k == k / 0x40 * 0x40 + k % 0x40;
    assert k / 0x40 == n / 0x40000;
  }

  /** One character's bytes are one whole UTF-8 sequence that reads back as the character. */
  lemma Utf8CharSequence(c: char)
    ensures var bs := Utf8Char(c); Utf8Width(bs[0]) == |bs| && DecodeOne(bs) == c as int
  {
    var n := c as int;
    if n < 0x80 {
    } else if n < 0x800 {
      Utf8Decode2(n);
    } else if n < 0x10000 {
      Utf8Decode3(n);
    } else {
      Utf8Decode4(n);
    }
  }

  /** Decoding reads one character's bytes back as that character, whatever
      follows them. */
  lemma Utf8CharDecode(c: char, rest: seq<byte>)
    ensures Utf8Decode(Utf8Char(c) + rest) == [c as int] + Utf8Decode(rest)
  {
    var bs := Utf8Char(c) + rest;
    var w := |Utf8Char(c)|;
    Utf8CharSequence(c);
    assert bs[0] == Utf8Char(c)[0];
    assert bs[..w] == Utf8Char(c) && bs[w..] == rest;
    assert DecodeOne(bs) == DecodeOne(Utf8Char(c));
  }

  /** Decoding `Encoding.UTF8.GetBytes(s)` gives back the characters of `s`. */
  lemma {:induction false} Utf8RoundTrip(s: string)
    ensures Utf8Decode(Utf8(s)) == CodePoints(s)
  {
    if |s| > 0 {
      Utf8CharDecode(s[0], Utf8(s[1..]));
      Utf8RoundTrip(s[1..]);
      assert CodePoints(s) == [s[0] as int] + CodePoints(s[1..]);
    }
  }

  /** Different strings are sent as different payloads. */
  lemma Utf8Injective(s: string, t: string)
    requires Utf8(s) == Utf8(t)
    ensures s == t
  {
    Utf8RoundTrip(s);
    Utf8RoundTrip(t);
    assert |s| == |CodePoints(s)| == |CodePoints(t)| == |t|;
    forall i | 0 <= i < |s| ensures s[i] == t[i] {
      assert CodePoints(s)[i] == CodePoints(t)[i];
    }
  }

  /** The dot-separated tokens of a subject, as a NATS subscriber sees them. */
  function SplitOnDot(s: string): (parts: seq<string>)
    ensures |parts| >= 1
  {
    if |s| == 0 then [""]
    else
      var rest := SplitOnDot(s[1..]);
      if s[0] == '.' then [""] + rest else [[s[0]] + rest[0]] + rest[1..]
  }

  /** Tokens joined by dots. */
  function JoinWithDots(parts: seq<string>): string
    requires |parts| >= 1
  {
    if |parts| == 1 then parts[0] else parts[0] + "." + JoinWithDots(parts[1..])
  }

  /** A dot-free prefix extends the first token. */
  lemma {:induction false} SplitDotFreePrefix(a: string, t: string)
    requires '.' !in a
    ensures SplitOnDot(a + t) == [a + SplitOnDot(t)[0]] + SplitOnDot(t)[1..]
  {
    if |a| == 0 {
      assert a + t == t && a + SplitOnDot(t)[0] == SplitOnDot(t)[0];
      assert [SplitOnDot(t)[0]] + SplitOnDot(t)[1..] == SplitOnDot(t);
    } else {
      assert (a + t)[0] == a[0] && (a + t)[1..] == a[1..] + t;
      SplitDotFreePrefix(a[1..], t);
      assert [a[0]] + (a[1..] + SplitOnDot(t)[0]) == a + SplitOnDot(t)[0];
    }
  }

  /** Splitting undoes joining when no token contains a dot. */
  lemma {:induction false} SplitJoin(parts: seq<string>)
    requires |parts| >= 1
    requires forall i :: 0 <= i < |parts| ==> '.' !in parts[i]
    ensures SplitOnDot(JoinWithDots(parts)) == parts
  {
    if |parts| == 1 {
      SplitDotFreePrefix(parts[0], "");
      assert parts[0] + "" == parts[0];
    } else {
      var rest := JoinWithDots(parts[1..]);
      SplitJoin(parts[1..]);
      SplitDotFreePrefix(parts[0], "." + rest);
      assert ("." + rest)[0] == '.' && ("." + rest)[1..] == rest;
      assert SplitOnDot("." + rest) == [""] + parts[1..];
      assert parts[0] + "." + rest == parts[0] + ("." + rest);
      assert parts[0] + "" == parts[0];
      assert parts == [parts[0]] + parts[1..];
    }
  }
}
