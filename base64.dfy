/** `base64encode`: the UTF-8 bytes of a string in the standard base64 encoding
    with padding (section 4 of RFC 4648), as the text of the binding secret
    needs it. A `char` is a Unicode scalar value, so every string has a UTF-8
    encoding.
 */
module Base64 {
  import opened Errors

  type byte = x: int | 0 <= x < 256

  // ------------------------------------------------------------------ UTF-8

  /** The UTF-8 encoding of one scalar value: one byte below 0x80, then two,
      three or four bytes, a lead byte and continuation bytes of six bits each. */
  function CharBytes(c: char): (bs: seq<byte>)
    ensures 1 <= |bs| <= 4
    ensures (c as int < 0x80) <==> |bs| == 1
  {
    var n := c as int;
    if n < 0x80 then [n]
    else if n < 0x800 then [0xC0 + n / 64, 0x80 + n % 64]
    else if n < 0x10000 then [0xE0 + n / 4096, 0x80 + (n / 64) % 64, 0x80 + n % 64]
    else [0xF0 + n / 262144, 0x80 + (n / 4096) % 64, 0x80 + (n / 64) % 64, 0x80 + n % 64]
  }

  /** `value.encode(encoding='UTF-8')`. */
  function Utf8(s: string): seq<byte>
  {
    if s == [] then [] else CharBytes(s[0]) + Utf8(s[1..])
  }

  /** ASCII text encodes to one byte per character, the character itself. */
  lemma {:induction false} Utf8Ascii(s: string)
    requires forall i :: 0 <= i < |s| ==> s[i] as int < 0x80
    ensures |Utf8(s)| == |s|
    ensures forall i :: 0 <= i < |s| ==> Utf8(s)[i] == s[i] as int
  {
    if s != [] {
      Utf8Ascii(s[1..]);
    }
  }

  // ----------------------------------------------------------------- base64

  /** The character of a six-bit group, from `A-Za-z0-9+/`. */
  function Digit(n: int): (c: char)
    requires 0 <= n < 64
  {
    if n < 26 then ('A' as int + n) as char
    else if n < 52 then ('a' as int + n - 26) as char
    else if n < 62 then ('0' as int + n - 52) as char
    else if n == 62 then '+'
    else '/'
  }

  /** The six-bit group of a character of the alphabet, -1 for any other. */
  function DigitValue(c: char): (n: int)
    ensures -1 <= n < 64
  {
    if 'A' <= c <= 'Z' then c as int - 'A' as int
    else if 'a' <= c <= 'z' then c as int - 'a' as int + 26
    else if '0' <= c <= '9' then c as int - '0' as int + 52
    else if c == '+' then 62
    else if c == '/' then 63
    else -1
  }

  lemma DigitValueOfDigit(n: int)
    requires 0 <= n < 64
    ensures DigitValue(Digit(n)) == n && Digit(n) != '='
  {
  }

  /** One group of up to three bytes as four characters; a group of one or two
      bytes is padded with `=`. */
  function EncodeGroup(g: seq<byte>): (q: string)
    requires 1 <= |g| <= 3
    ensures |q| == 4
  {
    var b0 := g[0];
    var b1 := if |g| > 1 then g[1] else 0;
    var b2 := if |g| > 2 then g[2] else 0;
    var c0 := Digit(b0 / 4);
    var c1 := Digit((b0 % 4) * 16 + b1 / 16);
    var c2 := if |g| > 1 then Digit((b1 % 16) * 4 + b2 / 64) else '=';
    var c3 := if |g| > 2 then Digit(b2 % 64) else '=';
    [c0, c1, c2, c3]
  }

  /** `base64.b64encode`: the bytes three at a time. */
  function Encode(bs: seq<byte>): string
    decreases |bs|
  {
    if bs == [] then ""
    else if |bs| <= 3 then EncodeGroup(bs)
    else EncodeGroup(bs[..3]) + Encode(bs[3..])
  }

  /** `base64encode(value)`: the encoded UTF-8 bytes, read back as an ASCII string. */
  function Base64Encode(value: string): string
  {
    Encode(Utf8(value))
  }

  /** The decoder the encoding is checked against: four characters at a time,
      padding only in the last group, and zero bits wherever padding cuts a
      group. */
  function DecodeGroup(q: string, last: bool): Option<seq<byte>>
    requires |q| == 4
  {
    var a, b, c, d := DigitValue(q[0]), DigitValue(q[1]), DigitValue(q[2]), DigitValue(q[3]);
    if a < 0 || b < 0 then None
    else if last && q[2] == '=' && q[3] == '=' then
      if b % 16 == 0 then Some([a * 4 + b / 16]) else None
    else if c < 0 then None
    else if last && q[3] == '=' then
      if c % 4 == 0 then Some([a * 4 + b / 16, (b % 16) * 16 + c / 4]) else None
    else if d < 0 then None
    else Some([a * 4 + b / 16, (b % 16) * 16 + c / 4, (c % 4) * 64 + d])
  }

  function Decode(s: string): Option<seq<byte>>
    decreases |s|
  {
    if s == [] then Some([])
    else if |s| < 4 then None
    else
      match DecodeGroup(s[..4], |s| == 4)
      case None => None
      case Some(g) =>
        match Decode(s[4..])
        case None => None
        case Some(rest) => Some(g + rest)
  }

  /** The encoding is `4 * ceil(n / 3)` characters long. */
  lemma {:induction false} EncodeLength(bs: seq<byte>)
    ensures |Encode(bs)| == 4 * ((|bs| + 2) / 3)
    decreases |bs|
  {
    var n := |bs|;
    if n > 3 {
      EncodeLength(bs[3..]);
      assert (n + 2) / 3 == 1 + (n - 3 + 2) / 3;
    } else if n > 0 {
      assert (n + 2) / 3 == 1;
    }
  }

  /** Every character of the encoding is from the alphabet or is padding, and
      padding only ends it. */
  lemma {:induction false} EncodeAlphabet(bs: seq<byte>)
    ensures forall i :: 0 <= i < |Encode(bs)| ==> DigitValue(Encode(bs)[i]) >= 0 || Encode(bs)[i] == '='
    ensures forall i :: 0 <= i < |Encode(bs)| - 2 ==> Encode(bs)[i] != '='
    decreases |bs|
  {
    if bs != [] {
      var g := if |bs| <= 3 then bs else bs[..3];
      GroupAlphabet(g);
      if |bs| > 3 {
        EncodeAlphabet(bs[3..]);
        EncodeLength(bs[3..]);
        var e := Encode(bs);
        assert e == EncodeGroup(g) + Encode(bs[3..]);
        forall i | 0 <= i < |e|
          ensures DigitValue(e[i]) >= 0 || e[i] == '='
          ensures i < |e| - 2 ==> e[i] != '='
        {
          if i >= 4 {
            assert e[i] == Encode(bs[3..])[i - 4];
          }
        }
      }
    }
  }

  lemma GroupAlphabet(g: seq<byte>)
    requires 1 <= |g| <= 3
    ensures forall i :: 0 <= i < 4 ==> DigitValue(EncodeGroup(g)[i]) >= 0 || EncodeGroup(g)[i] == '='
    ensures EncodeGroup(g)[0] != '=' && EncodeGroup(g)[1] != '='
    ensures |g| == 3 ==> EncodeGroup(g)[2] != '=' && EncodeGroup(g)[3] != '='
  {
    var b0 := g[0];
    var b1 := if |g| > 1 then g[1] else 0;
    var b2 := if |g| > 2 then g[2] else 0;
    DigitValueOfDigit(b0 / 4);
    DigitValueOfDigit((b0 % 4) * 16 + b1 / 16);
    DigitValueOfDigit((b1 % 16) * 4 + b2 / 64);
    DigitValueOfDigit(b2 % 64);
  }

  /** Splitting a number at a power of two and joining it back. */
  lemma Split(q: int, r: int, k: int)
    requires k == 4 || k == 16 || k == 64
    requires 0 <= q && 0 <= r < k
    ensures (q * k + r) / k == q && (q * k + r) % k == r
  {
  }

  /** Decoding four digits without padding. */
  lemma DecodeFull(x0: int, x1: int, x2: int, x3: int, last: bool)
    requires 0 <= x0 < 64 && 0 <= x1 < 64 && 0 <= x2 < 64 && 0 <= x3 < 64
    ensures DecodeGroup([Digit(x0), Digit(x1), Digit(x2), Digit(x3)], last)
      == Some([x0 * 4 + x1 / 16, (x1 % 16) * 16 + x2 / 4, (x2 % 4) * 64 + x3])
  {
    DigitValueOfDigit(x0);
    DigitValueOfDigit(x1);
    DigitValueOfDigit(x2);
    DigitValueOfDigit(x3);
  }

  /** Decoding three digits and one `=`. */
  lemma DecodeOnePad(x0: int, x1: int, x2: int)
    requires 0 <= x0 < 64 && 0 <= x1 < 64 && 0 <= x2 < 64 && x2 % 4 == 0
    ensures DecodeGroup([Digit(x0), Digit(x1), Digit(x2), '='], true)
      == Some([x0 * 4 + x1 / 16, (x1 % 16) * 16 + x2 / 4])
  {
    DigitValueOfDigit(x0);
    DigitValueOfDigit(x1);
    DigitValueOfDigit(x2);
  }

  /** Decoding two digits and two `=`. */
  lemma DecodeTwoPads(x0: int, x1: int)
    requires 0 <= x0 < 64 && 0 <= x1 < 64 && x1 % 16 == 0
    ensures DecodeGroup([Digit(x0), Digit(x1), '=', '='], true) == Some([x0 * 4 + x1 / 16])
  {
    DigitValueOfDigit(x0);
    DigitValueOfDigit(x1);
  }

  /** Decoding one encoded group gives the group back. */
  lemma GroupRoundTrip(g: seq<byte>, last: bool)
    requires 1 <= |g| <= 3 && (|g| < 3 ==> last)
    ensures DecodeGroup(EncodeGroup(g), last) == Some(g)
  {
    if |g| == 1 {
      OneByteRoundTrip(g[0]);
      assert [g[0]] == g;
    } else if |g| == 2 {
      TwoBytesRoundTrip(g[0], g[1]);
      assert [g[0], g[1]] == g;
    } else {
      ThreeBytesRoundTrip(g[0], g[1], g[2], last);
      assert [g[0], g[1], g[2]] == g;
    }
  }

  lemma OneByteRoundTrip(b0: byte)
    ensures DecodeGroup(EncodeGroup([b0]), true) == Some([b0])
  {
    var x0, x1 := b0 / 4, (b0 % 4) * 16;
    Split(b0 % 4, 0, 16);
    assert EncodeGroup([b0]) == [Digit(x0), Digit(x1), '=', '='];
    DecodeTwoPads(x0, x1);
  }

  lemma TwoBytesRoundTrip(b0: byte, b1: byte)
    ensures DecodeGroup(EncodeGroup([b0, b1]), true) == Some([b0, b1])
  {
    var x0, x1, x2 := b0 / 4, (b0 % 4) * 16 + b1 / 16, (b1 % 16) * 4;
    Split(b0 % 4, b1 / 16, 16);
    Split(b1 % 16, 0, 4);
    assert EncodeGroup([b0, b1]) == [Digit(x0), Digit(x1), Digit(x2), '='];
    DecodeOnePad(x0, x1, x2);
  }

  lemma ThreeBytesRoundTrip(b0: byte, b1: byte, b2: byte, last: bool)
    ensures DecodeGroup(EncodeGroup([b0, b1, b2]), last) == Some([b0, b1, b2])
  {
    var x0, x1, x2, x3 := b0 / 4, (b0 % 4) * 16 + b1 / 16, (b1 % 16) * 4 + b2 / 64, b2 % 64;
    ThreeBytesDigits(b0, b1, b2);
    assert EncodeGroup([b0, b1, b2]) == [Digit(x0), Digit(x1), Digit(x2), Digit(x3)];
    DecodeFull(x0, x1, x2, x3, last);
  }

  /** The four six-bit digits of three bytes, and the bytes they give back. */
  lemma ThreeBytesDigits(b0: byte, b1: byte, b2: byte)
    ensures var x0, x1, x2, x3 := b0 / 4, (b0 % 4) * 16 + b1 / 16, (b1 % 16) * 4 + b2 / 64, b2 % 64;
      && 0 <= x0 < 64 && 0 <= x1 < 64 && 0 <= x2 < 64 && 0 <= x3 < 64
      && x0 * 4 + x1 / 16 == b0 && (x1 % 16) * 16 + x2 / 4 == b1 && (x2 % 4) * 64 + x3 == b2
  {
    Split(b0 % 4, b1 / 16, 16);
    Split(b1 % 16, b2 / 64, 4);
  }

  /** Decoding undoes the encoding. */
  lemma {:induction false} EncodeDecode(bs: seq<byte>)
    ensures Decode(Encode(bs)) == Some(bs)
    decreases |bs|
  {
    if bs != [] {
      if |bs| <= 3 {
        GroupRoundTrip(bs, true);
        assert Encode(bs)[..4] == EncodeGroup(bs);
        assert bs + [] == bs;
      } else {
        var e := Encode(bs);
        EncodeLength(bs[3..]);
        assert e[..4] == EncodeGroup(bs[..3]);
        assert e[4..] == Encode(bs[3..]);
        GroupRoundTrip(bs[..3], |e| == 4);
        EncodeDecode(bs[3..]);
        assert bs[..3] + bs[3..] == bs;
      }
    }
  }

  /** `base64encode` is `4 * ceil(n / 3)` characters long for `n` UTF-8 bytes,
      and decoding it gives those bytes back. */
  lemma Base64EncodeRoundTrip(value: string)
    ensures |Base64Encode(value)| == 4 * ((|Utf8(value)| + 2) / 3)
    ensures Decode(Base64Encode(value)) == Some(Utf8(value))
  {
    EncodeLength(Utf8(value));
    EncodeDecode(Utf8(value));
  }
}
