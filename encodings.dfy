/**
 * Bytes and the two text encodings a Node `Buffer` digest is printed in:
 * lower-case hexadecimal and base64 with padding (section 4 of RFC 4648),
 * each with the decoder that undoes it.
 */
module Encodings {
  import opened Wrappers

  /** An octet of a `Buffer` or `Uint8Array`. */
  type Byte = b: int | 0 <= b < 256

  /** Byte chunks one after another. */
  function Concat(chunks: seq<seq<Byte>>): seq<Byte> {
    if chunks == [] then [] else Concat(chunks[..|chunks| - 1]) + chunks[|chunks| - 1]
  }

  // ---------------------------------------------------------------- hexadecimal

  /** The lower-case hexadecimal digit of `v`. */
  function HexDigit(v: int): char
    requires 0 <= v < 16
  {
    if v < 10 then ('0' as int + v) as char else ('a' as int + v - 10) as char
  }

  /** The value of a lower-case hexadecimal digit, or -1 for any other character. */
  function HexDigitValue(c: char): (v: int)
    ensures -1 <= v < 16
    ensures 0 <= v ==> HexDigit(v) == c
  {
    if '0' <= c <= '9' then c as int - '0' as int
    else if 'a' <= c <= 'f' then c as int - 'a' as int + 10
    else -1
  }

  /** `buffer.toString('hex')`: two digits per byte, high nibble first. */
  function Hex(bytes: seq<Byte>): (s: string)
    ensures |s| == 2 * |bytes|
  {
    if bytes == [] then ""
    else [HexDigit(bytes[0] / 16), HexDigit(bytes[0] % 16)] + Hex(bytes[1..])
  }

  /** `Buffer.from(s, 'hex')` on well-formed text: `None` for an odd length or a character that is no digit. */
  function FromHex(s: string): Option<seq<Byte>> {
    if s == [] then Some([])
    else if |s| < 2 then None
    else
      var hi, lo := HexDigitValue(s[0]), HexDigitValue(s[1]);
      if hi < 0 || lo < 0 then None
      else match FromHex(s[2..])
        case None => None
        case Some(rest) => Some([hi * 16 + lo] + rest)
  }

  /** Hexadecimal text decodes back to the bytes it was made from. */
  lemma {:induction false} HexRoundTrip(bytes: seq<Byte>)
    ensures FromHex(Hex(bytes)) == Some(bytes)
  {
    if bytes != [] {
      var s := Hex(bytes);
      assert s[2..] == Hex(bytes[1..]);
      HexRoundTrip(bytes[1..]);
      assert HexDigitValue(s[0]) == bytes[0] / 16;
      assert HexDigitValue(s[1]) == bytes[0] % 16;
      assert bytes == [bytes[0]] + bytes[1..];
    }
  }

  // ---------------------------------------------------------------- base64

  /** The character of the base64 alphabet for the six-bit value `v`. */
  function Base64Char(v: int): char
    requires 0 <= v < 64
  {
    if v < 26 then ('A' as int + v) as char
    else if v < 52 then ('a' as int + v - 26) as char
    else if v < 62 then ('0' as int + v - 52) as char
    else if v == 62 then '+'
    else '/'
  }

  /** The six-bit value of a base64 character, or -1 for any other character (`=` included). */
  function Base64Value(c: char): (v: int)
    ensures -1 <= v < 64
    ensures 0 <= v ==> Base64Char(v) == c
  {
    if 'A' <= c <= 'Z' then c as int - 'A' as int
    else if 'a' <= c <= 'z' then c as int - 'a' as int + 26
    else if '0' <= c <= '9' then c as int - '0' as int + 52
    else if c == '+' then 62
    else if c == '/' then 63
    else -1
  }

  /** The four characters of a full group of three bytes. */
  function FullGroup(b0: Byte, b1: Byte, b2: Byte): (s: string)
    ensures |s| == 4
  {
    [Base64Char(b0 / 4), Base64Char(b0 % 4 * 16 + b1 / 16), Base64Char(b1 % 16 * 4 + b2 / 64), Base64Char(b2 % 64)]
  }

  /** The padded group of a last single byte. */
  function OneByteGroup(b0: Byte): (s: string)
    ensures |s| == 4
  {
    [Base64Char(b0 / 4), Base64Char(b0 % 4 * 16), '=', '=']
  }

  /** The padded group of two last bytes. */
  function TwoByteGroup(b0: Byte, b1: Byte): (s: string)
    ensures |s| == 4
  {
    [Base64Char(b0 / 4), Base64Char(b0 % 4 * 16 + b1 / 16), Base64Char(b1 % 16 * 4), '=']
  }

  /** `buffer.toString('base64')`: four characters per three bytes, the last group padded with `=`. */
  function Base64(bytes: seq<Byte>): (s: string)
    ensures |s| == 4 * ((|bytes| + 2) / 3)
  {
    if |bytes| == 0 then ""
    else if |bytes| == 1 then OneByteGroup(bytes[0])
    else if |bytes| == 2 then TwoByteGroup(bytes[0], bytes[1])
    else FullGroup(bytes[0], bytes[1], bytes[2]) + Base64(bytes[3..])
  }

  /** Decodes one group of four characters, the last two of which may be padding. */
  function Base64Group(c0: char, c1: char, c2: char, c3: char): Option<seq<Byte>> {
    var v0, v1 := Base64Value(c0), Base64Value(c1);
    if v0 < 0 || v1 < 0 then None
    else if c2 == '=' && c3 == '=' then Some([v0 * 4 + v1 / 16])
    else
      var v2 := Base64Value(c2);
      if v2 < 0 then None
      else if c3 == '=' then Some([v0 * 4 + v1 / 16, v1 % 16 * 16 + v2 / 4])
      else
        var v3 := Base64Value(c3);
        if v3 < 0 then None
        else Some([v0 * 4 + v1 / 16, v1 % 16 * 16 + v2 / 4, v2 % 4 * 64 + v3])
  }

  /** `Buffer.from(s, 'base64')` on padded text: `None` unless it is whole groups, padded only at the end. */
  function FromBase64(s: string): Option<seq<Byte>> {
    if s == [] then Some([])
    else if |s| < 4 then None
    else match Base64Group(s[0], s[1], s[2], s[3])
      case None => None
      case Some(group) =>
        if |group| < 3 then (if |s| == 4 then Some(group) else None)
        else match FromBase64(s[4..])
          case None => None
          case Some(rest) => Some(group + rest)
  }

  /** Every alphabet character reads back as its value. */
  lemma Base64CharValue(v: int)
    requires 0 <= v < 64
    ensures Base64Value(Base64Char(v)) == v
  {
  }

  /** The six-bit values of three bytes put back together give the bytes. */
  lemma SixBitSplit(b0: Byte, b1: Byte, b2: Byte)
    ensures (b0 % 4 * 16 + b1 / 16) / 16 == b0 % 4 && (b0 % 4 * 16 + b1 / 16) % 16 == b1 / 16
    ensures (b1 % 16 * 4 + b2 / 64) / 4 == b1 % 16 && (b1 % 16 * 4 + b2 / 64) % 4 == b2 / 64
    ensures b0 / 4 * 4 + b0 % 4 == b0 && b1 / 16 * 16 + b1 % 16 == b1 && b2 / 64 * 64 + b2 % 64 == b2
  {
  }

  /** A full group of three bytes decodes back to itself. */
  lemma FullGroupRoundTrip(b0: Byte, b1: Byte, b2: Byte)
    ensures Base64Group(Base64Char(b0 / 4), Base64Char(b0 % 4 * 16 + b1 / 16),
                        Base64Char(b1 % 16 * 4 + b2 / 64), Base64Char(b2 % 64)) == Some([b0, b1, b2])
  {
    var v0, v1, v2, v3 := b0 / 4, b0 % 4 * 16 + b1 / 16, b1 % 16 * 4 + b2 / 64, b2 % 64;
    Base64CharValue(v0);
    Base64CharValue(v1);
    Base64CharValue(v2);
    Base64CharValue(v3);
    SixBitSplit(b0, b1, b2);
    assert v0 * 4 + v1 / 16 == b0;
    assert v1 % 16 * 16 + v2 / 4 == b1;
    assert v2 % 4 * 64 + v3 == b2;
  }

  /** A last group of one byte decodes back to it. */
  lemma OneByteGroupRoundTrip(b0: Byte)
    ensures Base64Group(Base64Char(b0 / 4), Base64Char(b0 % 4 * 16), '=', '=') == Some([b0])
  {
    assert Base64Value(Base64Char(b0 / 4)) == b0 / 4;
    assert Base64Value(Base64Char(b0 % 4 * 16)) == b0 % 4 * 16;
  }

  /** A last group of two bytes decodes back to them. */
  lemma TwoByteGroupRoundTrip(b0: Byte, b1: Byte)
    ensures Base64Group(Base64Char(b0 / 4), Base64Char(b0 % 4 * 16 + b1 / 16), Base64Char(b1 % 16 * 4), '=')
      == Some([b0, b1])
  {
    var v1 := b0 % 4 * 16 + b1 / 16;
    var v2 := b1 % 16 * 4;
    assert Base64Value(Base64Char(b0 / 4)) == b0 / 4;
    assert Base64Value(Base64Char(v1)) == v1;
    assert Base64Value(Base64Char(v2)) == v2;
    assert v1 / 16 == b0 % 4 && v1 % 16 == b1 / 16;
    assert v2 / 4 == b1 % 16;
  }

  /** Four characters decode as one group. */
  lemma FromBase64OneGroup(s: string)
    requires |s| == 4
    ensures FromBase64(s) == Base64Group(s[0], s[1], s[2], s[3])
  {
    assert s[4..] == [];
    var group := Base64Group(s[0], s[1], s[2], s[3]);
    if group.Some? {
      assert group.value + [] == group.value;
    }
  }

  /** The first four characters of the text of three or more bytes encode its first three bytes. */
  lemma Base64Step(bytes: seq<Byte>)
    requires |bytes| >= 3
    ensures |Base64(bytes)| >= 4
    ensures Base64Group(Base64(bytes)[0], Base64(bytes)[1], Base64(bytes)[2], Base64(bytes)[3]) == Some(bytes[..3])
    ensures Base64(bytes)[4..] == Base64(bytes[3..])
  {
    FullGroupRoundTrip(bytes[0], bytes[1], bytes[2]);
    assert bytes[..3] == [bytes[0], bytes[1], bytes[2]];
  }

  /** Text that starts with a full group decodes to that group followed by the decoded rest. */
  lemma FromBase64Step(s: string, group: seq<Byte>, rest: seq<Byte>)
    requires |s| >= 4 && Base64Group(s[0], s[1], s[2], s[3]) == Some(group) && |group| == 3
    requires FromBase64(s[4..]) == Some(rest)
    ensures FromBase64(s) == Some(group + rest)
  {
  }

  /** Base64 text decodes back to the bytes it was made from. */
  lemma {:induction false} Base64RoundTrip(bytes: seq<Byte>)
    ensures FromBase64(Base64(bytes)) == Some(bytes)
  {
    if |bytes| == 1 {
      OneByteGroupRoundTrip(bytes[0]);
      FromBase64OneGroup(Base64(bytes));
      assert bytes == [bytes[0]];
    } else if |bytes| == 2 {
      TwoByteGroupRoundTrip(bytes[0], bytes[1]);
      FromBase64OneGroup(Base64(bytes));
      assert bytes == [bytes[0], bytes[1]];
    } else if |bytes| >= 3 {
      Base64Step(bytes);
      Base64RoundTrip(bytes[3..]);
      FromBase64Step(Base64(bytes), bytes[..3], bytes[3..]);
      assert bytes == bytes[..3] + bytes[3..];
    }
  }
}
