/**
 * Base 64 encoding with the standard alphabet and '=' padding (section 4 of
 * RFC 4648), as `Buffer.from(payload).toString('base64')` produces it, and
 * the decoding it is the inverse of. The encoding is taken in two stages:
 * octets to 6-bit values (64 standing for the pad), then values to
 * characters.
 */
module Base64 {

  /** One octet of the encoded payload. */
  type Byte = x: int | 0 <= x < 256

  /** A 6-bit value, or 64 for the pad character. */
  type Sextet = x: int | 0 <= x <= 64

  const Pad: Sextet := 64

  predicate IsB64Char(c: char)
  {
    'A' <= c <= 'Z' || 'a' <= c <= 'z' || '0' <= c <= '9' || c == '+' || c == '/'
  }

  /** The alphabet: A-Z, a-z, 0-9, '+', '/'; then the pad '='. */
  function SextetChar(x: Sextet): (c: char)
    ensures x < 64 ==> IsB64Char(c)
    ensures x == Pad <==> c == '='
  {
    if x < 26 then ('A' as int + x) as char
    else if x < 52 then ('a' as int + (x - 26)) as char
    else if x < 62 then ('0' as int + (x - 52)) as char
    else if x == 62 then '+'
    else if x == 63 then '/'
    else '='
  }

  /** The position of a character in the alphabet; the pad reads as 64. */
  function CharSextet(c: char): Sextet
  {
    if 'A' <= c <= 'Z' then c as int - 'A' as int
    else if 'a' <= c <= 'z' then c as int - 'a' as int + 26
    else if '0' <= c <= '9' then c as int - '0' as int + 52
    else if c == '+' then 62
    else if c == '/' then 63
    else Pad
  }

  lemma CharSextetInverse(x: Sextet)
    ensures CharSextet(SextetChar(x)) == x
  {
  }

  /** Three octets give four values; a tail of one or two is padded to four. */
  function Sextets(bytes: seq<Byte>): (xs: seq<Sextet>)
    ensures |xs| == 4 * ((|bytes| + 2) / 3)
    decreases |bytes|
  {
    if |bytes| == 0 then []
    else if |bytes| == 1 then
      [bytes[0] / 4, (bytes[0] % 4) * 16, Pad, Pad]
    else if |bytes| == 2 then
      [bytes[0] / 4, (bytes[0] % 4) * 16 + bytes[1] / 16, (bytes[1] % 16) * 4, Pad]
    else
      [bytes[0] / 4, (bytes[0] % 4) * 16 + bytes[1] / 16, (bytes[1] % 16) * 4 + bytes[2] / 64, bytes[2] % 64]
      + Sextets(bytes[3..])
  }

  /** The six bits a value carries; the pad carries none. */
  function Bits(y: Sextet): (x: int)
    ensures 0 <= x < 64
    ensures y < 64 ==> x == y
  {
    if y == Pad then 0 else y
  }

  /** Four values back to one, two or three octets, as the pads say. */
  function Group(y0: Sextet, y1: Sextet, y2: Sextet, y3: Sextet): seq<Byte>
  {
    var x0, x1, x2, x3 := Bits(y0), Bits(y1), Bits(y2), Bits(y3);
    if y2 == Pad then [x0 * 4 + x1 / 16]
    else if y3 == Pad then [x0 * 4 + x1 / 16, (x1 % 16) * 16 + x2 / 4]
    else [x0 * 4 + x1 / 16, (x1 % 16) * 16 + x2 / 4, (x2 % 4) * 64 + x3]
  }

  /** Group by group; a short tail is dropped. */
  function Octets(xs: seq<Sextet>): seq<Byte>
    decreases |xs|
  {
    if |xs| < 4 then [] else Group(xs[0], xs[1], xs[2], xs[3]) + Octets(xs[4..])
  }

  /**
   * The encoding: four characters per started group of three octets, every
   * character from the alphabet or the pad, so never a '.'.
   */
  function Encode(bytes: seq<Byte>): (s: string)
    ensures |s| == 4 * ((|bytes| + 2) / 3)
    ensures forall i :: 0 <= i < |s| ==> IsB64Char(s[i]) || s[i] == '='
    ensures '.' !in s
  {
    var xs := Sextets(bytes);
    seq(|xs|, i requires 0 <= i < |xs| => SextetChar(xs[i]))
  }

  /** The decoding: characters to values, values to octets. */
  function Decode(s: string): seq<Byte>
  {
    Octets(seq(|s|, i requires 0 <= i < |s| => CharSextet(s[i])))
  }

  // The bit arithmetic of one group, octet by octet.

  lemma HighOctet(b0: Byte, b1: Byte)
    ensures (b0 / 4) * 4 + ((b0 % 4) * 16 + b1 / 16) / 16 == b0
  {
    assert ((b0 % 4) * 16 + b1 / 16) / 16 == b0 % 4;
  }

  lemma MiddleOctet(b0: Byte, b1: Byte, b2: Byte)
    ensures (((b0 % 4) * 16 + b1 / 16) % 16) * 16 + ((b1 % 16) * 4 + b2 / 64) / 4 == b1
  {
    assert ((b0 % 4) * 16 + b1 / 16) % 16 == b1 / 16;
    assert ((b1 % 16) * 4 + b2 / 64) / 4 == b1 % 16;
  }

  lemma LowOctet(b1: Byte, b2: Byte)
    ensures (((b1 % 16) * 4 + b2 / 64) % 4) * 64 + b2 % 64 == b2
  {
    assert ((b1 % 16) * 4 + b2 / 64) % 4 == b2 / 64;
  }

  /** A padded group of one octet decodes back to it. */
  lemma OctetsOne(b0: Byte)
    ensures Octets([b0 / 4, (b0 % 4) * 16, Pad, Pad]) == [b0]
  {
    var xs: seq<Sextet> := [b0 / 4, (b0 % 4) * 16, Pad, Pad];
    assert xs[4..] == [];
    HighOctet(b0, 0);
  }

  /** A padded group of two octets decodes back to them. */
  lemma OctetsTwo(b0: Byte, b1: Byte)
    ensures Octets([b0 / 4, (b0 % 4) * 16 + b1 / 16, (b1 % 16) * 4, Pad]) == [b0, b1]
  {
    var xs: seq<Sextet> := [b0 / 4, (b0 % 4) * 16 + b1 / 16, (b1 % 16) * 4, Pad];
    assert xs[4..] == [];
    HighOctet(b0, b1);
    MiddleOctet(b0, b1, 0);
  }

  /** The four values of three octets decode back to them. */
  lemma GroupThree(b0: Byte, b1: Byte, b2: Byte)
    ensures Group(b0 / 4, (b0 % 4) * 16 + b1 / 16, (b1 % 16) * 4 + b2 / 64, b2 % 64) == [b0, b1, b2]
  {
    assert (b1 % 16) * 4 + b2 / 64 < 64;
    HighOctet(b0, b1);
    MiddleOctet(b0, b1, b2);
    LowOctet(b1, b2);
  }

  /** A whole group in front decodes back to its three octets, whatever follows. */
  lemma OctetsThree(b0: Byte, b1: Byte, b2: Byte, rest: seq<Sextet>)
    ensures Octets([b0 / 4, (b0 % 4) * 16 + b1 / 16, (b1 % 16) * 4 + b2 / 64, b2 % 64] + rest)
      == [b0, b1, b2] + Octets(rest)
  {
    var x0, x1, x2, x3 := b0 / 4, (b0 % 4) * 16 + b1 / 16, (b1 % 16) * 4 + b2 / 64, b2 % 64;
    var xs: seq<Sextet> := [x0, x1, x2, x3] + rest;
    assert xs[0] == x0 && xs[1] == x1 && xs[2] == x2 && xs[3] == x3;
    assert xs[4..] == rest;
    GroupThree(b0, b1, b2);
  }

  /** The octet stage is undone by its inverse. */
  lemma {:induction false} OctetsSextets(bytes: seq<Byte>)
    ensures Octets(Sextets(bytes)) == bytes
    decreases |bytes|
  {
    if |bytes| == 1 {
      OctetsOne(bytes[0]);
    } else if |bytes| == 2 {
      OctetsTwo(bytes[0], bytes[1]);
      assert bytes == [bytes[0], bytes[1]];
    } else if |bytes| > 2 {
      OctetsSextets(bytes[3..]);
      OctetsThree(bytes[0], bytes[1], bytes[2], Sextets(bytes[3..]));
      assert bytes == [bytes[0], bytes[1], bytes[2]] + bytes[3..];
    }
  }

  /** Decoding undoes encoding: the payload can be read back from a token. */
  lemma DecodeEncode(bytes: seq<Byte>)
    ensures Decode(Encode(bytes)) == bytes
  {
    var xs := Sextets(bytes);
    var s := Encode(bytes);
    var ys := seq(|s|, i requires 0 <= i < |s| => CharSextet(s[i]));
    forall i | 0 <= i < |xs| ensures ys[i] == xs[i] {
      CharSextetInverse(xs[i]);
    }
    assert ys == xs;
    OctetsSextets(bytes);
  }
}
